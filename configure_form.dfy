/** The three-step trip configuration wizard: interests, contact, summary. */
module ConfigureForm {
  import opened Wrappers
  import opened Types

  datatype Step = PreferencesStep | ContactStep | SummaryStep

  datatype FormData = FormData(preferences: Preferences, email: string, tripId: string)

  datatype TripOffer = TripOffer(id: string, name: string, description: string, price: nat)

  /** INITIAL_PREFERENCES. */
  const InitialPreferences: Preferences := Preferences(true, true, false, true)

  /** TRIPS: the one trip on sale. */
  const Trips: seq<TripOffer> := [
    TripOffer("borena-tajemstvi", "Tajemství Bořeně", "Objevte legendy čarodějnice Bilany a kněžny Bořeny", 149)
  ]

  const InvalidEmailMessage: string := "Zadejte platný email"

  /** `trips.find(t => t.id === id)`: the first trip with that id. */
  function FindTrip(trips: seq<TripOffer>, id: string): (r: Option<TripOffer>)
    ensures r.None? <==> forall t :: t in trips ==> t.id != id
    ensures r.Some? ==> r.value in trips && r.value.id == id
    ensures r.Some? ==> exists i :: 0 <= i < |trips| && trips[i] == r.value &&
                                    forall j :: 0 <= j < i ==> trips[j].id != id
    decreases |trips|
  {
    if trips == [] then None
    else if trips[0].id == id then Some(trips[0])
    else
      var r := FindTrip(trips[1..], id);
      assert r.Some? ==> exists i :: 0 <= i < |trips| && trips[i] == r.value &&
                                     forall j :: 0 <= j < i ==> trips[j].id != id by {
        if r.Some? {
          var i :| 0 <= i < |trips[1..]| && trips[1..][i] == r.value &&
                   forall j :: 0 <= j < i ==> trips[1..][j].id != id;
          assert trips[i + 1] == r.value;
          forall j | 0 <= j < i + 1 ensures trips[j].id != id {
            if j > 0 { assert trips[j] == trips[1..][j - 1]; }
          }
        }
      }
      assert r.None? ==> forall t :: t in trips ==> t.id != id by {
        if r.None? {
          forall t | t in trips ensures t.id != id {
            if t != trips[0] { assert t in trips[1..]; }
          }
        }
      }
      r
  }

  /** `TRIPS.find(...) || TRIPS[0]`: an unknown id falls back to the first trip. */
  function SelectedTrip(tripId: string): (t: TripOffer)
    ensures t in Trips
    ensures (exists u :: u in Trips && u.id == tripId) ==> t.id == tripId
    ensures (forall u :: u in Trips ==> u.id != tripId) ==> t == Trips[0]
  {
    match FindTrip(Trips, tripId)
    case Some(t) => t
    case None => Trips[0]
  }

  /** The guard of `handleNext` at the contact step: non-empty and containing '@'. */
  predicate EmailAccepted(email: string)
    ensures EmailAccepted(email) <==> exists i :: 0 <= i < |email| && email[i] == '@'
  {
    email != "" && '@' in email
  }

  datatype Wizard = Wizard(step: Step, error: Option<string>, form: FormData)

  const InitialWizard: Wizard :=
    Wizard(PreferencesStep, None, FormData(InitialPreferences, "", Trips[0].id))

  /** `handleNext`. */
  function AfterNext(w: Wizard): (r: Wizard)
    ensures r.form == w.form
    ensures w.step == PreferencesStep ==> r == w.(step := ContactStep)
    ensures w.step == ContactStep && EmailAccepted(w.form.email) ==> r == w.(step := SummaryStep, error := None)
    ensures w.step == ContactStep && !EmailAccepted(w.form.email) ==> r == w.(error := Some(InvalidEmailMessage))
    ensures w.step == SummaryStep ==> r == w
    ensures r.step == SummaryStep <==> w.step == SummaryStep || (w.step == ContactStep && EmailAccepted(w.form.email))
  {
    match w.step
    case PreferencesStep => w.(step := ContactStep)
    case ContactStep =>
      if !EmailAccepted(w.form.email) then w.(error := Some(InvalidEmailMessage))
      else w.(error := None, step := SummaryStep)
    case SummaryStep => w
  }

  /** `handleBack`: one step back, nothing at the first step; the error stays as it is. */
  function AfterBack(w: Wizard): (r: Wizard)
    ensures r.form == w.form && r.error == w.error
    ensures StepIndex(r.step) == (if StepIndex(w.step) == 0 then 0 else StepIndex(w.step) - 1)
  {
    match w.step
    case ContactStep => w.(step := PreferencesStep)
    case SummaryStep => w.(step := ContactStep)
    case PreferencesStep => w
  }

  /** `updatePreference(key, value)`. */
  function WithPreference(w: Wizard, k: PrefKey, v: bool): (r: Wizard)
    ensures r.step == w.step && r.error == w.error
    ensures r.form.email == w.form.email && r.form.tripId == w.form.tripId
    ensures Flag(r.form.preferences, k) == v
    ensures forall k' :: k' != k ==> Flag(r.form.preferences, k') == Flag(w.form.preferences, k')
  {
    w.(form := w.form.(preferences := WithFlag(w.form.preferences, k, v)))
  }

  /** The e-mail field's `onChange`. */
  function WithEmail(w: Wizard, email: string): (r: Wizard)
    ensures r.step == w.step && r.error == w.error && r.form == w.form.(email := email)
  {
    w.(form := w.form.(email := email))
  }

  /** The summary step is only ever shown with an accepted e-mail. */
  ghost predicate WizardInv(w: Wizard) {
    w.step == SummaryStep ==> EmailAccepted(w.form.email)
  }

  /** Every handler keeps the invariant; the e-mail field exists only at the contact step. */
  lemma HandlersKeepInv(w: Wizard, k: PrefKey, v: bool, email: string)
    requires WizardInv(w)
    ensures WizardInv(InitialWizard)
    ensures WizardInv(AfterNext(w))
    ensures WizardInv(AfterBack(w))
    ensures WizardInv(WithPreference(w, k, v))
    ensures w.step == ContactStep ==> WizardInv(WithEmail(w, email))
  {
  }

  /** Back undoes a successful next, and next undoes back from the summary or contact step. */
  lemma BackAndNext(w: Wizard)
    requires WizardInv(w)
    ensures w.step == PreferencesStep ==> AfterBack(AfterNext(w)) == w
    ensures w.step == ContactStep && EmailAccepted(w.form.email) ==>
      AfterBack(AfterNext(w)) == w.(error := None)
    ensures w.step == SummaryStep ==> AfterNext(AfterBack(w)) == w.(error := None)
    ensures w.step == ContactStep ==> AfterNext(AfterBack(w)) == w
  {
  }

  /** `stepIndex`. */
  function StepIndex(s: Step): (i: nat)
    ensures i < 3
    ensures i == 0 <==> s == PreferencesStep
    ensures i == 2 <==> s == SummaryStep
  {
    match s
    case PreferencesStep => 0
    case ContactStep => 1
    case SummaryStep => 2
  }

  /** `progress`, in percent. */
  function Progress(s: Step): (pct: real)
    ensures 0.0 < pct <= 100.0
    ensures pct == 100.0 <==> s == SummaryStep
  {
    (StepIndex(s) + 1) as real / 3.0 * 100.0
  }

  /** Progress rises strictly from step to step and is full at the summary. */
  lemma ProgressRises(a: Step, b: Step)
    ensures StepIndex(a) < StepIndex(b) ==> Progress(a) < Progress(b)
    ensures Progress(SummaryStep) == 100.0
    ensures 0.0 < Progress(a) <= 100.0
  {
  }

  /** `ConfigureForm()`: its step, error and form data. */
  class ConfigureFormPage {
    var step: Step
    var error: Option<string>
    var formData: FormData

    function State(): Wizard
      reads this
    {
      Wizard(step, error, formData)
    }

    ghost predicate Valid()
      reads this
    {
      WizardInv(State())
    }

    constructor()
      ensures Valid() && State() == InitialWizard
      ensures SelectedTrip(formData.tripId) == Trips[0]
    {
      step := PreferencesStep;
      error := None;
      formData := FormData(InitialPreferences, "", Trips[0].id);
    }

    method HandleNext()
      requires Valid()
      modifies this
      ensures Valid() && State() == AfterNext(old(State()))
    {
      if step == PreferencesStep {
        step := ContactStep;
      } else if step == ContactStep {
        if formData.email == "" || '@' !in formData.email {
          error := Some(InvalidEmailMessage);
          return;
        }
        error := None;
        step := SummaryStep;
      }
    }

    method HandleBack()
      requires Valid()
      modifies this
      ensures Valid() && State() == AfterBack(old(State()))
    {
      if step == ContactStep {
        step := PreferencesStep;
      } else if step == SummaryStep {
        step := ContactStep;
      }
    }

    method UpdatePreference(k: PrefKey, v: bool)
      requires Valid()
      modifies this
      ensures Valid() && State() == WithPreference(old(State()), k, v)
    {
      formData := formData.(preferences := WithFlag(formData.preferences, k, v));
    }

    /** Typing into the e-mail field, which only the contact step renders. */
    method SetEmail(email: string)
      requires Valid() && step == ContactStep
      modifies this
      ensures Valid() && State() == WithEmail(old(State()), email)
    {
      formData := formData.(email := email);
    }
  }
}
