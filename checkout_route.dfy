/** `POST /api/checkout`: the ordered validation of the request body and the demo redirect. */
module CheckoutRoute {
  import opened Wrappers
  import opened Types
  import opened Strings
  import ConfigureForm

  /** A JavaScript value as `request.json()` can produce it, plus `undefined` for a missing
      property. An object is its own properties, duplicate keys already collapsed. */
  datatype JsValue =
    | Undefined
    | Null
    | Bool(b: bool)
    | Num(n: real)
    | Str(s: string)
    | Obj(fields: map<string, JsValue>)

  /** The body of the request: either JSON or something `request.json()` rejects. */
  datatype Request = Malformed | Parsed(body: JsValue)

  predicate Truthy(v: JsValue)
    ensures Truthy(v) ==> !Nullish(v)
    ensures v.Str? ==> (Truthy(v) <==> v.s != "")
    ensures v.Obj? ==> Truthy(v)
  {
    match v
    case Undefined => false
    case Null => false
    case Bool(b) => b
    case Num(n) => n != 0.0
    case Str(s) => s != ""
    case Obj(_) => true
  }

  predicate Nullish(v: JsValue) {
    v.Undefined? || v.Null?
  }

  /** `value.name` on a value that is not null or undefined; none of the names the route reads
      (`tripId`, `email`, `preferences`) exists on a built-in prototype. */
  function Get(v: JsValue, name: string): (r: JsValue)
    requires !Nullish(v)
    ensures !v.Obj? ==> r == Undefined
    ensures r != Undefined ==> v.Obj? && name in v.fields && r == v.fields[name]
  {
    if v.Obj? && name in v.fields then v.fields[name] else Undefined
  }

  /** What converting a value to a property key gives: a name, the numeral of a number (which
      names neither a trip nor a member of `Object.prototype`), or a TypeError. */
  datatype PropKey = Key(name: string) | Numeral | KeyThrows

  /** The property key `TRIPS[value]` looks up. An object is converted with its `toString`, then
      its `valueOf`: an own `toString` key holds a JSON value, which cannot be called, and the
      inherited `valueOf` returns the object itself, so the conversion throws. Without an own
      `toString` the inherited one gives "[object Object]". */
  function PropertyKey(v: JsValue): (k: PropKey)
    ensures k.KeyThrows? <==> v.Obj? && "toString" in v.fields
    ensures k.Numeral? <==> v.Num?
    ensures v.Str? ==> k == Key(v.s)
    ensures k.Key? && k.name == "borena-tajemstvi" <==> v == Str("borena-tajemstvi")
  {
    match v
    case Undefined => Key("undefined")
    case Null => Key("null")
    case Bool(b) => Key(if b then "true" else "false")
    case Num(_) => Numeral
    case Str(s) => Key(s)
    case Obj(fields) => if "toString" in fields then KeyThrows else Key("[object Object]")
  }

  /** The own keys of TRIPS. */
  const TripKeys: set<string> := {"borena-tajemstvi"}

  datatype ResponseBody = ErrorBody(error: string) | RedirectBody(url: string)

  datatype Response = Response(status: nat, body: ResponseBody)

  const MissingFieldsMessage: string := "Chybí povinné údaje"
  const InvalidEmailMessage: string := "Neplatný email"
  const TripNotFoundMessage: string := "Výlet nenalezen"
  const ServerErrorMessage: string := "Něco se pokazilo"
  const DefaultAppUrl: string := "http://localhost:3000"
  const SuccessPath: string := "/checkout/success?session_id=demo_"

  /** `process.env.NEXT_PUBLIC_APP_URL || 'http://localhost:3000'`. */
  function AppUrl(env: Option<string>): (u: string)
    ensures env.Some? && env.value != "" ==> u == env.value
    ensures env.None? || env.value == "" ==> u == DefaultAppUrl
  {
    if env.Some? && env.value != "" then env.value else DefaultAppUrl
  }

  /** The redirect target for a checkout at time `now` (milliseconds). */
  function SuccessUrl(appUrl: string, now: nat): string {
    appUrl + SuccessPath + NatToString(now)
  }

  /** The session id can be read back from the redirect URL. */
  lemma SessionIdRoundTrip(appUrl: string, now: nat)
    ensures var u := SuccessUrl(appUrl, now);
      var prefix := appUrl + SuccessPath;
      |prefix| <= |u| && u[..|prefix|] == prefix && ParseNat(u[|prefix|..]) == Some(now)
  {
    var prefix := appUrl + SuccessPath;
    var u := SuccessUrl(appUrl, now);
    assert u[..|prefix|] == prefix;
    assert u[|prefix|..] == NatToString(now);
    ParseNatToString(now);
  }

  /** The route's cascade, given how `TRIPS[key]` is judged to find a trip. Every early return
      and the catch-all 500 are spelled out in order. */
  function Respond(req: Request, env: Option<string>, now: nat, tripFound: PropKey -> bool)
    : (r: Response)
    ensures r.status in {200, 400, 404, 500}
    ensures r.status == 200 <==> r.body.RedirectBody?
    ensures r.status == 200 ==> r.body.url == SuccessUrl(AppUrl(env), now)
  {
    if req.Malformed? then Response(500, ErrorBody(ServerErrorMessage))
    else
      var body := req.body;
      if Nullish(body) then Response(500, ErrorBody(ServerErrorMessage))
      else
        var tripId, email, prefs := Get(body, "tripId"), Get(body, "email"), Get(body, "preferences");
        if !Truthy(tripId) || !Truthy(email) || !Truthy(prefs) then Response(400, ErrorBody(MissingFieldsMessage))
        else if !email.Str? then Response(500, ErrorBody(ServerErrorMessage))
        else if '@' !in email.s then Response(400, ErrorBody(InvalidEmailMessage))
        else if PropertyKey(tripId).KeyThrows? then Response(500, ErrorBody(ServerErrorMessage))
        else if !tripFound(PropertyKey(tripId)) then Response(404, ErrorBody(TripNotFoundMessage))
        else Response(200, RedirectBody(SuccessUrl(AppUrl(env), now)))
  }

  /** `TRIPS[key]` as written: a plain object also yields the inherited prototype members. */
  function FoundAsWritten(key: PropKey): bool {
    key.Key? && (key.name in TripKeys || key.name in ObjectPrototypeNames)
  }

  /** An own-property lookup of TRIPS. */
  function FoundOwn(key: PropKey): bool {
    key.Key? && key.name in TripKeys
  }

  /** `POST` as written: it answers as `Post` does except that a trip id naming an inherited
      member of `Object.prototype` passes the trip check. */
  function PostAsWritten(req: Request, env: Option<string>, now: nat): (r: Response)
    ensures var own := Post(req, env, now);
      r != own <==>
        && own.status == 404 && own.body == ErrorBody(TripNotFoundMessage)
        && var k := PropertyKey(Get(req.body, "tripId")); k.Key? && k.name in ObjectPrototypeNames
    ensures r != Post(req, env, now) ==> r == Response(200, RedirectBody(SuccessUrl(AppUrl(env), now)))
  {
    Respond(req, env, now, FoundAsWritten)
  }

  /** The fields the route reads from a parsed, non-null body. */
  predicate HasRequiredFields(body: JsValue)
    requires !Nullish(body)
  {
    Truthy(Get(body, "tripId")) && Truthy(Get(body, "email")) && Truthy(Get(body, "preferences"))
  }

  /** `POST`, looking trips up by own key only. */
  function Post(req: Request, env: Option<string>, now: nat): (r: Response)
    ensures r.status in {200, 400, 404, 500}
    ensures r.status == 500 <==>
      || req.Malformed? || Nullish(req.body)
      || (HasRequiredFields(req.body) && !Get(req.body, "email").Str?)
      || (&& HasRequiredFields(req.body) && Get(req.body, "email").Str? && '@' in Get(req.body, "email").s
          && PropertyKey(Get(req.body, "tripId")).KeyThrows?)
    ensures r.body == ErrorBody(MissingFieldsMessage) <==>
      req.Parsed? && !Nullish(req.body) && !HasRequiredFields(req.body)
    ensures r.body == ErrorBody(InvalidEmailMessage) <==>
      && req.Parsed? && !Nullish(req.body) && HasRequiredFields(req.body)
      && Get(req.body, "email").Str? && '@' !in Get(req.body, "email").s
    ensures r.status == 404 <==>
      && req.Parsed? && !Nullish(req.body) && HasRequiredFields(req.body)
      && Get(req.body, "email").Str? && '@' in Get(req.body, "email").s
      && !PropertyKey(Get(req.body, "tripId")).KeyThrows?
      && PropertyKey(Get(req.body, "tripId")) != Key("borena-tajemstvi")
    ensures r.status == 200 <==>
      && req.Parsed? && !Nullish(req.body)
      && Get(req.body, "tripId") == Str("borena-tajemstvi")
      && Get(req.body, "email").Str? && '@' in Get(req.body, "email").s
      && Truthy(Get(req.body, "preferences"))
    ensures r.status == 200 ==> r.body == RedirectBody(SuccessUrl(AppUrl(env), now))
    ensures r.status != 200 ==> r.body.ErrorBody?
  {
    Respond(req, env, now, FoundOwn)
  }

  /** The request the wizard sends: `JSON.stringify({ tripId, email, preferences })`. */
  function WizardRequest(form: ConfigureForm.FormData): Request {
    var p := form.preferences;
    Parsed(Obj(map[
      "tripId" := Str(form.tripId),
      "email" := Str(form.email),
      "preferences" := Obj(map[
        "gastro" := Bool(p.gastro), "history" := Bool(p.history),
        "kids" := Bool(p.kids), "includeWeekendEvents" := Bool(p.includeWeekendEvents)])]))
  }

  /** An e-mail the wizard accepts also passes the route's presence and '@' checks. */
  lemma WizardEmailPassesRoute(email: string)
    requires ConfigureForm.EmailAccepted(email)
    ensures Truthy(Str(email)) && '@' in email
  {
  }

  /** What the wizard submits from its summary step is accepted and redirected. */
  lemma WizardSubmissionSucceeds(w: ConfigureForm.Wizard, env: Option<string>, now: nat)
    requires ConfigureForm.WizardInv(w) && w.step == ConfigureForm.SummaryStep
    requires w.form.tripId == ConfigureForm.Trips[0].id
    ensures Post(WizardRequest(w.form), env, now) == Response(200, RedirectBody(SuccessUrl(AppUrl(env), now)))
  {
    var body := WizardRequest(w.form).body;
    assert Get(body, "tripId") == Str("borena-tajemstvi");
    assert Get(body, "email") == Str(w.form.email);
    assert Get(body, "preferences").Obj?;
  }

  /** As written, an inherited name such as "toString" counts as a trip and the checkout goes
      through; the own-key lookup answers 404. */
  lemma PrototypeTripIdAccepted()
    ensures var req := Parsed(Obj(map["tripId" := Str("toString"), "email" := Str("a@b"),
                                      "preferences" := Obj(map[])]));
      PostAsWritten(req, None, 0).status == 200 && Post(req, None, 0).status == 404
  {
    var req := Parsed(Obj(map["tripId" := Str("toString"), "email" := Str("a@b"),
                              "preferences" := Obj(map[])]));
    assert Get(req.body, "tripId") == Str("toString");
    assert Get(req.body, "email") == Str("a@b");
    assert '@' in "a@b";
    assert "toString" in ObjectPrototypeNames;
    assert "toString" !in TripKeys;
  }

  /** The two lookups differ only on inherited names. */
  lemma FoundDiffersOnlyOnPrototype(key: PropKey)
    ensures FoundAsWritten(key) != FoundOwn(key) <==> key.Key? && key.name in ObjectPrototypeNames - TripKeys
  {
  }

  /** An object trip id with its own `toString` key cannot become a property key: both lookups
      throw and the catch-all answers 500. */
  lemma ObjectTripIdThrows()
    ensures var req := Parsed(Obj(map["tripId" := Obj(map["toString" := Num(1.0)]),
                                      "email" := Str("a@b"), "preferences" := Bool(true)]));
      && Post(req, None, 0) == Response(500, ErrorBody(ServerErrorMessage))
      && PostAsWritten(req, None, 0) == Post(req, None, 0)
  {
    var req := Parsed(Obj(map["tripId" := Obj(map["toString" := Num(1.0)]),
                              "email" := Str("a@b"), "preferences" := Bool(true)]));
    assert Get(req.body, "tripId") == Obj(map["toString" := Num(1.0)]);
    assert Get(req.body, "email") == Str("a@b");
    assert Get(req.body, "preferences") == Bool(true);
    assert '@' in "a@b";
  }

  /** What `handleCheckout` in the wizard makes of the route's answer: a successful response
      sends the browser to `data.url` (absent when the body has none), any other shows
      `data.error || 'Něco se pokazilo'`. */
  datatype CheckoutOutcome = Navigate(url: Option<string>) | ShowError(message: string)

  function HandleCheckout(r: Response): (o: CheckoutOutcome)
    ensures o.Navigate? <==> 200 <= r.status <= 299
    ensures o.Navigate? ==> (o.url.Some? <==> r.body.RedirectBody?)
    ensures o.ShowError? ==> o.message != ""
    ensures o.ShowError? && r.body.ErrorBody? && r.body.error != "" ==> o.message == r.body.error
  {
    if 200 <= r.status <= 299 then
      Navigate(if r.body.RedirectBody? then Some(r.body.url) else None)
    else if r.body.ErrorBody? && r.body.error != "" then ShowError(r.body.error)
    else ShowError(ServerErrorMessage)
  }

  /** The summary step's submission ends on the success page of this checkout. */
  lemma WizardCheckoutNavigates(w: ConfigureForm.Wizard, env: Option<string>, now: nat)
    requires ConfigureForm.WizardInv(w) && w.step == ConfigureForm.SummaryStep
    requires w.form.tripId == ConfigureForm.Trips[0].id
    ensures HandleCheckout(Post(WizardRequest(w.form), env, now)) == Navigate(Some(SuccessUrl(AppUrl(env), now)))
  {
    WizardSubmissionSucceeds(w, env, now);
  }

  /** Whatever the route rejects, the wizard shows the route's own message. */
  lemma RejectionsReachUser(req: Request, env: Option<string>, now: nat)
    ensures var r := Post(req, env, now);
      r.status != 200 ==> HandleCheckout(r) == ShowError(r.body.error)
  {
  }
}
