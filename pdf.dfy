/** The itinerary template behind the PDF: trip lookup, preference filter over the sections,
    their concatenation and the interest badges. */
module Pdf {
  import opened Wrappers
  import opened Types
  import Seqs

  /** A section's `category`: the introduction, or the preference key that selects it. */
  datatype SectionCategory = Intro | Interest(key: PrefKey)

  datatype Section = Section(category: SectionCategory, title: string, content: string)

  datatype Trip = Trip(name: string, description: string, sections: seq<Section>)

  const IntroContent: string := @"
          Hora Bořeň (539 m n. m.) je dominantou Bílinska a skrývá fascinující
          příběhy z dávné historie. Legenda praví, že zde žila čarodějnice Bilana,
          po které dostalo město Bílina své jméno. Podle jiné pověsti je hora
          pojmenována po kněžně Bořeně, která zde měla svůj hrad.
        "

  const HistoryContent: string := @"
          <h3>Čarodějnice Bilana</h3>
          <p>Podle staré pověsti žila na hoře mocná čarodějnice Bilana, která
          léčila nemocné a předpovídala budoucnost. Lidé z okolí ji vyhledávali
          pro její moudrost.</p>

          <h3>Kněžna Bořena</h3>
          <p>Jiná legenda vypráví o krásné kněžně Bořeně, která se ukryla na hoře
          před nájezdníky. Na jejím místě pak vznikl hrad, jehož zbytky jsou
          dodnes patrné.</p>

          <h3>Hradní zřícenina</h3>
          <p>Na vrcholu najdete zbytky středověkého hradu ze 14. století.
          Doporučujeme prohlídku s průvodcem, který vám odhalí tajemství
          hradních sklepení.</p>
        "

  const GastroContent: string := @"
          <h3>Restaurace U Bořeně</h3>
          <p>Tradiční česká kuchyně s výhledem na horu. Doporučujeme svíčkovou
          a domácí knedlíky. Adresa: Náměstí Míru 12, Bílina</p>

          <h3>Kavárna Bilana</h3>
          <p>Útulná kavárna s domácími zákusky a výbornou kávou. Ideální
          pro odpočinek po túře. Adresa: Bílinská 45, Bílina</p>

          <h3>Pivovar Bílina</h3>
          <p>Místní minipivovar s ochutnávkou. Vyzkoušejte speciál ""Bořeňský ležák"".
          Otevřeno: Pá-Ne 14:00-22:00</p>
        "

  const KidsContent: string := @"
          <h3>Naučná stezka Bořeň</h3>
          <p>Interaktivní stezka s 8 stanovišti. Děti sbírají razítka a na konci
          je čeká diplom ""Objevitel Bořeně"". Délka: 3 km, vhodné od 5 let.</p>

          <h3>Dětské hřiště U Lanovky</h3>
          <p>Moderní hřiště s lanovým centrem a pískovištěm. Nachází se u dolní
          stanice lanovky na Bořeň.</p>

          <h3>Tip pro rodiče</h3>
          <p>Vezměte s sebou svačinu - na vrcholu je krásná vyhlídka ideální
          pro piknik.</p>
        "

  const EventsContent: string := @"
          <h3>Tento víkend</h3>
          <p><strong>Sobota 10:00:</strong> Komentovaná prohlídka hradní zříceniny</p>
          <p><strong>Sobota 14:00:</strong> Workshop výroby bylinkových mastí</p>
          <p><strong>Neděle 9:00:</strong> Ranní jóga na vrcholu Bořeně</p>

          <h3>Připravujeme</h3>
          <p>Festival legend Bořeně - první víkend v květnu</p>
        "

  const BorenaTrip: Trip := Trip(
    "Tajemství Bořeně",
    "Objevte legendy čarodějnice Bilany a kněžny Bořeny",
    [
      Section(Intro, "Vítejte na Bořeni", IntroContent),
      Section(Interest(HistoryKey), "Historie a legendy", HistoryContent),
      Section(Interest(GastroKey), "Gastro tipy", GastroContent),
      Section(Interest(KidsKey), "Pro děti", KidsContent),
      Section(Interest(WeekendEventsKey), "Aktuální akce", EventsContent)
    ])

  /** TRIP_DATA's own entries. */
  const TripData: map<string, Trip> := map["borena-tajemstvi" := BorenaTrip]

  /** The filter callback: the introduction always, any other section iff its flag is on. */
  predicate Kept(s: Section, prefs: Preferences)
    ensures s.category.Intro? ==> Kept(s, prefs)
    ensures prefs == Preferences(true, true, true, true) ==> Kept(s, prefs)
    ensures prefs == Preferences(false, false, false, false) ==> (Kept(s, prefs) <==> s.category.Intro?)
  {
    match s.category
    case Intro => true
    case Interest(k) => Flag(prefs, k)
  }

  function KeptBy(prefs: Preferences): Section -> bool {
    (s: Section) => Kept(s, prefs)
  }

  /** `filteredSections`: the kept sections in their original order. */
  function FilteredSections(sections: seq<Section>, prefs: Preferences): (r: seq<Section>)
    ensures Seqs.IsSubsequence(r, sections)
    ensures forall s :: s in r <==> s in sections && Kept(s, prefs)
  {
    Seqs.Filter(KeptBy(prefs), sections)
  }

  const SectionOpen: string := "\n      <section class=\"section\">\n        <h2>"
  const SectionMid: string := "</h2>\n        <div class=\"content\">"
  const SectionClose: string := "</div>\n      </section>\n    "

  /** The `<section>` block of one section: its title inside `<h2>`, then its content. */
  function SectionHtml(s: Section): (h: string)
    ensures |h| == |SectionOpen| + |s.title| + |SectionMid| + |s.content| + |SectionClose|
    ensures h[|SectionOpen|..|SectionOpen| + |s.title|] == s.title
    ensures var c := |SectionOpen| + |s.title| + |SectionMid|; h[c..c + |s.content|] == s.content
  {
    var h := SectionOpen + s.title + SectionMid + s.content + SectionClose;
    assert h[|SectionOpen|..|SectionOpen| + |s.title|] == s.title;
    h
  }

  /** `.map(...).join('')`. */
  function SectionsHtml(secs: seq<Section>): (r: string)
    ensures r == "" <==> secs == []
    ensures |secs| == 1 ==> r == SectionHtml(secs[0])
    decreases |secs|
  {
    if secs == [] then "" else SectionHtml(secs[0]) + SectionsHtml(secs[1..])
  }

  lemma {:induction false} SectionsHtmlAppend(a: seq<Section>, b: seq<Section>)
    ensures SectionsHtml(a + b) == SectionsHtml(a) + SectionsHtml(b)
    decreases |a|
  {
    if a != [] {
      assert (a + b)[0] == a[0];
      assert (a + b)[1..] == a[1..] + b;
      SectionsHtmlAppend(a[1..], b);
      calc {
        SectionsHtml(a + b);
        SectionHtml(a[0]) + SectionsHtml(a[1..] + b);
        SectionHtml(a[0]) + (SectionsHtml(a[1..]) + SectionsHtml(b));
        (SectionHtml(a[0]) + SectionsHtml(a[1..])) + SectionsHtml(b);
      }
    } else {
      assert a + b == b;
    }
  }

  /** The i-th section's block sits right after the blocks of the sections before it. */
  lemma SectionBlockAt(secs: seq<Section>, i: nat)
    requires i < |secs|
    ensures var off, block := |SectionsHtml(secs[..i])|, SectionHtml(secs[i]);
      off + |block| <= |SectionsHtml(secs)| && SectionsHtml(secs)[off..off + |block|] == block
  {
    assert secs == secs[..i] + ([secs[i]] + secs[i + 1..]);
    SectionsHtmlAppend(secs[..i], [secs[i]] + secs[i + 1..]);
    assert ([secs[i]] + secs[i + 1..])[1..] == secs[i + 1..];
  }

  const GastroBadge: string := "<span class=\"preference-badge preference-gastro\">Gastro</span>"
  const HistoryBadge: string := "<span class=\"preference-badge preference-history\">Historie</span>"
  const KidsBadge: string := "<span class=\"preference-badge preference-kids\">Pro děti</span>"
  const EventsBadge: string := "<span class=\"preference-badge preference-events\">Akce</span>"

  /** The interest badges, in template order; a switched-off flag renders nothing. */
  function Badges(prefs: Preferences): (r: seq<string>)
    ensures |r| <= 4
    ensures GastroBadge in r <==> prefs.gastro
    ensures HistoryBadge in r <==> prefs.history
    ensures KidsBadge in r <==> prefs.kids
    ensures EventsBadge in r <==> prefs.includeWeekendEvents
  {
    (if prefs.gastro then [GastroBadge] else [])
    + (if prefs.history then [HistoryBadge] else [])
    + (if prefs.kids then [KidsBadge] else [])
    + (if prefs.includeWeekendEvents then [EventsBadge] else [])
  }

  /** The variable parts of the generated page; the fixed markup and styles are not kept. */
  datatype Itinerary = Itinerary(
    title: string, heading: string, description: string, preparedFor: string,
    generatedOn: string, badges: seq<string>, sectionsHtml: string)

  /** The template's outcome: the page, or the message of the error it throws. */
  datatype Rendering = Rendered(doc: Itinerary) | Thrown(message: string)

  function RenderTrip(trip: Trip, email: string, prefs: Preferences, today: string): Itinerary {
    Itinerary(trip.name + " - TripRadar", trip.name, trip.description, email, today,
              Badges(prefs), SectionsHtml(FilteredSections(trip.sections, prefs)))
  }

  function NotFoundMessage(tripId: string): string {
    "Trip " + tripId + " not found"
  }

  /** What reading `trip.sections.filter` throws when `trip` is an inherited function. */
  const SectionsTypeError: string := "Cannot read properties of undefined (reading 'filter')"

  /** `generateHtmlTemplate` as written: `TRIP_DATA[tripId]` also finds inherited members,
      which have no `sections`. `today` is the formatted current date. */
  function GenerateHtmlTemplateAsWritten(tripId: string, email: string, prefs: Preferences, today: string)
    : (r: Rendering)
    ensures tripId !in ObjectPrototypeNames ==> r == GenerateHtmlTemplate(tripId, email, prefs, today)
    ensures tripId in ObjectPrototypeNames - TripData.Keys ==> r == Thrown(SectionsTypeError)
  {
    if tripId in TripData then Rendered(RenderTrip(TripData[tripId], email, prefs, today))
    else if tripId in ObjectPrototypeNames then Thrown(SectionsTypeError)
    else Thrown(NotFoundMessage(tripId))
  }

  /** `generateHtmlTemplate` with an own-key lookup. */
  function GenerateHtmlTemplate(tripId: string, email: string, prefs: Preferences, today: string)
    : (r: Rendering)
    ensures r.Thrown? <==> tripId !in TripData
    ensures r.Thrown? ==> r.message == NotFoundMessage(tripId)
    ensures r.Rendered? ==>
      && r.doc.heading == TripData[tripId].name
      && r.doc.title == TripData[tripId].name + " - TripRadar"
      && r.doc.preparedFor == email && r.doc.generatedOn == today
      && r.doc.badges == Badges(prefs)
      && r.doc.sectionsHtml == SectionsHtml(FilteredSections(TripData[tripId].sections, prefs))
  {
    if tripId in TripData then Rendered(RenderTrip(TripData[tripId], email, prefs, today))
    else Thrown(NotFoundMessage(tripId))
  }

  /** `b` occurs in `h` starting at index `off`. */
  predicate OccursAt(h: string, b: string, off: int) {
    0 <= off <= |h| - |b| && h[off..off + |b|] == b
  }

  /** Every section the preferences keep has its block in the page. */
  lemma KeptSectionsRendered(trip: Trip, email: string, prefs: Preferences, today: string, s: Section)
    requires s in trip.sections && Kept(s, prefs)
    ensures var h, b := RenderTrip(trip, email, prefs, today).sectionsHtml, SectionHtml(s);
      exists off :: OccursAt(h, b, off)
  {
    var kept := FilteredSections(trip.sections, prefs);
    var i :| 0 <= i < |kept| && kept[i] == s;
    SectionBlockAt(kept, i);
    var off := |SectionsHtml(kept[..i])|;
    assert OccursAt(SectionsHtml(kept), SectionHtml(s), off);
  }

  /** As written, the inherited name "toString" throws a TypeError, not "Trip toString not found". */
  lemma PrototypeTripIdMisreported(email: string, prefs: Preferences, today: string)
    ensures GenerateHtmlTemplateAsWritten("toString", email, prefs, today).Thrown?
    ensures GenerateHtmlTemplateAsWritten("toString", email, prefs, today).message != NotFoundMessage("toString")
    ensures GenerateHtmlTemplate("toString", email, prefs, today) == Thrown(NotFoundMessage("toString"))
  {
    assert "toString" !in TripData;
    assert "toString" in ObjectPrototypeNames;
    assert |NotFoundMessage("toString")| == 23 != |SectionsTypeError|;
  }

  /** With every interest off only a leading introduction is left. */
  lemma OnlyIntroWhenAllOff(secs: seq<Section>)
    requires secs != [] && secs[0].category == Intro
    requires forall i :: 1 <= i < |secs| ==> secs[i].category.Interest?
    ensures FilteredSections(secs, Preferences(false, false, false, false)) == [secs[0]]
  {
    var off := KeptBy(Preferences(false, false, false, false));
    assert secs == [secs[0]] + secs[1..];
    Seqs.FilterCons(off, secs[0], secs[1..]);
    Seqs.FilterKeepsNone(off, secs[1..]);
  }

  /** For the Bořeň trip, every interest off leaves only the introduction. */
  lemma BorenaAllOff()
    ensures FilteredSections(BorenaTrip.sections, Preferences(false, false, false, false))
            == [BorenaTrip.sections[0]]
  {
    var secs := BorenaTrip.sections;
    assert secs[0].category == Intro;
    assert forall i :: 1 <= i < |secs| ==> secs[i].category.Interest?;
    OnlyIntroWhenAllOff(secs);
  }

  /** For the Bořeň trip, every interest on keeps all five sections, in order. */
  lemma BorenaAllOn()
    ensures FilteredSections(BorenaTrip.sections, Preferences(true, true, true, true)) == BorenaTrip.sections
  {
    var on := Preferences(true, true, true, true);
    forall s ensures Kept(s, on) {
    }
    Seqs.FilterKeepsAll(KeptBy(on), BorenaTrip.sections);
  }
}
