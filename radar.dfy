/** The Radar view: category filter, distance ranking, radar projection, legend and the
    arrival effect that records reached points. */
module Radar {
  import opened Wrappers
  import opened Types
  import Seqs
  import Vibration
  import Celebration

  /** The `switch` of `filteredPoints`: nature and unknown categories are always shown. */
  predicate Shown(c: Category, prefs: Preferences)
    ensures c.Nature? || c.Uncategorized? ==> Shown(c, prefs)
    ensures prefs == Preferences(true, true, true, true) ==> Shown(c, prefs)
    ensures prefs == Preferences(false, false, false, false) ==> (Shown(c, prefs) <==> c.Nature? || c.Uncategorized?)
  {
    match c
    case Food => prefs.gastro
    case History => prefs.history
    case Kids => prefs.kids
    case Event => prefs.includeWeekendEvents
    case Nature => true
    case Uncategorized(_) => true
  }

  function ShownBy(prefs: Preferences): RadarPoint -> bool {
    (p: RadarPoint) => Shown(p.category, prefs)
  }

  /** `points.filter(...)`: the shown points, as an order-preserving subsequence. */
  function FilteredPoints(points: seq<RadarPoint>, prefs: Preferences): (r: seq<RadarPoint>)
    ensures Seqs.IsSubsequence(r, points)
    ensures forall p :: p in r <==> p in points && Shown(p.category, prefs)
  {
    Seqs.Filter(ShownBy(prefs), points)
  }

  /** A point decorated with its distance from the user, in metres. */
  datatype RankedPoint = RankedPoint(point: RadarPoint, distance: real)

  type Distance = (Coordinates, Coordinates) -> real

  /** `.map(point => ({ ...point, distance: calculateDistance(position, point.coords) }))`. */
  function WithDistance(points: seq<RadarPoint>, user: Coordinates, dist: Distance): (r: seq<RankedPoint>)
    ensures |r| == |points|
    ensures forall i :: 0 <= i < |r| ==> r[i].point == points[i] && r[i].distance == dist(user, points[i].coords)
    decreases |points|
  {
    if points == [] then []
    else [RankedPoint(points[0], dist(user, points[0].coords))] + WithDistance(points[1..], user, dist)
  }

  ghost predicate SortedByDistance(s: seq<RankedPoint>) {
    forall i, j :: 0 <= i < j < |s| ==> s[i].distance <= s[j].distance
  }

  /** Places `x` before the first element that is not strictly nearer. */
  function Insert(x: RankedPoint, s: seq<RankedPoint>): (r: seq<RankedPoint>)
    ensures multiset(r) == multiset(s) + multiset{x}
    ensures |r| == |s| + 1
    ensures forall y :: y in r ==> y in s || y == x
    decreases |s|
  {
    if s == [] || x.distance <= s[0].distance then [x] + s
    else
      assert s == [s[0]] + s[1..];
      [s[0]] + Insert(x, s[1..])
  }

  lemma {:induction false} InsertSorted(x: RankedPoint, s: seq<RankedPoint>)
    requires SortedByDistance(s)
    ensures SortedByDistance(Insert(x, s))
    decreases |s|
  {
    if s != [] && x.distance > s[0].distance {
      var y, t := s[0], s[1..];
      assert s == [y] + t;
      var rest := Insert(x, t);
      InsertSorted(x, t);
      forall j | 0 <= j < |rest| ensures y.distance <= rest[j].distance {
        assert rest[j] in rest;
      }
      assert Insert(x, s) == [y] + rest;
    }
  }

  /** `.sort((a, b) => a.distance - b.distance)`, which the language specifies as stable. */
  function SortByDistance(s: seq<RankedPoint>): (r: seq<RankedPoint>)
    ensures multiset(r) == multiset(s)
    ensures |r| == |s|
    ensures SortedByDistance(r)
    decreases |s|
  {
    if s == [] then []
    else
      assert s == [s[0]] + s[1..];
      InsertSorted(s[0], SortByDistance(s[1..]));
      Insert(s[0], SortByDistance(s[1..]))
  }

  function AtDistance(k: real): RankedPoint -> bool {
    (x: RankedPoint) => x.distance == k
  }

  /** Inserting only moves `x` past strictly nearer elements, so points at any one distance
      keep their relative order. */
  lemma {:induction false} InsertKeepsTies(x: RankedPoint, s: seq<RankedPoint>, k: real)
    ensures Seqs.Filter(AtDistance(k), Insert(x, s)) == Seqs.Filter(AtDistance(k), [x] + s)
    decreases |s|
  {
    if s != [] && x.distance > s[0].distance {
      var y, t := s[0], s[1..];
      assert s == [y] + t;
      InsertKeepsTies(x, t, k);
      Seqs.FilterCons(AtDistance(k), y, Insert(x, t));
      Seqs.FilterCons(AtDistance(k), x, t);
      Seqs.FilterCons(AtDistance(k), x, s);
      Seqs.FilterCons(AtDistance(k), y, t);
    }
  }

  /** The sort is stable: ties stay in input order. */
  lemma {:induction false} SortIsStable(s: seq<RankedPoint>, k: real)
    ensures Seqs.Filter(AtDistance(k), SortByDistance(s)) == Seqs.Filter(AtDistance(k), s)
    decreases |s|
  {
    if s != [] {
      var x, t := s[0], s[1..];
      assert s == [x] + t;
      InsertKeepsTies(x, SortByDistance(t), k);
      Seqs.FilterCons(AtDistance(k), x, SortByDistance(t));
      SortIsStable(t, k);
      Seqs.FilterCons(AtDistance(k), x, t);
    }
  }

  /** `pointsWithDistance`: empty without a position, else the shown points nearest first. */
  function Ranked(points: seq<RadarPoint>, prefs: Preferences, position: Option<Coordinates>, dist: Distance)
    : (r: seq<RankedPoint>)
    ensures position.None? ==> r == []
    ensures SortedByDistance(r)
    ensures position.Some? ==>
      multiset(r) == multiset(WithDistance(FilteredPoints(points, prefs), position.value, dist))
  {
    if position.None? then []
    else SortByDistance(WithDistance(FilteredPoints(points, prefs), position.value, dist))
  }

  /** A ranked entry is exactly a shown point paired with its distance from the user. */
  lemma RankedMembers(points: seq<RadarPoint>, prefs: Preferences, user: Coordinates, dist: Distance,
                      p: RadarPoint, d: real)
    ensures RankedPoint(p, d) in Ranked(points, prefs, Some(user), dist) <==>
      p in points && Shown(p.category, prefs) && d == dist(user, p.coords)
  {
    var filtered := FilteredPoints(points, prefs);
    var decorated := WithDistance(filtered, user, dist);
    var r := Ranked(points, prefs, Some(user), dist);
    var q := RankedPoint(p, d);
    assert q in r <==> q in multiset(decorated);
    if q in decorated {
      var i :| 0 <= i < |decorated| && decorated[i] == q;
      assert filtered[i] == p;
    }
    if p in points && Shown(p.category, prefs) && d == dist(user, p.coords) {
      var i :| 0 <= i < |filtered| && filtered[i] == p;
      assert decorated[i] == q;
    }
  }

  /** `pointsWithDistance[0] || null`. */
  function Nearest(ranked: seq<RankedPoint>): (n: Option<RankedPoint>)
    ensures n.None? <==> ranked == []
    ensures n.Some? ==> n.value == ranked[0]
  {
    if ranked == [] then None else Some(ranked[0])
  }

  /** The nearest point is a shown point and no ranked point is nearer; without a position
      there is none. */
  lemma NearestIsClosest(points: seq<RadarPoint>, prefs: Preferences, position: Option<Coordinates>,
                         dist: Distance)
    ensures position.None? ==> Nearest(Ranked(points, prefs, position, dist)).None?
    ensures var r := Ranked(points, prefs, position, dist);
      Nearest(r).Some? ==>
        && position.Some?
        && Nearest(r).value in r
        && (forall q :: q in r ==> Nearest(r).value.distance <= q.distance)
        && Nearest(r).value.point in points
        && Shown(Nearest(r).value.point.category, prefs)
  {
    var r := Ranked(points, prefs, position, dist);
    if r != [] {
      var n := r[0];
      RankedMembers(points, prefs, position.value, dist, n.point, n.distance);
      forall q | q in r ensures n.distance <= q.distance {
        var j :| 0 <= j < |r| && r[j] == q;
        if j > 0 {
          assert r[0].distance <= r[j].distance;
        }
      }
    }
  }

  /** The radar's edge stands for 500 m. */
  const MaxRadarDistance: real := 500.0

  /** `Math.min(distance / maxDistance, 1)`. */
  function NormalizedDistance(d: real): (n: real)
    ensures n <= 1.0
    ensures d >= 0.0 ==> 0.0 <= n
    ensures d >= MaxRadarDistance ==> n == 1.0
    ensures d <= MaxRadarDistance ==> n * MaxRadarDistance == d
  {
    if d / MaxRadarDistance <= 1.0 then d / MaxRadarDistance else 1.0
  }

  /** A position on the radar in percent of its width and height. */
  datatype ScreenPoint = ScreenPoint(x: real, y: real)

  /** The last step of `getPointPosition`, given the sine and cosine of the bearing. */
  function RadarPosition(d: real, sinBearing: real, cosBearing: real): (p: ScreenPoint)
    ensures d >= 0.0 && -1.0 <= sinBearing <= 1.0 && -1.0 <= cosBearing <= 1.0 ==>
      5.0 <= p.x <= 95.0 && 5.0 <= p.y <= 95.0
    ensures d == 0.0 ==> p == ScreenPoint(50.0, 50.0)
  {
    var n := NormalizedDistance(d);
    var dx := n * 45.0 * sinBearing;
    var dy := n * 45.0 * cosBearing;
    assert 0.0 <= n <= 1.0 && -1.0 <= sinBearing <= 1.0 ==> -45.0 <= dx <= 45.0 by {
      if 0.0 <= n <= 1.0 && -1.0 <= sinBearing <= 1.0 {
        ScaledWithin(n, sinBearing);
      }
    }
    assert 0.0 <= n <= 1.0 && -1.0 <= cosBearing <= 1.0 ==> -45.0 <= dy <= 45.0 by {
      if 0.0 <= n <= 1.0 && -1.0 <= cosBearing <= 1.0 {
        ScaledWithin(n, cosBearing);
      }
    }
    ScreenPoint(50.0 + dx, 50.0 - dy)
  }

  lemma ScaledWithin(n: real, s: real)
    requires 0.0 <= n <= 1.0 && -1.0 <= s <= 1.0
    ensures -45.0 <= n * 45.0 * s <= 45.0
  {
    assert -1.0 <= n * s <= 1.0 by {
      if s >= 0.0 {
        assert n * s <= 1.0 * s;
      } else {
        assert n * s >= 1.0 * s;
      }
    }
    assert n * 45.0 * s == (n * s) * 45.0;
  }

  /** One entry of CATEGORY_LABELS. */
  datatype LegendEntry = LegendEntry(key: string, text: string)

  /** `Object.entries(CATEGORY_LABELS)`, in insertion order. */
  const CategoryLabels: seq<LegendEntry> := [
    LegendEntry("food", "Gastro"),
    LegendEntry("history", "Historie"),
    LegendEntry("event", "Akce"),
    LegendEntry("kids", "Pro děti"),
    LegendEntry("nature", "Příroda")
  ]

  /** The key a category has in the colour and label tables. */
  function CategoryKey(c: Category): string {
    match c
    case Food => "food"
    case History => "history"
    case Event => "event"
    case Kids => "kids"
    case Nature => "nature"
    case Uncategorized(name) => name
  }

  /** The legend's own if-chain over keys. */
  predicate LegendShows(key: string, prefs: Preferences)
    ensures key !in {"food", "history", "kids", "event"} ==> LegendShows(key, prefs)
    ensures prefs == Preferences(true, true, true, true) ==> LegendShows(key, prefs)
  {
    if key == "food" then prefs.gastro
    else if key == "history" then prefs.history
    else if key == "kids" then prefs.kids
    else if key == "event" then prefs.includeWeekendEvents
    else true
  }

  function LegendShownBy(prefs: Preferences): LegendEntry -> bool {
    (e: LegendEntry) => LegendShows(e.key, prefs)
  }

  function Legend(prefs: Preferences): (r: seq<LegendEntry>)
    ensures Seqs.IsSubsequence(r, CategoryLabels)
    ensures forall e :: e in r <==> e in CategoryLabels && LegendShows(e.key, prefs)
  {
    Seqs.Filter(LegendShownBy(prefs), CategoryLabels)
  }

  /** The legend entry of a category; uncategorized points have none. */
  function LegendEntryOf(c: Category): (r: Option<LegendEntry>)
    ensures r.Some? <==> !c.Uncategorized?
    ensures r.Some? ==> r.value in CategoryLabels && r.value.key == CategoryKey(c)
  {
    match c
    case Food => Some(CategoryLabels[0])
    case History => Some(CategoryLabels[1])
    case Event => Some(CategoryLabels[2])
    case Kids => Some(CategoryLabels[3])
    case Nature => Some(CategoryLabels[4])
    case Uncategorized(_) => None
  }

  /** Category names and categories correspond one to one, and the filter's switch on a point's
      category string is the legend's if-chain on that string: a point whose category string is
      "food" is shown only with the gastro flag. */
  lemma CategoryNames(name: string, c: Category, prefs: Preferences)
    requires WellFormedCategory(c)
    ensures CategoryKey(CategoryOf(name)) == name
    ensures CategoryOf(CategoryKey(c)) == c
    ensures Shown(CategoryOf(name), prefs) == LegendShows(name, prefs)
  {
  }

  /** The legend lists a category iff its preference switch shows it. */
  lemma LegendListsShown(prefs: Preferences, c: Category)
    requires !c.Uncategorized?
    ensures LegendEntryOf(c).value in Legend(prefs) <==> Shown(c, prefs)
  {
    assert LegendShows(LegendEntryOf(c).value.key, prefs) == Shown(c, prefs) by {
      match c
      case Food =>
      case History =>
      case Event =>
      case Kids =>
      case Nature =>
    }
  }

  /** The legend lists a point's category iff the point filter lets that point through. */
  lemma LegendAgreesWithFilter(prefs: Preferences, points: seq<RadarPoint>, p: RadarPoint)
    requires p in points && !p.category.Uncategorized?
    ensures LegendEntryOf(p.category).value in Legend(prefs) <==> p in FilteredPoints(points, prefs)
  {
    LegendListsShown(prefs, p.category);
  }

  /** What the device's motor goes through on an arrival at distance `d`: the tier's call, then
      `celebrate('confetti')` vibrating when `navigator.vibrate` exists, then `stopVibration`. */
  function Arrival(h: Vibration.Haptics, d: real, canVibrate: bool): (r: Vibration.Haptics)
    ensures Vibration.Inv(h) ==> Vibration.Inv(r) && r.live == {}
    ensures r.current == Vibration.None && r.interval == None
    ensures r.enabled == h.enabled && r.supported == h.supported
  {
    var h1 := Vibration.ByDistance(h, d);
    Vibration.Stopped(h1.(actuator := h1.actuator + ConfettiPulse(canVibrate)))
  }

  function ConfettiPulse(canVibrate: bool): seq<Vibration.ActuatorCall> {
    if canVibrate then [Vibration.Pulse(Celebration.CelebrationVibration(Celebration.Confetti))] else []
  }

  /** On arrival the confetti pulse is followed at once by `vibrate(0)` whenever the haptics hook
      detected a motor, so the celebration's pattern is cut short; only when it did not does the
      pulse run out. */
  lemma ConfettiCutShort(h: Vibration.Haptics, d: real, canVibrate: bool)
    requires Vibration.Inv(h) && d < 10.0
    ensures var r := Arrival(h, d, canVibrate);
      && (h.enabled && h.supported ==>
            r.actuator == h.actuator + [Vibration.Silence, Vibration.Pulse(Vibration.PatternOf(Vibration.Arrived))]
                                     + ConfettiPulse(canVibrate) + [Vibration.Silence])
      && (!h.enabled && h.supported ==> r.actuator == h.actuator + ConfettiPulse(canVibrate) + [Vibration.Silence])
      && (!h.supported ==> r.actuator == h.actuator + ConfettiPulse(canVibrate))
  {
    if h.enabled && h.supported {
      Vibration.ArrivedRefires(h, d);
    }
  }

  /** The view's state: the points reached in this session and the two hooks it uses, which
      drive the same motor. */
  class RadarView {
    const vibration: Vibration.Vibrator
    const celebration: Celebration.CelebrationHook
    var reachedPoints: set<string>

    ghost predicate Valid()
      reads this, vibration, vibration.motor
    {
      vibration.Valid() && celebration.motor == vibration.motor
    }

    constructor(motor: Vibration.Motor, vibrationEnabled: bool, canVibrate: bool)
      ensures Valid() && fresh(vibration) && fresh(celebration)
      ensures vibration.motor == motor && celebration.canVibrate == canVibrate
      ensures reachedPoints == {}
      ensures vibration.Snapshot() == Vibration.Initial(vibrationEnabled).(actuator := motor.calls)
      ensures celebration.celebration == Celebration.CelebrationState(Celebration.Confetti, false)
    {
      vibration := new Vibration.Vibrator(motor, vibrationEnabled);
      celebration := new Celebration.CelebrationHook(canVibrate, motor);
      reachedPoints := {};
    }

    /** The effect body on one render: haptics for the nearest unreached point, and below 10 m
        its one arrival. Returns the point passed to `onPointReached`, if any. */
    method ArrivalEffect(nearest: Option<RankedPoint>) returns (reached: Option<RadarPoint>)
      requires Valid()
      modifies this, vibration, vibration.motor, celebration
      ensures Valid()
      ensures old(reachedPoints) <= reachedPoints
      ensures nearest.None? || nearest.value.point.id in old(reachedPoints) ==>
        && reached.None?
        && reachedPoints == old(reachedPoints)
        && vibration.Snapshot() == old(vibration.Snapshot())
        && celebration.celebration == old(celebration.celebration)
      ensures nearest.Some? && nearest.value.point.id !in old(reachedPoints) ==>
        var d := nearest.value.distance;
        && reached == (if d < 10.0 then Some(nearest.value.point) else None)
        && reachedPoints == old(reachedPoints) + (if d < 10.0 then {nearest.value.point.id} else {})
        && vibration.Snapshot() == (if d < 10.0
             then Arrival(old(vibration.Snapshot()), d, celebration.canVibrate)
             else Vibration.ByDistance(old(vibration.Snapshot()), d))
        && celebration.celebration == (if d < 10.0
             then Celebration.CelebrationState(Celebration.Confetti, true)
             else old(celebration.celebration))
      ensures reached.Some? ==>
        reached.value.id !in old(reachedPoints) && reachedPoints == old(reachedPoints) + {reached.value.id}
    {
      reached := None;
      if nearest.Some? && nearest.value.point.id !in reachedPoints {
        var n := nearest.value;
        vibration.VibrateByDistance(n.distance);
        if n.distance < 10.0 {
          ghost var h1 := vibration.Snapshot();
          reachedPoints := reachedPoints + {n.point.id};
          celebration.Celebrate(Celebration.Confetti);
          assert vibration.Snapshot() == h1.(actuator := h1.actuator + ConfettiPulse(celebration.canVibrate));
          reached := Some(n.point);
          vibration.Stop();
        }
      }
    }

    /** The effect's cleanup, run before the next run and on unmount. */
    method EffectCleanup()
      requires Valid()
      modifies vibration, vibration.motor
      ensures Valid() && vibration.Snapshot() == Vibration.Stopped(old(vibration.Snapshot()))
    {
      vibration.Stop();
    }
  }

  /** The haptic tier says `arrived` from 10 m inwards while a point counts as reached only
      below 10 m: exactly at 10 m the arrival pulse plays and nothing is recorded. */
  lemma TenMetresBoundary(d: real)
    ensures (Vibration.Classify(d) == Vibration.Arrived && !(d < 10.0)) <==> d == 10.0
    ensures d < 10.0 ==> Vibration.Classify(d) == Vibration.Arrived
  {
  }
}
