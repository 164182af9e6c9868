/** The Radar page: mock points, the preference filter switches and the reached counter. */
module RadarClient {
  import opened Wrappers
  import opened Types
  import Radar
  import Vibration

  function Point(id: string, name: string, description: string, category: Category, lat: real, lng: real)
    : RadarPoint
  {
    RadarPoint(id, "borena-tajemstvi", name, description, category, Coordinates(lat, lng))
  }

  /** MOCK_RADAR_POINTS: eight points of interest around Bořeň. */
  const MockRadarPoints: seq<RadarPoint> := [
    Point("1", "Hradní zřícenina", "Zbytky středověkého hradu ze 14. století", History, 50.5456, 13.7811),
    Point("2", "Vyhlídka Bilana", "Místo spojené s legendou o čarodějnici", History, 50.5462, 13.7825),
    Point("3", "Restaurace U Bořeně", "Tradiční česká kuchyně s výhledem", Food, 50.5430, 13.7790),
    Point("4", "Kavárna Bilana", "Útulná kavárna s domácími zákusky", Food, 50.5425, 13.7805),
    Point("5", "Dětské hřiště U Lanovky", "Moderní hřiště s lanovým centrem", Kids, 50.5415, 13.7780),
    Point("6", "Naučná stezka Start", "Začátek interaktivní stezky pro děti", Kids, 50.5420, 13.7795),
    Point("7", "Víkendový trh", "Farmářské trhy každou sobotu", Event, 50.5410, 13.7770),
    Point("8", "Skalní vyhlídka", "Přírodní vyhlídkový bod", Nature, 50.5470, 13.7830)
  ]

  /** DEFAULT_PREFERENCES. */
  const DefaultPreferences: Preferences := Preferences(true, true, false, true)

  /** `{ ...prev, [key]: !prev[key] }`. */
  function Toggled(p: Preferences, k: PrefKey): (r: Preferences)
    ensures Flag(r, k) == !Flag(p, k)
    ensures forall k' :: k' != k ==> Flag(r, k') == Flag(p, k')
  {
    WithFlag(p, k, !Flag(p, k))
  }

  /** Flipping the same switch twice restores the preferences. */
  lemma ToggleTwice(p: Preferences, k: PrefKey)
    ensures Toggled(Toggled(p, k), k) == p
  {
    FlagsDetermine(Toggled(Toggled(p, k), k), p);
  }

  /** The ids of a list of points; never more of them than points. */
  function Ids(points: seq<RadarPoint>): (r: set<string>)
    ensures |r| <= |points|
    ensures forall i :: 0 <= i < |points| ==> points[i].id in r
    ensures forall id :: id in r ==> exists p :: p in points && p.id == id
    decreases |points|
  {
    if points == [] then {}
    else
      var rest := Ids(points[1..]);
      assert forall id :: id in rest ==> exists p :: p in points && p.id == id by {
        forall id | id in rest ensures exists p :: p in points && p.id == id {
          var p :| p in points[1..] && p.id == id;
          assert p in points;
        }
      }
      {points[0].id} + rest
  }

  /** `RadarClient()`. */
  class RadarClientPage {
    var preferences: Preferences
    var showSettings: bool
    var reachedCount: nat
    /** The `points` prop handed to `<Radar>`. */
    const points: seq<RadarPoint>
    const radar: Radar.RadarView

    /** The counter tracks Radar's reached set, and only mock points can be reached. */
    ghost predicate Valid()
      reads this, radar, radar.vibration, radar.vibration.motor
    {
      && radar.Valid()
      && reachedCount == |radar.reachedPoints|
      && radar.reachedPoints <= Ids(points)
    }

    constructor(vibrationEnabled: bool, canVibrate: bool)
      ensures Valid() && fresh(radar) && fresh(radar.vibration) && fresh(radar.celebration)
      ensures preferences == DefaultPreferences && !showSettings && reachedCount == 0
      ensures points == MockRadarPoints && |points| == 8
    {
      points := MockRadarPoints;
      preferences := DefaultPreferences;
      showSettings := false;
      reachedCount := 0;
      var motor := new Vibration.Motor();
      radar := new Radar.RadarView(motor, vibrationEnabled, canVibrate);
    }

    /** `handlePointReached`. */
    method HandlePointReached(point: RadarPoint)
      modifies this
      ensures reachedCount == old(reachedCount) + 1
      ensures preferences == old(preferences) && showSettings == old(showSettings)
    {
      reachedCount := reachedCount + 1;
    }

    /** `togglePreference`. */
    method TogglePreference(k: PrefKey)
      requires Valid()
      modifies this
      ensures Valid()
      ensures preferences == Toggled(old(preferences), k)
      ensures reachedCount == old(reachedCount) && showSettings == old(showSettings)
    {
      preferences := Toggled(preferences, k);
    }

    /** The header's "Filtr" / "Zavřít" button. */
    method ToggleSettings()
      requires Valid()
      modifies this
      ensures Valid()
      ensures showSettings == !old(showSettings)
      ensures reachedCount == old(reachedCount) && preferences == old(preferences)
    {
      showSettings := !showSettings;
    }

    /** One render of `<Radar>` with the current preferences and a new position, followed by
        its arrival effect and the callback it makes. */
    method OnPositionTick(position: Option<Coordinates>, dist: Radar.Distance)
      requires Valid()
      modifies this, radar, radar.vibration, radar.vibration.motor, radar.celebration
      ensures Valid()
      ensures reachedCount <= |points|
      ensures old(reachedCount) <= reachedCount <= old(reachedCount) + 1
      ensures preferences == old(preferences) && showSettings == old(showSettings)
    {
      var nearest := Radar.Nearest(Radar.Ranked(points, preferences, position, dist));
      NearestIsKnown(points, preferences, position, dist);
      ghost var grown := radar.reachedPoints + (if nearest.Some? then {nearest.value.point.id} else {});
      assert grown <= Ids(points);
      var reached := radar.ArrivalEffect(nearest);
      if reached.Some? {
        HandlePointReached(reached.value);
      }
      assert radar.reachedPoints <= grown;
      SubsetCardinality(radar.reachedPoints, Ids(points));
    }
  }

  /** The nearest point's id is one of the points' ids. */
  lemma NearestIsKnown(points: seq<RadarPoint>, prefs: Preferences, position: Option<Coordinates>,
                       dist: Radar.Distance)
    ensures var n := Radar.Nearest(Radar.Ranked(points, prefs, position, dist));
      n.Some? ==> n.value.point.id in Ids(points)
  {
    Radar.NearestIsClosest(points, prefs, position, dist);
    var n := Radar.Nearest(Radar.Ranked(points, prefs, position, dist));
    if n.Some? {
      var i :| 0 <= i < |points| && points[i] == n.value.point;
    }
  }

  lemma SubsetCardinality(a: set<string>, b: set<string>)
    requires a <= b
    ensures |a| <= |b|
  {
    assert b == a + (b - a);
  }
}
