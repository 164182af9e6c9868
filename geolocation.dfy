/** The `useGeolocation` hook's state record and its reducers, the merged watch options, and
    `formatDistance`. */
module Geolocation {
  import opened Wrappers
  import opened Types
  import opened Strings

  /** GeolocationPositionError, by its three codes. */
  datatype GeoError = PermissionDenied | PositionUnavailable | Timeout

  /** The coordinates of a GeolocationPosition. */
  datatype Fix = Fix(latitude: real, longitude: real)

  datatype GeolocationState = GeolocationState(
    position: Option<Coordinates>, error: Option<GeoError>, isLoading: bool, isSupported: bool)

  /** The `useState` initialiser; `isSupported` is the capability check. */
  function InitialState(isSupported: bool): (s: GeolocationState)
    ensures s.position.None? && s.error.None? && s.isLoading
    ensures s.isSupported == isSupported
  {
    GeolocationState(None, None, true, isSupported)
  }

  /** `updatePosition`. */
  function UpdatePosition(prev: GeolocationState, fix: Fix): (s: GeolocationState)
    ensures s.position == Some(Coordinates(fix.latitude, fix.longitude))
    ensures s.error.None? && !s.isLoading
    ensures s.isSupported == prev.isSupported
  {
    prev.(position := Some(Coordinates(fix.latitude, fix.longitude)), error := None, isLoading := false)
  }

  /** `handleError`: the last known position stays. */
  function HandleError(prev: GeolocationState, e: GeoError): (s: GeolocationState)
    ensures s.error == Some(e) && !s.isLoading
    ensures s.position == prev.position && s.isSupported == prev.isSupported
  {
    prev.(error := Some(e), isLoading := false)
  }

  /** The state part of `refresh`: nothing without geolocation, else loading again. */
  function Refreshed(prev: GeolocationState): (s: GeolocationState)
    ensures !prev.isSupported ==> s == prev
    ensures prev.isSupported ==> s.isLoading && s.position == prev.position && s.error == prev.error
    ensures s.isSupported == prev.isSupported
  {
    if !prev.isSupported then prev else prev.(isLoading := true)
  }

  /** What can reach the hook after mounting: a fix, an error, a manual refresh. */
  datatype GeoEvent = FixEvent(fix: Fix) | ErrorEvent(e: GeoError) | RefreshEvent

  function Step(s: GeolocationState, ev: GeoEvent): (r: GeolocationState)
    ensures r.isSupported == s.isSupported
    ensures ev.FixEvent? ==>
      r.position == Some(Coordinates(ev.fix.latitude, ev.fix.longitude)) && r.error.None? && !r.isLoading
    ensures !ev.FixEvent? ==> r.position == s.position
    ensures ev.ErrorEvent? ==> r.error == Some(ev.e) && !r.isLoading
  {
    match ev
    case FixEvent(f) => UpdatePosition(s, f)
    case ErrorEvent(e) => HandleError(s, e)
    case RefreshEvent => Refreshed(s)
  }

  /** The state after a run of events, in order. */
  function Run(s: GeolocationState, evs: seq<GeoEvent>): (r: GeolocationState)
    ensures evs != [] && evs[|evs| - 1].FixEvent? ==>
      var f := evs[|evs| - 1].fix;
      r.position == Some(Coordinates(f.latitude, f.longitude)) && r.error.None? && !r.isLoading
    ensures evs != [] && evs[|evs| - 1].ErrorEvent? ==> r.error == Some(evs[|evs| - 1].e) && !r.isLoading
    decreases |evs|
  {
    if evs == [] then s else Run(Step(s, evs[0]), evs[1..])
  }

  /** The most recent fix in a run of events. */
  function LastFix(evs: seq<GeoEvent>): Option<Fix>
    decreases |evs|
  {
    if evs == [] then None
    else if evs[|evs| - 1].FixEvent? then Some(evs[|evs| - 1].fix)
    else LastFix(evs[..|evs| - 1])
  }

  lemma RunSnoc(s: GeolocationState, evs: seq<GeoEvent>, ev: GeoEvent)
    ensures Run(s, evs + [ev]) == Step(Run(s, evs), ev)
    decreases |evs|
  {
    if evs != [] {
      assert (evs + [ev])[1..] == evs[1..] + [ev];
      RunSnoc(Step(s, evs[0]), evs[1..], ev);
    }
  }

  /** No event changes `isSupported`. */
  lemma {:induction false} RunKeepsSupport(s: GeolocationState, evs: seq<GeoEvent>)
    ensures Run(s, evs).isSupported == s.isSupported
    decreases |evs|
  {
    if evs != [] {
      RunKeepsSupport(Step(s, evs[0]), evs[1..]);
    }
  }

  /** The position shown is the most recent fix, or the one before the run if there was none;
      errors and refreshes never move it. */
  lemma {:induction false} PositionIsLastFix(s: GeolocationState, evs: seq<GeoEvent>)
    ensures Run(s, evs).position ==
      (match LastFix(evs)
       case Some(f) => Some(Coordinates(f.latitude, f.longitude))
       case None => s.position)
    decreases |evs|
  {
    if evs != [] {
      var init, last := evs[..|evs| - 1], evs[|evs| - 1];
      assert evs == init + [last];
      RunSnoc(s, init, last);
      PositionIsLastFix(s, init);
    }
  }

  /** A fix after an error clears the error and ends loading. */
  lemma FixRecovers(s: GeolocationState, e: GeoError, f: Fix)
    ensures Run(s, [ErrorEvent(e), FixEvent(f)]).error.None?
    ensures !Run(s, [ErrorEvent(e), FixEvent(f)]).isLoading
    ensures Run(s, [ErrorEvent(e), FixEvent(f)]).position == Some(Coordinates(f.latitude, f.longitude))
  {
    var evs := [ErrorEvent(e), FixEvent(f)];
    var mid := HandleError(s, e);
    assert evs[1..] == [FixEvent(f)] && evs[1..][1..] == [];
    assert Run(s, evs) == Run(mid, [FixEvent(f)]);
    assert Run(mid, [FixEvent(f)]) == Run(UpdatePosition(mid, f), []);
  }

  /** An option key is either missing, present with `undefined`, or present with a value;
      object spread copies it in the last two cases. */
  datatype Property<T> = Absent | Undefined | Present(value: T)

  datatype GeoOptions = GeoOptions(
    enableHighAccuracy: Property<bool>, timeout: Property<nat>, maximumAge: Property<nat>)

  /** `defaultOptions`. */
  const DefaultOptions: GeoOptions := GeoOptions(Present(true), Present(10000), Present(0))

  /** The empty options object the hook defaults to. */
  const NoOptions: GeoOptions := GeoOptions(Absent, Absent, Absent)

  function Spread<T>(base: Property<T>, over: Property<T>): (r: Property<T>)
    ensures over.Absent? ==> r == base
    ensures !over.Absent? ==> r == over
  {
    if over.Absent? then base else over
  }

  /** `{ ...defaultOptions, ...options }`. */
  function MergeOptions(base: GeoOptions, over: GeoOptions): (r: GeoOptions)
    ensures r.enableHighAccuracy == Spread(base.enableHighAccuracy, over.enableHighAccuracy)
    ensures r.timeout == Spread(base.timeout, over.timeout)
    ensures r.maximumAge == Spread(base.maximumAge, over.maximumAge)
  {
    GeoOptions(
      Spread(base.enableHighAccuracy, over.enableHighAccuracy),
      Spread(base.timeout, over.timeout),
      Spread(base.maximumAge, over.maximumAge))
  }

  /** Without caller options the defaults apply; a key the caller writes wins, even when it
      writes `undefined`; a key the caller leaves out keeps its default; merging the same caller
      options again changes nothing. */
  lemma MergeFacts(over: GeoOptions)
    ensures MergeOptions(DefaultOptions, NoOptions) == DefaultOptions
    ensures var m := MergeOptions(DefaultOptions, over);
      && m.enableHighAccuracy == (if over.enableHighAccuracy.Absent? then Present(true) else over.enableHighAccuracy)
      && m.timeout == (if over.timeout.Absent? then Present(10000) else over.timeout)
      && m.maximumAge == (if over.maximumAge.Absent? then Present(0) else over.maximumAge)
    ensures MergeOptions(MergeOptions(DefaultOptions, over), over) == MergeOptions(DefaultOptions, over)
  {
  }

  /** `useGeolocation(options)`: the state, the registered watch and the platform calls made. */
  class GeolocationHook {
    var state: GeolocationState
    /** The id returned by `watchPosition`, while registered. */
    var watch: Option<nat>
    var nextWatchId: nat
    /** Ids passed to `clearWatch`, in order. */
    var clearedWatches: seq<nat>
    /** Options passed to each `getCurrentPosition` call, in order. */
    var requests: seq<GeoOptions>
    /** Options passed to each `watchPosition` call, in order. */
    var watchRequests: seq<GeoOptions>
    const options: GeoOptions

    /** A watch exists only with geolocation, and every id handed out is below `nextWatchId`. */
    ghost predicate Valid()
      reads this
    {
      && (watch.Some? ==> state.isSupported && watch.value < nextWatchId)
      && (forall i :: 0 <= i < |clearedWatches| ==> clearedWatches[i] < nextWatchId)
    }

    constructor(isSupported: bool, callerOptions: GeoOptions := NoOptions)
      ensures Valid()
      ensures state == InitialState(isSupported)
      ensures options == MergeOptions(DefaultOptions, callerOptions)
      ensures watch.None? && clearedWatches == [] && requests == [] && watchRequests == []
    {
      state := InitialState(isSupported);
      options := MergeOptions(DefaultOptions, callerOptions);
      watch := None;
      nextWatchId := 0;
      clearedWatches := [];
      requests := [];
      watchRequests := [];
    }

    /** The effect body; React runs the previous cleanup first, so no watch is registered. */
    method MountEffect()
      requires Valid() && watch.None?
      modifies this
      ensures Valid()
      ensures !old(state.isSupported) ==>
        && state == old(state).(isLoading := false)
        && watch.None? && requests == old(requests) && nextWatchId == old(nextWatchId)
        && watchRequests == old(watchRequests)
      ensures old(state.isSupported) ==>
        && state == old(state)
        && requests == old(requests) + [options]
        && watchRequests == old(watchRequests) + [options]
        && watch == Some(old(nextWatchId)) && nextWatchId == old(nextWatchId) + 1
      ensures clearedWatches == old(clearedWatches)
    {
      if !state.isSupported {
        state := state.(isLoading := false);
        return;
      }
      requests := requests + [options];
      watchRequests := watchRequests + [options];
      watch := Some(nextWatchId);
      nextWatchId := nextWatchId + 1;
    }

    /** The effect cleanup: clears exactly the watch the effect registered. */
    method Teardown()
      requires Valid()
      modifies this
      ensures Valid()
      ensures watch.None?
      ensures clearedWatches == old(clearedWatches) + (if old(watch).Some? then [old(watch).value] else [])
      ensures state == old(state) && requests == old(requests) && nextWatchId == old(nextWatchId)
      ensures watchRequests == old(watchRequests)
    {
      if watch.Some? {
        clearedWatches := clearedWatches + [watch.value];
        watch := None;
      }
    }

    /** `refresh`: nothing without geolocation, else loading and one more position request. */
    method Refresh()
      requires Valid()
      modifies this
      ensures Valid()
      ensures state == Refreshed(old(state))
      ensures requests == old(requests) + (if old(state.isSupported) then [options] else [])
      ensures watch == old(watch) && clearedWatches == old(clearedWatches) && nextWatchId == old(nextWatchId)
      ensures watchRequests == old(watchRequests)
    {
      if !state.isSupported {
        return;
      }
      state := state.(isLoading := true);
      requests := requests + [options];
    }

    /** The success callback. */
    method OnFix(fix: Fix)
      requires Valid()
      modifies this
      ensures Valid()
      ensures state == UpdatePosition(old(state), fix)
      ensures watch == old(watch) && requests == old(requests) && clearedWatches == old(clearedWatches)
      ensures watchRequests == old(watchRequests)
    {
      state := UpdatePosition(state, fix);
    }

    /** The error callback. */
    method OnError(e: GeoError)
      requires Valid()
      modifies this
      ensures Valid()
      ensures state == HandleError(old(state), e)
      ensures watch == old(watch) && requests == old(requests) && clearedWatches == old(clearedWatches)
      ensures watchRequests == old(watchRequests)
    {
      state := HandleError(state, e);
    }
  }

  /** `Math.round`: the nearest integer, halves rounded up. */
  function MathRound(x: real): (n: int)
    ensures x - 0.5 < n as real <= x + 0.5
  {
    (x + 0.5).Floor
  }

  predicate EndsWith(s: string, suffix: string) {
    |suffix| <= |s| && s[|s| - |suffix|..] == suffix
  }

  /** `formatDistance`, with `toFixed(1)` taken as rounding to whole tenths of a kilometre. */
  function FormatDistance(meters: real): (r: string)
    ensures EndsWith(r, " m") <==> meters < 1000.0
    ensures EndsWith(r, " km") <==> meters >= 1000.0
    ensures meters >= 1000.0 ==> r == Kilometres(MathRound(meters / 100.0) as nat)
    ensures 0.0 <= meters < 1000.0 ==>
      var n := MathRound(meters);
      0 <= n <= 1000 && ParseNat(r[..|r| - 2]) == Some(n as nat)
  {
    if meters < 1000.0 then
      var digits := IntToString(MathRound(meters));
      var s := digits + " m";
      assert s[..|s| - 2] == digits;
      assert s[|s| - 2..] == " m";
      assert s[|s| - 3..][1] == ' ';
      assert meters >= 0.0 ==> ParseNat(digits) == Some(MathRound(meters) as nat) by {
        if meters >= 0.0 {
          ParseNatToString(MathRound(meters) as nat);
        }
      }
      s
    else
      var tenths := MathRound(meters / 100.0) as nat;
      Kilometres(tenths)
  }

  /** `"<whole>.<tenth> km"` for a count of tenths of a kilometre. */
  function Kilometres(tenths: nat): (r: string)
    ensures EndsWith(r, " km") && !EndsWith(r, " m")
    ensures exists i :: 0 <= i < |r| && r[i] == '.' &&
                        ParseNat(r[..i]) == Some(tenths / 10) && r[i + 1..] == [DigitChar(tenths % 10)] + " km"
  {
    var whole := NatToString(tenths / 10);
    var r := whole + "." + [DigitChar(tenths % 10)] + " km";
    ParseNatToString(tenths / 10);
    assert r[..|whole|] == whole;
    assert r[|whole|] == '.';
    assert r[|whole| + 1..] == [DigitChar(tenths % 10)] + " km";
    assert r[|r| - 3..] == " km";
    assert r[|r| - 2..][0] == 'k';
    r
  }

  lemma NatToStringSmall()
    ensures NatToString(999) == "999"
    ensures NatToString(1000) == "1000"
    ensures NatToString(1) == "1"
  {
    assert NatToString(1) == "1";
    assert NatToString(10) == "10";
    assert NatToString(100) == "100";
    assert NatToString(9) == "9";
    assert NatToString(99) == "99";
  }

  /** From a kilometre on, the shown number of tenths is within half a tenth of the distance. */
  lemma KilometresNearDistance(meters: real)
    requires meters >= 1000.0
    ensures exists tenths: nat :: meters - 50.0 < tenths as real * 100.0 <= meters + 50.0
                                  && FormatDistance(meters) == Kilometres(tenths)
  {
    var t := MathRound(meters / 100.0);
    assert meters / 100.0 - 0.5 < t as real <= meters / 100.0 + 0.5;
    assert FormatDistance(meters) == Kilometres(t as nat);
  }

  /** Just under a kilometre the unit is metres, and the rounding may still reach 1000. */
  lemma FormatDistanceMetres()
    ensures FormatDistance(999.0) == "999 m"
    ensures FormatDistance(999.6) == "1000 m"
  {
    NatToStringSmall();
    assert MathRound(999.0) == 999;
    assert MathRound(999.6) == 1000;
  }

  /** From a kilometre on, one decimal place. */
  lemma FormatDistanceKilometres()
    ensures FormatDistance(1000.0) == "1.0 km"
    ensures FormatDistance(1500.0) == "1.5 km"
  {
    NatToStringSmall();
    assert MathRound(1000.0 / 100.0) == 10;
    assert MathRound(1500.0 / 100.0) == 15;
  }
}
