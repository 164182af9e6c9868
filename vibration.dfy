/** The `useVibration` hook: a proximity tier, at most one repeating interval, and an actuator. */
module Vibration {
  import W = Wrappers

  /** VibrationPattern. `Far` has table entries but no distance selects it. */
  datatype VibrationPattern = None | Far | Close | VeryClose | Arrived

  /** VIBRATION_PATTERNS: vibrate/pause durations in milliseconds. */
  function PatternOf(p: VibrationPattern): (pattern: seq<nat>)
    ensures pattern == [] <==> p == None
    ensures |pattern| % 2 == 1 <==> p != None
    ensures forall i :: 0 <= i < |pattern| ==> pattern[i] > 0
  {
    match p
    case None => []
    case Far => [100]
    case Close => [100, 100, 100]
    case VeryClose => [100, 50, 100, 50, 100]
    case Arrived => [200, 100, 400]
  }

  /** REPEAT_INTERVALS in milliseconds; 0 means the pattern is not repeated. */
  function RepeatInterval(p: VibrationPattern): (ms: nat)
    ensures ms > 0 <==> p in {Far, Close, VeryClose}
  {
    match p
    case None => 0
    case Far => 2000
    case Close => 1000
    case VeryClose => 500
    case Arrived => 0
  }

  /** The if-chain of `vibrateByDistance`: each bound belongs to the nearer tier. */
  function Classify(distanceMeters: real): (p: VibrationPattern)
    ensures p != Far
    ensures p == Arrived <==> distanceMeters <= 10.0
    ensures p == VeryClose <==> 10.0 < distanceMeters <= 50.0
    ensures p == Close <==> 50.0 < distanceMeters <= 100.0
    ensures p == None <==> distanceMeters > 100.0
  {
    if distanceMeters <= 10.0 then Arrived
    else if distanceMeters <= 50.0 then VeryClose
    else if distanceMeters <= 100.0 then Close
    else None
  }

  /** How insistent a tier is; a nearer target never gets a weaker tier. */
  function Intensity(p: VibrationPattern): nat {
    match p
    case None => 0
    case Far => 1
    case Close => 2
    case VeryClose => 3
    case Arrived => 4
  }

  /** Of two repeating tiers, the more insistent one repeats more often. */
  lemma NearerRepeatsFaster(p: VibrationPattern, q: VibrationPattern)
    requires RepeatInterval(p) > 0 && RepeatInterval(q) > 0 && Intensity(p) < Intensity(q)
    ensures RepeatInterval(q) < RepeatInterval(p)
  {
  }

  lemma ClassifyMonotone(nearer: real, farther: real)
    requires nearer <= farther
    ensures Intensity(Classify(farther)) <= Intensity(Classify(nearer))
  {
  }

  /** Exactly the tiers `close` and `veryClose` schedule a repeat among those `Classify` yields. */
  lemma RepeatingTiers(d: real)
    ensures RepeatInterval(Classify(d)) > 0 <==> Classify(d) in {Close, VeryClose}
    ensures Classify(d) == Close ==> RepeatInterval(Classify(d)) == 1000
    ensures Classify(d) == VeryClose ==> RepeatInterval(Classify(d)) == 500
  {
  }

  /** A `setInterval` registration: its handle, the pattern it re-fires and its period. */
  datatype RepeatTimer = RepeatTimer(handle: nat, pattern: seq<nat>, periodMs: nat)

  /** One call into `navigator.vibrate`: a pattern, or `vibrate(0)` to silence the motor. */
  datatype ActuatorCall = Pulse(pattern: seq<nat>) | Silence

  /** Everything the hook and the platform hold between two calls. */
  datatype Haptics = Haptics(
    enabled: bool,
    supported: bool,
    current: VibrationPattern,              // currentPattern
    interval: W.Option<RepeatTimer>,        // intervalRef.current
    live: set<nat>,                         // handles of intervals the platform still runs
    nextHandle: nat,                        // the handle the next setInterval returns
    actuator: seq<ActuatorCall>)            // every navigator.vibrate call so far

  function HandlesOf(t: W.Option<RepeatTimer>): set<nat> {
    if t.Some? then {t.value.handle} else {}
  }

  /** The hook's invariant: the only live interval is the one it holds, and it repeats the
      current tier's pattern at that tier's period; a tier with a period always has one. */
  ghost predicate Inv(h: Haptics) {
    && h.live == HandlesOf(h.interval)
    && (h.interval.Some? <==> RepeatInterval(h.current) > 0)
    && (h.interval.Some? ==>
          && h.interval.value.pattern == PatternOf(h.current)
          && h.interval.value.periodMs == RepeatInterval(h.current)
          && h.interval.value.handle < h.nextHandle)
  }

  /** State after the first render: nothing active, no interval; support not yet detected. */
  function Initial(enabled: bool): (h: Haptics)
    ensures Inv(h) && h.live == {} && h.current == None && h.actuator == []
  {
    Haptics(enabled, false, None, W.None, {}, 1, [])
  }

  /** `stop`: clear the held interval, silence the motor when supported, tier back to `none`. */
  function Stopped(h: Haptics): (r: Haptics)
    ensures r.interval == W.None && r.current == None
    ensures r.live == h.live - HandlesOf(h.interval)
    ensures Inv(h) ==> Inv(r) && r.live == {}
    ensures r.actuator == h.actuator + (if h.supported then [Silence] else [])
    ensures r.enabled == h.enabled && r.supported == h.supported && r.nextHandle == h.nextHandle
  {
    Haptics(h.enabled, h.supported, None, W.None, h.live - HandlesOf(h.interval), h.nextHandle,
            h.actuator + (if h.supported then [Silence] else []))
  }

  /** `vibrate(pattern)`: reaches the actuator only when supported and enabled. */
  function Vibrated(h: Haptics, pattern: seq<nat>): (r: Haptics)
    ensures r == h.(actuator := h.actuator + (if h.supported && h.enabled then [Pulse(pattern)] else []))
  {
    if h.supported && h.enabled then h.(actuator := h.actuator + [Pulse(pattern)]) else h
  }

  /** `vibrateByDistance(d)` as one atomic step. */
  function ByDistance(h: Haptics, d: real): (r: Haptics)
    ensures Inv(h) ==> Inv(r)
    ensures Inv(h) ==> |r.live| <= 1
    ensures !(h.enabled && h.supported) ==> r == h
    ensures r.current == (if h.enabled && h.supported then Classify(d) else h.current)
    ensures r.enabled == h.enabled && r.supported == h.supported
  {
    if !h.enabled || !h.supported then h
    else
      var p := Classify(d);
      if p == h.current && p != Arrived then h
      else
        var s := Stopped(h).(current := p);
        if p == None then s
        else
          var fired := s.(actuator := s.actuator + [Pulse(PatternOf(p))]);
          if RepeatInterval(p) > 0 then
            fired.(interval := W.Some(RepeatTimer(fired.nextHandle, PatternOf(p), RepeatInterval(p))),
                   live := fired.live + {fired.nextHandle},
                   nextHandle := fired.nextHandle + 1)
          else fired
  }

  /** The platform firing interval `handle`: only a live interval can fire, and the one the hook
      holds replays its pattern through `vibrate`. */
  function IntervalElapsed(h: Haptics, handle: nat): (r: Haptics)
    ensures handle !in h.live ==> r == h
    ensures handle in h.live && h.interval.Some? && h.interval.value.handle == handle ==>
      r == Vibrated(h, h.interval.value.pattern)
    ensures Inv(h) ==> Inv(r) && r.current == h.current && r.interval == h.interval
  {
    if handle in h.live && h.interval.Some? && h.interval.value.handle == handle
    then Vibrated(h, h.interval.value.pattern)
    else h
  }

  /** An unchanged tier other than `arrived` is not restarted. */
  lemma SameTierIsNoOp(h: Haptics, d: real)
    requires h.enabled && h.supported
    requires Classify(d) == h.current && h.current != Arrived
    ensures ByDistance(h, d) == h
  {
  }

  /** On a real transition the old interval is cleared, the new tier fires once unless it is
      `none`, and a new interval is scheduled exactly when the tier's period is positive. */
  lemma TransitionRestarts(h: Haptics, d: real)
    requires Inv(h) && h.enabled && h.supported
    requires Classify(d) != h.current || Classify(d) == Arrived
    ensures var r := ByDistance(h, d);
      && HandlesOf(h.interval) !! r.live
      && r.current == Classify(d)
      && (Classify(d) == None ==> r.interval == W.None && r.actuator == h.actuator + [Silence])
      && (Classify(d) != None ==> r.actuator == h.actuator + [Silence, Pulse(PatternOf(Classify(d)))])
      && (r.interval.Some? <==> Classify(d) in {Close, VeryClose})
  {
    var r := ByDistance(h, d);
    if h.interval.Some? {
      assert h.interval.value.handle < h.nextHandle;
    }
  }

  /** Being at the target restarts the one-shot `arrived` pattern on every call. */
  lemma ArrivedRefires(h: Haptics, d: real)
    requires Inv(h) && h.enabled && h.supported && d <= 10.0
    ensures ByDistance(h, d).actuator == h.actuator + [Silence, Pulse(PatternOf(Arrived))]
    ensures ByDistance(h, d).interval == W.None
  {
  }

  /** After `vibrateByDistance` settles on `close` or `veryClose`, the hook holds a live interval
      with that tier's period, and each time it fires the tier's pattern plays again. */
  lemma RepeatReplays(h: Haptics, d: real)
    requires Inv(h) && h.enabled && h.supported && Classify(d) in {Close, VeryClose}
    ensures var r := ByDistance(h, d);
      && r.interval.Some? && r.interval.value.handle in r.live
      && r.interval.value.periodMs == RepeatInterval(Classify(d))
      && IntervalElapsed(r, r.interval.value.handle)
           == r.(actuator := r.actuator + [Pulse(PatternOf(Classify(d)))])
  {
  }

  /** A second `stop` changes nothing but another `vibrate(0)`. */
  lemma StopIdempotent(h: Haptics)
    ensures Stopped(Stopped(h)) == Stopped(h).(actuator := Stopped(h).actuator + (if h.supported then [Silence] else []))
    ensures !h.supported ==> Stopped(Stopped(h)) == Stopped(h)
  {
  }

  /** After `stop` no interval fires, whichever handle the platform tries. */
  lemma NothingFiresAfterStop(h: Haptics, handle: nat)
    requires Inv(h)
    ensures IntervalElapsed(Stopped(h), handle) == Stopped(h)
  {
  }

  /** `navigator.vibrate`: the device's one motor, shared by every hook that drives it, with
      the calls made to it in order. */
  class Motor {
    var calls: seq<ActuatorCall>

    constructor()
      ensures calls == []
    {
      calls := [];
    }
  }

  /** The hook instance, driving the device's motor. */
  class Vibrator {
    const enabled: bool
    const motor: Motor
    var isSupported: bool
    var currentPattern: VibrationPattern
    var intervalRef: W.Option<RepeatTimer>
    var liveIntervals: set<nat>
    var nextHandle: nat

    function Snapshot(): Haptics
      reads this, motor
    {
      Haptics(enabled, isSupported, currentPattern, intervalRef, liveIntervals, nextHandle, motor.calls)
    }

    ghost predicate Valid()
      reads this, motor
    {
      Inv(Snapshot())
    }

    /** `useVibration({ enabled })` on first render; whatever the motor played before stays in
        its log. */
    constructor(motor: Motor, enabled: bool := true)
      ensures this.motor == motor
      ensures Valid() && Snapshot() == Initial(enabled).(actuator := motor.calls)
    {
      this.enabled := enabled;
      this.motor := motor;
      isSupported, currentPattern, intervalRef := false, None, W.None;
      liveIntervals, nextHandle := {}, 1;
    }

    /** The mount effect: `'vibrate' in navigator`. */
    method DetectSupport(capability: bool)
      requires Valid()
      modifies this
      ensures Valid() && Snapshot() == old(Snapshot()).(supported := capability)
    {
      isSupported := capability;
    }

    /** `vibrate(pattern)`; returns whether the call reached the actuator. */
    method Vibrate(pattern: seq<nat>) returns (reached: bool)
      modifies motor
      ensures Snapshot() == Vibrated(old(Snapshot()), pattern)
      ensures old(Valid()) ==> Valid()
      ensures reached == (isSupported && enabled)
    {
      if !isSupported || !enabled {
        return false;
      }
      motor.calls := motor.calls + [Pulse(pattern)];
      return true;
    }

    method Stop()
      requires Valid()
      modifies this, motor
      ensures Valid() && Snapshot() == Stopped(old(Snapshot()))
    {
      if intervalRef.Some? {
        liveIntervals := liveIntervals - {intervalRef.value.handle};
        intervalRef := W.None;
      }
      if isSupported {
        motor.calls := motor.calls + [Silence];
      }
      currentPattern := None;
    }

    method VibrateByDistance(distanceMeters: real)
      requires Valid()
      modifies this, motor
      ensures Valid() && Snapshot() == ByDistance(old(Snapshot()), distanceMeters)
    {
      if !enabled || !isSupported {
        return;
      }
      var newPattern: VibrationPattern;
      if distanceMeters <= 10.0 {
        newPattern := Arrived;
      } else if distanceMeters <= 50.0 {
        newPattern := VeryClose;
      } else if distanceMeters <= 100.0 {
        newPattern := Close;
      } else {
        newPattern := None;
      }
      if newPattern == currentPattern && newPattern != Arrived {
        return;
      }
      Stop();
      currentPattern := newPattern;
      if newPattern == None {
        return;
      }
      var pattern := PatternOf(newPattern);
      var _ := Vibrate(pattern);
      var interval := RepeatInterval(newPattern);
      if interval > 0 {
        intervalRef := W.Some(RepeatTimer(nextHandle, pattern, interval));
        liveIntervals := liveIntervals + {nextHandle};
        nextHandle := nextHandle + 1;
      }
    }

    /** The platform runs the callback of interval `handle`. */
    method OnIntervalElapsed(handle: nat)
      requires Valid()
      modifies motor
      ensures Valid() && Snapshot() == IntervalElapsed(old(Snapshot()), handle)
    {
      if handle in liveIntervals && intervalRef.Some? && intervalRef.value.handle == handle {
        var _ := Vibrate(intervalRef.value.pattern);
      }
    }

    /** `vibrateOnce(pattern = 'close')`: one pulse; tier and interval stay as they are. */
    method VibrateOnce(pattern: VibrationPattern := Close)
      requires Valid()
      modifies motor
      ensures Valid() && Snapshot() == Vibrated(old(Snapshot()), PatternOf(pattern))
      ensures currentPattern == old(currentPattern) && intervalRef == old(intervalRef)
    {
      if !enabled || !isSupported {
        return;
      }
      var _ := Vibrate(PatternOf(pattern));
    }

    /** The unmount cleanup: clears the held interval (without forgetting the handle) and
        silences the motor when the platform has one. */
    method Unmount(capability: bool)
      requires Valid()
      modifies this, motor
      ensures liveIntervals == {}
      ensures intervalRef == old(intervalRef) && currentPattern == old(currentPattern)
      ensures isSupported == old(isSupported) && nextHandle == old(nextHandle)
      ensures motor.calls == old(motor.calls) + (if capability then [Silence] else [])
    {
      if intervalRef.Some? {
        liveIntervals := liveIntervals - {intervalRef.value.handle};
      }
      if capability {
        motor.calls := motor.calls + [Silence];
      }
    }
  }
}
