/** The Celebration overlay and the `useCelebration` hook that drives it. */
module Celebration {
  import opened Wrappers
  import Vibration

  datatype CelebrationType = Confetti | Success | Checkpoint

  /** The two Lottie animations the component can play. */
  datatype Animation = ConfettiAnimation | SuccessAnimation

  /** `type === 'confetti' ? confettiAnimation : successAnimation`. */
  function AnimationFor(t: CelebrationType): (a: Animation)
    ensures a == ConfettiAnimation <==> t == Confetti
    ensures t in {Success, Checkpoint} ==> a == SuccessAnimation
  {
    if t == Confetti then ConfettiAnimation else SuccessAnimation
  }

  /** What `celebrate` passes to `navigator.vibrate`; the number 100 is the one-element pattern. */
  function CelebrationVibration(t: CelebrationType): (pattern: seq<nat>)
    ensures t == Confetti ==> pattern == [100, 50, 100, 50, 200]
    ensures t != Confetti ==> pattern == [100]
  {
    if t == Confetti then [100, 50, 100, 50, 200] else [100]
  }

  datatype CelebrationState = CelebrationState(kind: CelebrationType, show: bool)

  /** `useCelebration()`, calling the device's `navigator.vibrate` directly. */
  class CelebrationHook {
    /** `navigator.vibrate` exists. */
    const canVibrate: bool
    const motor: Vibration.Motor
    var celebration: CelebrationState

    constructor(canVibrate: bool, motor: Vibration.Motor)
      ensures this.canVibrate == canVibrate && this.motor == motor
      ensures celebration == CelebrationState(Confetti, false)
    {
      this.canVibrate := canVibrate;
      this.motor := motor;
      celebration := CelebrationState(Confetti, false);
    }

    method Celebrate(t: CelebrationType := Confetti)
      modifies this, motor
      ensures celebration == CelebrationState(t, true)
      ensures motor.calls == old(motor.calls) + (if canVibrate then [Vibration.Pulse(CelebrationVibration(t))] else [])
    {
      celebration := CelebrationState(t, true);
      if canVibrate {
        if t == Confetti {
          motor.calls := motor.calls + [Vibration.Pulse([100, 50, 100, 50, 200])];
        } else {
          motor.calls := motor.calls + [Vibration.Pulse([100])];
        }
      }
    }

    /** Hides the overlay and keeps the type; the motor is not touched. */
    method Hide()
      modifies this
      ensures celebration == old(celebration).(show := false)
    {
      celebration := celebration.(show := false);
    }
  }

  /** One mounted `<Celebration>`. */
  class CelebrationView {
    const kind: CelebrationType
    const autoHide: bool
    const hasOnComplete: bool
    var isVisible: bool
    var completions: nat

    constructor(kind: CelebrationType := Confetti, autoHide: bool := true, show: bool := true,
                hasOnComplete: bool := false)
      ensures this.kind == kind && this.autoHide == autoHide && this.hasOnComplete == hasOnComplete
      ensures isVisible == show && completions == 0
    {
      this.kind, this.autoHide, this.hasOnComplete := kind, autoHide, hasOnComplete;
      isVisible, completions := show, 0;
    }

    /** The effect that copies the `show` prop into `isVisible`. */
    method SyncShow(show: bool)
      modifies this
      ensures isVisible == show && completions == old(completions)
    {
      isVisible := show;
    }

    /** Lottie's completion callback: hides only with `autoHide`, always reports completion. */
    method HandleComplete()
      modifies this
      ensures isVisible == (old(isVisible) && !autoHide)
      ensures completions == old(completions) + (if hasOnComplete then 1 else 0)
    {
      if autoHide {
        isVisible := false;
      }
      if hasOnComplete {
        completions := completions + 1;
      }
    }

    /** What the component renders: nothing while hidden, else the animation for its type. */
    function Rendered(): (r: Option<Animation>)
      reads this
      ensures r.None? <==> !isVisible
      ensures r.Some? ==> (r.value == ConfettiAnimation <==> kind == Confetti)
    {
      if !isVisible then None else Some(AnimationFor(kind))
    }
  }
}
