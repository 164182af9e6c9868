/** The scratch card: the transparent-pixel count over the canvas buffer, the one-way reveal
    and the pointer handlers. */
module ScratchCard {
  import opened Wrappers

  /** One channel of a `Uint8ClampedArray`. */
  newtype byte = x: int | 0 <= x < 256

  /** Groups of four bytes (R, G, B, A) whose alpha byte is 0, counting only groups whose alpha
      index lies inside the buffer. */
  function Transparent(px: seq<byte>): (n: nat)
    ensures n <= |px| / 4
    decreases |px|
  {
    if |px| < 4 then 0 else (if px[3] == 0 then 1 else 0) + Transparent(px[4..])
  }

  lemma {:induction false} TransparentAppend(a: seq<byte>, b: seq<byte>)
    requires |a| % 4 == 0
    ensures Transparent(a + b) == Transparent(a) + Transparent(b)
    decreases |a|
  {
    if a == [] {
      assert a + b == b;
    } else {
      assert (a + b)[4..] == a[4..] + b;
      assert (a + b)[3] == a[3];
      TransparentAppend(a[4..], b);
    }
  }

  /** The scratched share of the card in percent, for a buffer of `width` × `height` pixels. */
  function Percentage(px: seq<byte>, width: nat, height: nat): (pct: real)
    requires width > 0 && height > 0
    ensures pct >= 0.0
    ensures pct == 0.0 <==> Transparent(px) == 0
  {
    Transparent(px) as real / (width * height) as real * 100.0
  }

  /** A buffer of exactly `width * height` pixels gives a share between 0 and 100. */
  lemma PercentageBounds(px: seq<byte>, width: nat, height: nat)
    requires width > 0 && height > 0 && |px| == 4 * width * height
    ensures 0.0 <= Percentage(px, width, height) <= 100.0
  {
    var n, area := Transparent(px), width * height;
    assert |px| / 4 == area;
    var q := n as real / area as real;
    assert q * area as real == n as real;
    if q > 1.0 {
      assert q * area as real > area as real;
    }
  }

  /** `calculateScratchPercentage`; `drawable` says whether the canvas and its 2D context exist,
      `pixels` is what `getImageData(0, 0, width, height)` returns. */
  method CalculateScratchPercentage(drawable: bool, pixels: array<byte>, width: nat, height: nat)
    returns (pct: real)
    requires drawable ==> width > 0 && height > 0
    ensures !drawable ==> pct == 0.0
    ensures drawable ==> pct == Percentage(pixels[..], width, height)
  {
    if !drawable {
      return 0.0;
    }
    var transparentPixels: nat := 0;
    var i := 3;
    while i < pixels.Length
      invariant 3 <= i && (i - 3) % 4 == 0 && i - 3 <= pixels.Length
      invariant transparentPixels == Transparent(pixels[..i - 3])
      decreases pixels.Length - i
    {
      var done := pixels[..i - 3];
      assert pixels[..i + 1] == done + pixels[i - 3..i + 1];
      TransparentAppend(done, pixels[i - 3..i + 1]);
      assert pixels[i - 3..i + 1][4..] == [];
      if pixels[i] == 0 {
        transparentPixels := transparentPixels + 1;
      }
      i := i + 4;
    }
    assert pixels[..] == pixels[..i - 3] + pixels[i - 3..];
    TransparentAppend(pixels[..i - 3], pixels[i - 3..]);
    assert transparentPixels == Transparent(pixels[..]);
    return transparentPixels as real / (width * height) as real * 100.0;
  }

  datatype Point = Point(x: real, y: real)

  /** The props, with their defaults. */
  datatype CardConfig = CardConfig(
    width: nat, height: nat, brushSize: nat, revealThreshold: real, disabled: bool,
    hasOnReveal: bool, hasOnProgress: bool, canVibrate: bool)

  function DefaultConfig(hasOnReveal: bool, hasOnProgress: bool, canVibrate: bool): (c: CardConfig)
    ensures c.width == 300 && c.height == 200 && c.brushSize == 40 && c.revealThreshold == 50.0
    ensures !c.disabled
  {
    CardConfig(300, 200, 40, 50.0, false, hasOnReveal, hasOnProgress, canVibrate)
  }

  /** The card's state and what it has reported to its callbacks and the vibration actuator. */
  datatype CardState = CardState(
    isRevealed: bool, isScratching: bool, lastPoint: Option<Point>,
    revealCalls: nat, progressReports: seq<real>, vibrations: seq<seq<nat>>)

  const InitialCard: CardState := CardState(false, false, None, 0, [], [])

  const RevealVibration: seq<nat> := [100, 50, 200]

  /** `onReveal` has fired exactly when the card is revealed (and has that callback), and the
      reveal vibration at most once. */
  ghost predicate CardInv(c: CardConfig, s: CardState) {
    && s.revealCalls == (if s.isRevealed && c.hasOnReveal then 1 else 0)
    && |s.vibrations| <= 1
    && (|s.vibrations| == 1 ==> s.isRevealed)
  }

  /** `scratch(x, y)` when the buffer, after drawing at the point, has share `pct`. */
  function Scratched(c: CardConfig, s: CardState, p: Point, drawable: bool, pct: real): (r: CardState)
    ensures CardInv(c, s) ==> CardInv(c, r)
    ensures c.disabled || s.isRevealed || !drawable ==> r == s
    ensures !(c.disabled || s.isRevealed || !drawable) ==>
      && r.lastPoint == Some(p) && r.isScratching == s.isScratching
      && r.isRevealed == (pct >= c.revealThreshold)
      && r.progressReports == s.progressReports + (if c.hasOnProgress then [pct] else [])
  {
    if c.disabled || s.isRevealed || !drawable then s
    else
      var s1 := s.(lastPoint := Some(p),
                   progressReports := s.progressReports + (if c.hasOnProgress then [pct] else []));
      if pct >= c.revealThreshold then
        s1.(isRevealed := true,
            revealCalls := s1.revealCalls + (if c.hasOnReveal then 1 else 0),
            vibrations := s1.vibrations + (if c.canVibrate then [RevealVibration] else []))
      else s1
  }

  /** A run of scratches with the share each one leaves. */
  datatype Stroke = Stroke(p: Point, drawable: bool, pct: real)

  function ScratchAll(c: CardConfig, s: CardState, strokes: seq<Stroke>): CardState
    decreases |strokes|
  {
    if strokes == [] then s
    else ScratchAll(c, Scratched(c, s, strokes[0].p, strokes[0].drawable, strokes[0].pct), strokes[1..])
  }

  /** However many scratches follow, `onReveal` fires at most once, and once revealed the
      card stays revealed and nothing more is reported. */
  lemma {:induction false} RevealFiresAtMostOnce(c: CardConfig, s: CardState, strokes: seq<Stroke>)
    requires CardInv(c, s)
    ensures CardInv(c, ScratchAll(c, s, strokes))
    ensures ScratchAll(c, s, strokes).revealCalls <= 1
    ensures s.isRevealed ==> ScratchAll(c, s, strokes) == s
    decreases |strokes|
  {
    if strokes != [] {
      var st := strokes[0];
      RevealFiresAtMostOnce(c, Scratched(c, s, st.p, st.drawable, st.pct), strokes[1..]);
    }
  }

  /** `<ScratchCard>` with its refs and state. */
  class Card {
    const config: CardConfig
    var isRevealed: bool
    var isScratching: bool
    var lastPoint: Option<Point>
    var revealCalls: nat
    var progressReports: seq<real>
    var vibrations: seq<seq<nat>>

    function State(): CardState
      reads this
    {
      CardState(isRevealed, isScratching, lastPoint, revealCalls, progressReports, vibrations)
    }

    ghost predicate Valid()
      reads this
    {
      config.width > 0 && config.height > 0 && CardInv(config, State())
    }

    /** `getImageData` rejects an empty rectangle, so the card needs a positive size. */
    constructor(config: CardConfig)
      requires config.width > 0 && config.height > 0
      ensures Valid() && this.config == config && State() == InitialCard
    {
      this.config := config;
      isRevealed, isScratching, lastPoint := false, false, None;
      revealCalls, progressReports, vibrations := 0, [], [];
    }

    /** `scratch(x, y)`; `pixels` is the buffer read back after drawing at `p`. */
    method Scratch(p: Point, drawable: bool, pixels: array<byte>)
      requires Valid()
      modifies this
      ensures Valid()
      ensures State() == Scratched(config, old(State()), p, drawable,
                                   if drawable then Percentage(pixels[..], config.width, config.height) else 0.0)
    {
      if config.disabled || isRevealed {
        return;
      }
      if !drawable {
        return;
      }
      lastPoint := Some(p);
      var percentage := CalculateScratchPercentage(drawable, pixels, config.width, config.height);
      if config.hasOnProgress {
        progressReports := progressReports + [percentage];
      }
      if percentage >= config.revealThreshold && !isRevealed {
        isRevealed := true;
        if config.hasOnReveal {
          revealCalls := revealCalls + 1;
        }
        if config.canVibrate {
          vibrations := vibrations + [RevealVibration];
        }
      }
    }

    /** `handleStart`: scratching begins; a point is remembered, then scratched. */
    method HandleStart(coords: Option<Point>, drawable: bool, pixels: array<byte>)
      requires Valid()
      modifies this
      ensures Valid() && isScratching
      ensures coords.None? ==> State() == old(State()).(isScratching := true)
      ensures coords.Some? ==>
        State() == Scratched(config, old(State()).(isScratching := true, lastPoint := coords), coords.value,
                             drawable, if drawable then Percentage(pixels[..], config.width, config.height) else 0.0)
      ensures coords.Some? ==> lastPoint == coords
    {
      isScratching := true;
      if coords.Some? {
        lastPoint := coords;
        Scratch(coords.value, drawable, pixels);
      }
    }

    /** `handleMove`: scratches only while scratching. */
    method HandleMove(coords: Option<Point>, drawable: bool, pixels: array<byte>)
      requires Valid()
      modifies this
      ensures Valid()
      ensures !old(isScratching) || coords.None? ==> State() == old(State())
      ensures old(isScratching) && coords.Some? ==>
        State() == Scratched(config, old(State()), coords.value, drawable,
                             if drawable then Percentage(pixels[..], config.width, config.height) else 0.0)
    {
      if !isScratching {
        return;
      }
      if coords.Some? {
        Scratch(coords.value, drawable, pixels);
      }
    }

    /** `handleEnd`. */
    method HandleEnd()
      requires Valid()
      modifies this
      ensures Valid()
      ensures State() == old(State()).(isScratching := false, lastPoint := None)
    {
      isScratching := false;
      lastPoint := None;
    }
  }
}
