/** The per-frame update of the scene state, as pure functions: the car's
    sway (clamped to plus or minus `maxSway`), the road's scroll offset
    (wrapped back by one period when it falls below -2.0) and the
    translation built for the road, `roadOffset % 2.0`. Numbers are exact reals; the
    source computes them in IEEE doubles. */
module Motion {

  /** Sideways movement per frame while an arrow key is held. */
  const STEP: real := 0.02
  /** `maxSway`: the car's x stays within plus or minus this. */
  const MAX_SWAY: real := 0.5
  /** Road movement per frame. */
  const SCROLL_STEP: real := 0.02
  /** Length of one road cycle: the wrap threshold and the `%` divisor. */
  const ROAD_PERIOD: real := 2.0
  /** Frames in one road cycle: `ROAD_PERIOD / SCROLL_STEP`. */
  const CYCLE_FRAMES: nat := 100

  /** The car's fixed height and depth. */
  const CAR_Y: real := -0.2
  const CAR_Z: real := -1.5

  /** The keys a frame sees as held. */
  datatype Held = Held(left: bool, right: bool)

  /** `Math.max` on two finite numbers. */
  function JsMax(a: real, b: real): (r: real)
    ensures r >= a && r >= b
    ensures r == a || r == b
  {
    if a >= b then a else b
  }

  /** `Math.min` on two finite numbers. */
  function JsMin(a: real, b: real): (r: real)
    ensures r <= a && r <= b
    ensures r == a || r == b
  {
    if a <= b then a else b
  }

  ghost predicate InSway(x: real)
  {
    -MAX_SWAY <= x <= MAX_SWAY
  }

  ghost predicate InRoadRange(offset: real)
  {
    -ROAD_PERIOD <= offset <= 0.0
  }

  /** The car's new x for one frame: left is applied first, then right,
      each clamped to the sway limit. */
  function NextX(x: real, left: bool, right: bool): (r: real)
    ensures InSway(x) ==> InSway(r)
    ensures !left && !right ==> r == x
    ensures left && !right && InSway(x) ==> x - STEP <= r <= x && (r == x - STEP || r == -MAX_SWAY)
    ensures right && !left && InSway(x) ==> x <= r <= x + STEP && (r == x + STEP || r == MAX_SWAY)
  {
    var afterLeft := if left then JsMax(x - STEP, -MAX_SWAY) else x;
    if right then JsMin(afterLeft + STEP, MAX_SWAY) else afterLeft
  }

  /** The road offset's new value for one frame. */
  function NextOffset(offset: real): (r: real)
    ensures r == offset - SCROLL_STEP <==> offset - SCROLL_STEP >= -ROAD_PERIOD
    ensures r == offset - SCROLL_STEP || r == offset - SCROLL_STEP + ROAD_PERIOD
    ensures InRoadRange(offset) ==> InRoadRange(r) && r < 0.0
  {
    var moved := offset - SCROLL_STEP;
    if moved < -ROAD_PERIOD then moved + ROAD_PERIOD else moved
  }

  /** Rounding toward zero, as a JavaScript engine does when it takes the
      remainder of two doubles. */
  function Trunc(x: real): (q: int)
    ensures x >= 0.0 ==> 0.0 <= q as real <= x < q as real + 1.0
    ensures x < 0.0 ==> q as real - 1.0 < x <= q as real <= 0.0
  {
    if x >= 0.0 then x.Floor else -((-x).Floor)
  }

  /** JavaScript's `n % d` for finite `n` and positive `d`: the remainder of
      truncated division, so it has the sign of the dividend (`-2.0 % 2.0`
      is negative zero in the source, zero here). */
  function TruncRem(n: real, d: real): (r: real)
    requires d > 0.0
    ensures -d < r < d
    ensures n >= 0.0 ==> 0.0 <= r <= n
    ensures n <= 0.0 ==> n <= r <= 0.0
    ensures ((n - r) / d).Floor as real == (n - r) / d
  {
    var q := Trunc(n / d);
    TruncRemFacts(n, d, q);
    n - d * q as real
  }

  /** The arithmetic behind `TruncRem`: with `q` the truncated quotient,
      `n - d * q` is `d` times the fractional part of `n / d`. */
  lemma TruncRemFacts(n: real, d: real, q: int)
    requires d > 0.0 && q == Trunc(n / d)
    ensures var r := n - d * q as real;
      && -d < r < d
      && (n >= 0.0 ==> 0.0 <= r <= n)
      && (n <= 0.0 ==> n <= r <= 0.0)
      && (n - r) / d == q as real
  {
    var t := n / d;
    DivSign(n, d);
    var s := t - q as real;
    assert n - d * q as real == d * s;
    if n >= 0.0 {
      assert 0.0 <= s < 1.0 && q as real >= 0.0;
      MulBounds(0.0, s, d);
      MulBounds(s, 1.0, d);
      MulBounds(0.0, q as real, d);
    } else {
      assert -1.0 < s <= 0.0 && q as real <= 0.0;
      MulBounds(s, 0.0, d);
      MulBounds(-1.0, s, d);
      MulBounds(q as real, 0.0, d);
    }
    assert (d * q as real) / d == q as real;
  }

  /** Multiplying `a <= b` (or `a < b`) by a positive `d`. */
  lemma MulBounds(a: real, b: real, d: real)
    requires d > 0.0
    ensures a <= b ==> d * a <= d * b
    ensures a < b ==> d * a < d * b
  {
  }

  /** Dividing by a positive `d` keeps the sign and can be undone. */
  lemma DivSign(n: real, d: real)
    requires d > 0.0
    ensures d * (n / d) == n
    ensures n >= 0.0 <==> n / d >= 0.0
  {
    if n / d < 0.0 {
      MulBounds(n / d, 0.0, d);
    }
  }

  /** The y-translation built for the road, `roadOffset % 2.0`. The frame
      as written never uploads it; the intended frame draws the road with
      it. */
  function RoadTranslation(offset: real): (t: real)
    ensures -ROAD_PERIOD < t < ROAD_PERIOD
    ensures offset <= 0.0 ==> offset <= t <= 0.0
    ensures offset >= 0.0 ==> 0.0 <= t <= offset
  {
    TruncRem(offset, ROAD_PERIOD)
  }

  /** On the offsets the update produces, the road's translation lies in
      (-2.0, 0.0] and is the offset itself, except at -2.0, where it is
      zero. */
  lemma RoadTranslationInRange(offset: real)
    requires InRoadRange(offset)
    ensures -ROAD_PERIOD < RoadTranslation(offset) <= 0.0
    ensures offset > -ROAD_PERIOD ==> RoadTranslation(offset) == offset
    ensures offset == -ROAD_PERIOD ==> RoadTranslation(offset) == 0.0
  {
    assert Trunc(offset / ROAD_PERIOD) == if offset == -ROAD_PERIOD then -1 else 0;
  }

  /** The car's x after a run of frames, each with its own held keys. */
  function XAfter(x: real, frames: seq<Held>): real
    decreases frames
  {
    if frames == [] then x else XAfter(NextX(x, frames[0].left, frames[0].right), frames[1..])
  }

  /** The road offset after `n` frames. */
  function OffsetAfter(offset: real, n: nat): real
  {
    if n == 0 then offset else NextOffset(OffsetAfter(offset, n - 1))
  }

  /** Whatever keys are held, frame after frame, the car stays within the
      sway limit once it starts there. */
  lemma {:induction false} SwayBoundAlways(x: real, frames: seq<Held>)
    requires InSway(x)
    ensures InSway(XAfter(x, frames))
    decreases frames
  {
    if frames != [] {
      SwayBoundAlways(NextX(x, frames[0].left, frames[0].right), frames[1..]);
    }
  }

  /** With neither key held the car does not move, however many frames. */
  lemma {:induction false} NoKeysNoSway(x: real, frames: seq<Held>)
    requires forall i :: 0 <= i < |frames| ==> frames[i] == Held(false, false)
    ensures XAfter(x, frames) == x
  {
    if frames != [] {
      NoKeysNoSway(x, frames[1..]);
    }
  }

  /** With both keys held, left goes first: away from the left edge the
      two moves cancel, but at or near the edge the clamp swallows part of
      the left move and the car ends one step in from -maxSway. */
  lemma BothKeysHeld(x: real)
    requires InSway(x)
    ensures x >= -MAX_SWAY + STEP ==> NextX(x, true, true) == x
    ensures x < -MAX_SWAY + STEP ==> NextX(x, true, true) == -MAX_SWAY + STEP
    ensures NextX(-MAX_SWAY, true, true) == -0.48
  {
  }

  /** Holding only the right arrow from the centre: the car moves one step
      per frame until it reaches `maxSway`, then stays there. */
  lemma {:induction false} HoldRightFromCentre(n: nat)
    ensures XAfter(0.0, seq(n, _ => Held(false, true))) == JsMin(STEP * n as real, MAX_SWAY)
  {
    HoldRightFrom(0, n);
  }

  lemma {:induction false} HoldRightFrom(k: nat, n: nat)
    requires k <= 25
    ensures XAfter(STEP * k as real, seq(n, _ => Held(false, true))) == JsMin(STEP * (k + n) as real, MAX_SWAY)
    decreases n
  {
    var frames := seq(n, _ => Held(false, true));
    if n > 0 {
      assert frames[1..] == seq(n - 1, _ => Held(false, true));
      if k < 25 {
        assert NextX(STEP * k as real, false, true) == STEP * (k + 1) as real;
        HoldRightFrom(k + 1, n - 1);
      } else {
        assert NextX(STEP * k as real, false, true) == STEP * k as real;
        HoldRightFrom(k, n - 1);
      }
    }
  }

  /** Starting inside (-2.0, 0.0), every frame keeps the offset there: the
      wrap invariant. */
  lemma {:induction false} OffsetRangeAlways(offset: real, n: nat)
    requires InRoadRange(offset)
    ensures InRoadRange(OffsetAfter(offset, n))
  {
    if n > 0 {
      OffsetRangeAlways(offset, n - 1);
    }
  }

  /** From the initial offset 0, frame `n` (n >= 1) shows the offset
      -0.02 * m, where m runs 1, 2, ..., 100 and starts again: the road
      reaches -2.0 at frame 100 and wraps at frame 101. */
  lemma {:induction false} OffsetFromStart(n: nat)
    requires n >= 1
    ensures OffsetAfter(0.0, n) == -SCROLL_STEP * ((n - 1) % CYCLE_FRAMES + 1) as real
  {
    if n > 1 {
      OffsetFromStart(n - 1);
    }
  }

  /** The road's scroll is periodic: after the first frame, 100 more frames
      bring back the same offset. */
  lemma OffsetPeriodic(n: nat)
    requires n >= 1
    ensures OffsetAfter(0.0, n + CYCLE_FRAMES) == OffsetAfter(0.0, n)
  {
    OffsetFromStart(n);
    OffsetFromStart(n + CYCLE_FRAMES);
    assert (n + CYCLE_FRAMES - 1) % CYCLE_FRAMES == (n - 1) % CYCLE_FRAMES;
  }

  /** From the initial offset 0 the road reaches exactly -2.0 at frame 100
      without wrapping, and frame 101 wraps it to -0.02. */
  lemma FirstWrap()
    ensures OffsetAfter(0.0, 100) == -2.0
    ensures OffsetAfter(0.0, 101) == -0.02
  {
    OffsetFromStart(100);
    OffsetFromStart(101);
  }
}
