/** The voice processor of crates/voicersd/src/media/dsp.rs: a one-pole high-pass filter followed by
    an adaptive noise gate, both working in place on a frame.  Samples are reals. */
module Dsp {

  const ALPHA: real := 0.995
  const FLOOR_ATTACK: real := 0.02
  const FLOOR_DECAY: real := 0.001
  const OPEN_MULTIPLIER: real := 2.2
  const CLOSE_MULTIPLIER: real := 1.4
  const FLOOR_GAIN: real := 0.12
  const GAIN_ATTACK: real := 0.35
  const GAIN_RELEASE: real := 0.08
  const INITIAL_FLOOR: real := 0.0015
  const EPSILON: real := 1.0 / 8388608.0

  predicate Within(x: real, bound: real) { -bound <= x <= bound }

  predicate AllWithin(xs: seq<real>, bound: real) {
    forall i :: 0 <= i < |xs| ==> Within(xs[i], bound)
  }

  // --- high-pass filter --------------------------------------------------------------------

  datatype HighPass = HighPass(prevIn: real, prevOut: real)

  const Silent: HighPass := HighPass(0.0, 0.0)

  function HighPassSample(h: HighPass, x: real): real {
    ALPHA * (h.prevOut + x - h.prevIn)
  }

  /** The filter's memory and its outputs after the whole of `xs`. */
  function HighPassRun(h: HighPass, xs: seq<real>): (r: (HighPass, seq<real>))
    ensures |r.1| == |xs|
    decreases |xs|
  {
    if xs == [] then (h, [])
    else
      var n := |xs| - 1;
      var (g, ys) := HighPassRun(h, xs[..n]);
      var y := HighPassSample(g, xs[n]);
      (HighPass(xs[n], y), ys + [y])
  }

  /** Filtering two pieces one after the other is filtering the whole: frame boundaries leave no trace. */
  lemma {:induction false} HighPassConcat(h: HighPass, xs: seq<real>, ys: seq<real>)
    ensures var (g, us) := HighPassRun(h, xs);
            var (k, vs) := HighPassRun(g, ys);
            HighPassRun(h, xs + ys) == (k, us + vs)
    decreases |ys|
  {
    if ys == [] {
      assert xs + ys == xs;
      var us := HighPassRun(h, xs).1;
      assert us + [] == us;
    } else {
      var n := |ys| - 1;
      HighPassConcat(h, xs, ys[..n]);
      assert (xs + ys)[..|xs + ys| - 1] == xs + ys[..n];
      var (g, us) := HighPassRun(h, xs);
      var (k, vs) := HighPassRun(g, ys[..n]);
      assert us + (vs + [HighPassSample(k, ys[n])]) == (us + vs) + [HighPassSample(k, ys[n])];
    }
  }

  /** Held by the fresh filter and kept by every sample of magnitude at most `m`. */
  predicate Tame(h: HighPass, m: real) {
    Within(h.prevIn, m) && Within(h.prevOut - ALPHA * h.prevIn, ALPHA * m)
  }

  lemma {:induction false} HighPassIsBounded(h: HighPass, xs: seq<real>, m: real)
    requires Tame(h, m) && AllWithin(xs, m)
    ensures Tame(HighPassRun(h, xs).0, m)
    ensures AllWithin(HighPassRun(h, xs).1, 2.0 * ALPHA * m)
    decreases |xs|
  {
    if xs != [] {
      var n := |xs| - 1;
      HighPassIsBounded(h, xs[..n], m);
      assert Within(xs[n], m);
    }
  }

  function Power(k: nat): real {
    if k == 0 then 1.0 else ALPHA * Power(k - 1)
  }

  /** The first `m` terms of the sum of ALPHA^(n-j) * xs[j]. */
  function Tail(xs: seq<real>, n: nat, m: nat): real
    requires m <= n && m <= |xs|
  {
    if m == 0 then 0.0 else Tail(xs, n, m - 1) + Power(n - (m - 1)) * xs[m - 1]
  }

  lemma {:induction false} TailShifts(xs: seq<real>, ys: seq<real>, n: nat, m: nat)
    requires m <= n && m <= |xs| && m <= |ys|
    requires forall j :: 0 <= j < m ==> xs[j] == ys[j]
    ensures Tail(ys, n + 1, m) == ALPHA * Tail(xs, n, m)
    decreases m
  {
    if m > 0 {
      TailShifts(xs, ys, n, m - 1);
      var p, x := Power(n - (m - 1)), xs[m - 1];
      assert Power(n + 1 - (m - 1)) == ALPHA * p;
      Distribute(Tail(xs, n, m - 1), p, x);
    }
  }

  lemma Distribute(t: real, p: real, x: real)
    ensures ALPHA * (t + p * x) == ALPHA * t + (ALPHA * p) * x
  {
  }

  /** The impulse response: from rest, output n is 0.995 * x[n] minus 0.005 times the geometrically fading sum of
      all earlier inputs, so a constant input dies away. */
  lemma {:induction false} HighPassIsAConvolution(xs: seq<real>)
    requires xs != []
    ensures var n := |xs| - 1;
            HighPassRun(Silent, xs).1[n] == 0.995 * xs[n] - 0.005 * Tail(xs, n, n)
    decreases |xs|
  {
    var n := |xs| - 1;
    var init := xs[..n];
    if n > 0 {
      HighPassIsAConvolution(init);
      TailShifts(init, xs, n - 1, n - 1);
      assert Power(1) == ALPHA * Power(0) == ALPHA;
      assert Tail(xs, n, n) == ALPHA * Tail(init, n - 1, n - 1) + ALPHA * xs[n - 1];
      var (g, ys) := HighPassRun(Silent, init);
      assert g == HighPass(xs[n - 1], ys[n - 1]);
    } else {
      assert init == [];
      assert Tail(xs, 0, 0) == 0.0;
    }
  }

  // --- noise gate --------------------------------------------------------------------------

  datatype Gate = Gate(floor: real, gain: real)

  const OpenGate: Gate := Gate(INITIAL_FLOOR, 1.0)

  function Energy(xs: seq<real>): (e: real)
    ensures e >= 0.0
    decreases |xs|
  {
    if xs == [] then 0.0
    else
      Squares(xs[|xs| - 1]);
      Energy(xs[..|xs| - 1]) + xs[|xs| - 1] * xs[|xs| - 1]
  }

  lemma Squares(x: real)
    ensures x * x >= 0.0
  {
  }

  /** Root mean square, over whatever square root the platform provides. */
  function Rms(sqrt: real -> real, xs: seq<real>): real {
    if xs == [] then 0.0 else sqrt(Energy(xs) / (|xs| as real))
  }

  ghost predicate SquareRoot(sqrt: real -> real) {
    forall x :: x >= 0.0 ==> sqrt(x) >= 0.0
  }

  lemma RmsNonNegative(sqrt: real -> real, xs: seq<real>)
    requires SquareRoot(sqrt)
    ensures Rms(sqrt, xs) >= 0.0
  {
    if xs != [] {
      var e, n := Energy(xs), |xs| as real;
      assert n >= 1.0;
      assert e / n >= 0.0;
    }
  }

  function Max(x: real, y: real): real { if x >= y then x else y }

  function FloorAfter(floor: real, rms: real): real {
    floor + (rms - floor) * (if rms < floor then FLOOR_ATTACK else FLOOR_DECAY)
  }

  function TargetGain(floor: real, rms: real): real {
    var open := Max(floor * OPEN_MULTIPLIER, 0.003);
    var close := Max(floor * CLOSE_MULTIPLIER, 0.002);
    if rms >= open then 1.0
    else if rms <= close then FLOOR_GAIN
    else
      var span := Max(open - close, EPSILON);
      FLOOR_GAIN + (1.0 - FLOOR_GAIN) * ((rms - close) / span)
  }

  function GateAfter(g: Gate, rms: real): Gate {
    var floor := FloorAfter(g.floor, rms);
    var target := TargetGain(floor, rms);
    Gate(floor, g.gain + (target - g.gain) * (if target > g.gain then GAIN_ATTACK else GAIN_RELEASE))
  }

  predicate Calm(g: Gate) {
    g.floor >= 0.0 && FLOOR_GAIN <= g.gain <= 1.0
  }

  lemma Fraction(a: real, b: real)
    requires 0.0 <= a <= b && b > 0.0
    ensures 0.0 <= a / b <= 1.0
  {
  }

  lemma TargetIsAGain(floor: real, rms: real)
    requires floor >= 0.0 && rms >= 0.0
    ensures FLOOR_GAIN <= TargetGain(floor, rms) <= 1.0
  {
    var open := Max(floor * OPEN_MULTIPLIER, 0.003);
    var close := Max(floor * CLOSE_MULTIPLIER, 0.002);
    if close < rms < open {
      Fraction(rms - close, Max(open - close, EPSILON));
    }
  }

  /** Whatever the level of the frame, the gate stays between its floor gain and unity. */
  lemma GateStaysCalm(g: Gate, rms: real)
    requires Calm(g) && rms >= 0.0
    ensures Calm(GateAfter(g, rms))
  {
    TargetIsAGain(FloorAfter(g.floor, rms), rms);
  }

  // --- what the gate does, in numbers ------------------------------------------------------------

  /** The sum of squares, from the front. */
  function SumOfSquares(xs: seq<real>): real {
    if xs == [] then 0.0 else xs[0] * xs[0] + SumOfSquares(xs[1..])
  }

  lemma {:induction false} EnergyIsTheSum(xs: seq<real>)
    ensures Energy(xs) == SumOfSquares(xs)
    decreases |xs|
  {
    if |xs| > 0 {
      var n := |xs| - 1;
      EnergyIsTheSum(xs[..n]);
      SumSnoc(xs[..n], xs[n]);
      assert xs == xs[..n] + [xs[n]];
    }
  }

  lemma {:induction false} SumSnoc(xs: seq<real>, x: real)
    ensures SumOfSquares(xs + [x]) == SumOfSquares(xs) + x * x
  {
    if xs == [] {
      assert xs + [x] == [x] && [x][1..] == [];
    } else {
      assert (xs + [x])[1..] == xs[1..] + [x];
      SumSnoc(xs[1..], x);
    }
  }

  /** With a true square root the level is the root of the mean square, and silence has none. */
  lemma RmsIsTheMeanSquare(sqrt: real -> real, xs: seq<real>)
    requires forall x :: x >= 0.0 ==> sqrt(x) >= 0.0 && sqrt(x) * sqrt(x) == x
    ensures xs == [] ==> Rms(sqrt, xs) == 0.0
    ensures xs != [] ==> Rms(sqrt, xs) >= 0.0
                         && Rms(sqrt, xs) * Rms(sqrt, xs) == SumOfSquares(xs) / (|xs| as real)
  {
    EnergyIsTheSum(xs);
    if xs != [] { RootOfMean(sqrt, Energy(xs), |xs| as real); }
  }

  lemma RootOfMean(sqrt: real -> real, e: real, n: real)
    requires forall x :: x >= 0.0 ==> sqrt(x) >= 0.0 && sqrt(x) * sqrt(x) == x
    requires e >= 0.0 && n >= 1.0
    ensures sqrt(e / n) >= 0.0 && sqrt(e / n) * sqrt(e / n) == e / n
  {
    assert e / n >= 0.0;
  }

  /** The level above which the gate opens, and the one below which it closes. */
  predicate Thresholds(floor: real, open: real, close: real) {
    && open == (if floor * 2.2 >= 0.003 then floor * 2.2 else 0.003)
    && close == (if floor * 1.4 >= 0.002 then floor * 1.4 else 0.002)
  }

  /** The gain the gate strives for: all above, the floor gain below, and in proportion in between. */
  predicate Strives(open: real, close: real, rms: real, target: real) {
    if rms >= open then target == 1.0
    else if rms <= close then target == 0.12
    else (target - 0.12) * (open - close) == 0.88 * (rms - close)
  }

  /** One frame: the noise floor follows the level, by a fiftieth of the way down or a thousandth of the way
      up; the gain goes 35 of a hundred of the way up or 8 of a hundred of the way down to its target. */
  ghost predicate GateSpec(g: Gate, rms: real, a: Gate) {
    && a.floor - rms == (g.floor - rms) * (if rms < g.floor then 0.98 else 0.999)
    && exists open: real, close: real, target: real ::
         && Thresholds(a.floor, open, close) && Strives(open, close, rms, target)
         && a.gain - target == (g.gain - target) * (if target > g.gain then 0.65 else 0.92)
  }

  lemma ThresholdsApart(floor: real, open: real, close: real)
    requires floor >= 0.0 && Thresholds(floor, open, close)
    ensures open - close >= 0.0005
  {
  }

  lemma InProportion(open: real, close: real, rms: real)
    requires close < rms < open && open - close >= 0.0005
    ensures var target := FLOOR_GAIN + (1.0 - FLOOR_GAIN) * ((rms - close) / Max(open - close, EPSILON));
            (target - 0.12) * (open - close) == 0.88 * (rms - close)
  {
    var span := open - close;
    var ratio := (rms - close) / span;
    assert ratio * span == rms - close;
    assert 0.88 * ratio * span == 0.88 * (ratio * span);
  }

  lemma TargetMeaning(floor: real, rms: real, open: real, close: real)
    requires floor >= 0.0 && Thresholds(floor, open, close)
    ensures Strives(open, close, rms, TargetGain(floor, rms))
  {
    ThresholdsApart(floor, open, close);
    if close < rms < open { InProportion(open, close, rms); }
  }

  lemma FloorMeaning(floor: real, rms: real)
    requires floor >= 0.0 && rms >= 0.0
    ensures FloorAfter(floor, rms) >= 0.0
    ensures FloorAfter(floor, rms) - rms == (floor - rms) * (if rms < floor then 0.98 else 0.999)
  {
  }

  lemma GateMeetsSpec(g: Gate, rms: real)
    requires Calm(g) && rms >= 0.0
    ensures GateSpec(g, rms, GateAfter(g, rms))
  {
    var a := GateAfter(g, rms);
    FloorMeaning(g.floor, rms);
    var open, close := Max(a.floor * 2.2, 0.003), Max(a.floor * 1.4, 0.002);
    assert Thresholds(a.floor, open, close);
    TargetMeaning(a.floor, rms, open, close);
    assert Strives(open, close, rms, TargetGain(a.floor, rms));
  }

  lemma Proportional(x: real, y: real, m: real)
    requires m > 0.0 && x * m == y * m
    ensures x == y
  {
    assert (x - y) * m == 0.0;
  }

  lemma OneTarget(open: real, close: real, rms: real, t: real, u: real)
    requires open - close >= 0.0005 && Strives(open, close, rms, t) && Strives(open, close, rms, u)
    ensures t == u
  {
    if close < rms < open { Proportional(t - 0.12, u - 0.12, open - close); }
  }

  lemma OneGate(g: Gate, rms: real, a: Gate, b: Gate)
    requires a.floor >= 0.0 && GateSpec(g, rms, a) && GateSpec(g, rms, b)
    ensures a == b
  {
    assert a.floor == b.floor;
    var o, c, t :| Thresholds(a.floor, o, c) && Strives(o, c, rms, t)
                   && a.gain - t == (g.gain - t) * (if t > g.gain then 0.65 else 0.92);
    var o', c', t' :| Thresholds(b.floor, o', c') && Strives(o', c', rms, t')
                      && b.gain - t' == (g.gain - t') * (if t' > g.gain then 0.65 else 0.92);
    ThresholdsApart(a.floor, o, c);
    OneTarget(o, c, rms, t, t');
  }

  /** And nothing else meets it. */
  lemma GateIsDetermined(g: Gate, rms: real, a: Gate)
    requires Calm(g) && rms >= 0.0 && GateSpec(g, rms, a)
    ensures a == GateAfter(g, rms)
  {
    GateMeetsSpec(g, rms);
    GateStaysCalm(g, rms);
    OneGate(g, rms, GateAfter(g, rms), a);
  }

  /** The gate over a stream of frame levels. */
  function GateLevels(g: Gate, levels: seq<real>): Gate
    decreases |levels|
  {
    if levels == [] then g else GateAfter(GateLevels(g, levels[..|levels| - 1]), levels[|levels| - 1])
  }

  lemma GateStep(g: Gate, levels: seq<real>, i: nat)
    requires i < |levels|
    ensures GateLevels(g, levels[..i + 1]) == GateAfter(GateLevels(g, levels[..i]), levels[i])
  {
    assert levels[..i + 1][..i] == levels[..i];
  }

  lemma {:induction false} GateStaysCalmThroughout(g: Gate, levels: seq<real>, i: nat)
    requires Calm(g) && i <= |levels| && forall k :: 0 <= k < |levels| ==> levels[k] >= 0.0
    ensures Calm(GateLevels(g, levels[..i]))
  {
    if i > 0 {
      GateStaysCalmThroughout(g, levels, i - 1);
      GateStep(g, levels, i - 1);
      GateStaysCalm(GateLevels(g, levels[..i - 1]), levels[i - 1]);
    }
  }

  /** `x` after n times losing the same share of itself. */
  function Faded(x: real, factor: real, n: nat): real { if n == 0 then x else factor * Faded(x, factor, n - 1) }

  /** A frame is loud, or quiet, against the floor it leaves behind. */
  predicate IsLoud(a: Gate, rms: real) { rms >= 0.003 && rms >= 2.2 * a.floor }

  predicate IsQuiet(a: Gate, rms: real) { rms <= 0.002 || rms <= 1.4 * a.floor }

  lemma LoudFrame(g: Gate, rms: real)
    requires Calm(g) && IsLoud(GateAfter(g, rms), rms)
    ensures 1.0 - GateAfter(g, rms).gain == 0.65 * (1.0 - g.gain)
  {
  }

  lemma QuietFrame(g: Gate, rms: real)
    requires Calm(g) && rms >= 0.0 && IsQuiet(GateAfter(g, rms), rms)
    ensures GateAfter(g, rms).gain - 0.12 == 0.92 * (g.gain - 0.12)
  {
    FloorMeaning(g.floor, rms);
  }

  lemma LoudStep(g: Gate, levels: seq<real>, i: nat)
    requires Calm(g) && i < |levels| && forall k :: 0 <= k < |levels| ==> levels[k] >= 0.0
    requires IsLoud(GateLevels(g, levels[..i + 1]), levels[i])
    ensures 1.0 - GateLevels(g, levels[..i + 1]).gain == 0.65 * (1.0 - GateLevels(g, levels[..i]).gain)
  {
    GateStaysCalmThroughout(g, levels, i);
    GateStep(g, levels, i);
    LoudFrame(GateLevels(g, levels[..i]), levels[i]);
  }

  lemma QuietStep(g: Gate, levels: seq<real>, i: nat)
    requires Calm(g) && i < |levels| && forall k :: 0 <= k < |levels| ==> levels[k] >= 0.0
    requires IsQuiet(GateLevels(g, levels[..i + 1]), levels[i])
    ensures GateLevels(g, levels[..i + 1]).gain - 0.12 == 0.92 * (GateLevels(g, levels[..i]).gain - 0.12)
  {
    GateStaysCalmThroughout(g, levels, i);
    GateStep(g, levels, i);
    QuietFrame(GateLevels(g, levels[..i]), levels[i]);
  }

  /** Speech opens the gate: what it lacks to unity fades by 35 of a hundred with each loud frame. */
  lemma {:induction false} LoudFramesOpen(g: Gate, levels: seq<real>, i: nat)
    requires Calm(g) && i <= |levels| && forall k :: 0 <= k < |levels| ==> levels[k] >= 0.0
    requires forall k :: 0 <= k < |levels| ==> IsLoud(GateLevels(g, levels[..k + 1]), levels[k])
    ensures 1.0 - GateLevels(g, levels[..i]).gain == Faded(1.0 - g.gain, 0.65, i)
  {
    if i > 0 {
      LoudFramesOpen(g, levels, i - 1);
      LoudStep(g, levels, i - 1);
    }
  }

  /** Silence closes it: what it exceeds the floor gain by fades by 8 of a hundred with each quiet frame. */
  lemma {:induction false} QuietFramesClose(g: Gate, levels: seq<real>, i: nat)
    requires Calm(g) && i <= |levels| && forall k :: 0 <= k < |levels| ==> levels[k] >= 0.0
    requires forall k :: 0 <= k < |levels| ==> IsQuiet(GateLevels(g, levels[..k + 1]), levels[k])
    ensures GateLevels(g, levels[..i]).gain - 0.12 == Faded(g.gain - 0.12, 0.92, i)
  {
    if i > 0 {
      QuietFramesClose(g, levels, i - 1);
      QuietStep(g, levels, i - 1);
    }
  }

  function Scaled(xs: seq<real>, gain: real): (ys: seq<real>)
    ensures |ys| == |xs|
  {
    seq(|xs|, i requires 0 <= i < |xs| => xs[i] * gain)
  }

  lemma Times(a: real, b: real)
    requires a >= 0.0 && b >= 0.0
    ensures a * b >= 0.0
  {
  }

  lemma Shrinks(x: real, gain: real, bound: real)
    requires Within(x, bound) && 0.0 <= gain <= 1.0
    ensures Within(x * gain, bound)
  {
    var size := if x >= 0.0 then x else -x;
    Times(size, gain);
    Times(size, 1.0 - gain);
    assert size * (1.0 - gain) == size - size * gain;
    assert x * gain == if x >= 0.0 then size * gain else -(size * gain);
  }

  lemma AttenuationIsBounded(xs: seq<real>, gain: real, bound: real)
    requires AllWithin(xs, bound) && 0.0 <= gain <= 1.0
    ensures AllWithin(Scaled(xs, gain), bound)
  {
    forall i | 0 <= i < |xs| ensures Within(Scaled(xs, gain)[i], bound) {
      Shrinks(xs[i], gain, bound);
    }
  }

  // --- the chain ---------------------------------------------------------------------------

  datatype Chain = Chain(highPass: HighPass, gate: Gate)

  const FreshChain: Chain := Chain(Silent, OpenGate)

  function ProcessFrame(sqrt: real -> real, c: Chain, frame: seq<real>): (r: (Chain, seq<real>))
    ensures |r.1| == |frame|
  {
    var (h, ys) := HighPassRun(c.highPass, frame);
    var g := GateAfter(c.gate, Rms(sqrt, ys));
    (Chain(h, g), Scaled(ys, g.gain))
  }

  /** Over any number of frames of magnitude at most `m`, every sample out is at most 1.99 * m. */
  predicate Settled(c: Chain, m: real) { Tame(c.highPass, m) && Calm(c.gate) }

  lemma ChainIsBounded(sqrt: real -> real, c: Chain, frame: seq<real>, m: real)
    requires SquareRoot(sqrt) && Settled(c, m) && AllWithin(frame, m)
    ensures Settled(ProcessFrame(sqrt, c, frame).0, m)
    ensures AllWithin(ProcessFrame(sqrt, c, frame).1, 2.0 * ALPHA * m)
  {
    HighPassIsBounded(c.highPass, frame, m);
    var ys := HighPassRun(c.highPass, frame).1;
    RmsNonNegative(sqrt, ys);
    var rms := Rms(sqrt, ys);
    GateStaysCalm(c.gate, rms);
    AttenuationIsBounded(ys, GateAfter(c.gate, rms).gain, 2.0 * ALPHA * m);
  }

  // --- the processors, in place ------------------------------------------------------------

  class HighPassFilter {
    var prevInput: real
    var prevOutput: real

    function View(): HighPass reads this { HighPass(prevInput, prevOutput) }

    constructor ()
      ensures View() == Silent
    {
      prevInput, prevOutput := 0.0, 0.0;
    }

    method Reset()
      modifies this
      ensures View() == Silent
    {
      prevInput, prevOutput := 0.0, 0.0;
    }

    method Process(frame: array<real>)
      modifies this, frame
      ensures (View(), frame[..]) == HighPassRun(old(View()), old(frame[..]))
    {
      ghost var before, input := View(), frame[..];
      for i := 0 to frame.Length
        invariant frame[i..] == input[i..]
        invariant (View(), frame[..i]) == HighPassRun(before, input[..i])
      {
        assert frame[i] == frame[i..][0] == input[i];
        assert input[..i + 1][..i] == input[..i];
        var output := ALPHA * (prevOutput + frame[i] - prevInput);
        prevInput := frame[i];
        prevOutput := output;
        ghost var done := frame[..i];
        frame[i] := output;
        assert frame[..i + 1] == done + [output];
      }
      assert frame[..frame.Length] == frame[..];
      assert input[..frame.Length] == input;
    }
  }

  class AdaptiveNoiseGate {
    const sqrt: real -> real
    var noiseFloor: real
    var gain: real

    function View(): Gate reads this { Gate(noiseFloor, gain) }

    constructor (root: real -> real)
      ensures View() == OpenGate && sqrt == root
    {
      sqrt := root;
      noiseFloor, gain := INITIAL_FLOOR, 1.0;
    }

    method Reset()
      modifies this
      ensures View() == OpenGate
    {
      noiseFloor, gain := INITIAL_FLOOR, 1.0;
    }

    method Process(frame: array<real>)
      modifies this, frame
      ensures View() == GateAfter(old(View()), Rms(sqrt, old(frame[..])))
      ensures frame[..] == Scaled(old(frame[..]), gain)
    {
      var rms := Rms(sqrt, frame[..]);
      noiseFloor := noiseFloor + (rms - noiseFloor) * (if rms < noiseFloor then FLOOR_ATTACK else FLOOR_DECAY);
      var open := Max(noiseFloor * OPEN_MULTIPLIER, 0.003);
      var close := Max(noiseFloor * CLOSE_MULTIPLIER, 0.002);
      var target;
      if rms >= open {
        target := 1.0;
      } else if rms <= close {
        target := FLOOR_GAIN;
      } else {
        var ratio := (rms - close) / Max(open - close, EPSILON);
        target := FLOOR_GAIN + (1.0 - FLOOR_GAIN) * ratio;
      }
      gain := gain + (target - gain) * (if target > gain then GAIN_ATTACK else GAIN_RELEASE);
      ScaleInPlace(frame, gain);
    }
  }

  method ScaleInPlace(frame: array<real>, gain: real)
    modifies frame
    ensures frame[..] == Scaled(old(frame[..]), gain)
  {
    ghost var was := frame[..];
    for i := 0 to frame.Length
      invariant forall k :: 0 <= k < i ==> frame[k] == Scaled(was, gain)[k]
      invariant forall k :: i <= k < frame.Length ==> frame[k] == was[k]
    {
      frame[i] := frame[i] * gain;
    }
  }

  class VoiceProcessorChain {
    const highPass: HighPassFilter
    const gate: AdaptiveNoiseGate

    function View(): Chain
      reads highPass, gate
    {
      Chain(highPass.View(), gate.View())
    }

    constructor (root: real -> real)
      ensures View() == FreshChain && gate.sqrt == root
      ensures fresh(highPass) && fresh(gate)
    {
      highPass := new HighPassFilter();
      gate := new AdaptiveNoiseGate(root);
    }

    method Reset()
      modifies highPass, gate
      ensures View() == FreshChain
    {
      highPass.Reset();
      gate.Reset();
    }

    method ProcessInPlace(frame: array<real>)
      modifies highPass, gate, frame
      ensures (View(), frame[..]) == ProcessFrame(gate.sqrt, old(View()), old(frame[..]))
    {
      highPass.Process(frame);
      gate.Process(frame);
    }
  }
}
