/** The capture pipeline of crates/voicersd/src/media.rs: device samples are resampled to 48 kHz by
    linear interpolation, cut into 20 ms frames, run through the voice processor and queued.

    The fractional cursor is kept as an integer, in units of 1/48000 of an input sample. */
module Capture {
  import opened Core
  import opened Dsp

  const OUT_RATE: nat := 48000
  const FRAME: nat := 960
  const MAX_QUEUE: nat := 8

  // --- the resampler in closed form ----------------------------------------------------------

  /** How many outputs a whole input of `n` samples allows: those with both neighbours present. */
  function Count(n: nat, rate: nat): nat
    requires rate >= 1
  {
    if n <= 1 then 0 else (OUT_RATE * (n - 1) + rate - 1) / rate
  }

  /** Output k interpolates the whole input at position k * rate / 48000. */
  function SampleAt(x: seq<real>, k: nat, rate: nat): real
    requires k * rate / OUT_RATE + 1 < |x|
  {
    var i := k * rate / OUT_RATE;
    x[i] + (x[i + 1] - x[i]) * ((k * rate % OUT_RATE) as real / OUT_RATE as real)
  }

  lemma CeilingDivision(k: nat, a: nat, rate: nat)
    requires rate >= 1
    ensures k < (a + rate - 1) / rate <==> k * rate < a
  {
    var q := (a + rate - 1) / rate;
    assert q * rate <= a + rate - 1 < (q + 1) * rate;
    if k < q {
      assert (k + 1) * rate <= q * rate by { Monotone(k + 1, q, rate); }
      assert (k + 1) * rate == k * rate + rate;
    } else {
      assert q * rate <= k * rate by { Monotone(q, k, rate); }
      assert (q + 1) * rate == q * rate + rate;
    }
  }

  lemma Monotone(a: nat, b: nat, c: nat)
    requires a <= b
    ensures a * c <= b * c
  {
    assert (b - a) * c >= 0;
    assert b * c == a * c + (b - a) * c;
  }

  lemma CountMeaning(k: nat, n: nat, rate: nat)
    requires rate >= 1
    ensures k < Count(n, rate) <==> k * rate / OUT_RATE + 1 < n
  {
    if n >= 2 {
      CeilingDivision(k, OUT_RATE * (n - 1), rate);
    }
  }

  /** The whole output for the whole input, with no cursor and no chunks. */
  function Resample(x: seq<real>, rate: nat): (y: seq<real>)
    requires rate >= 1
    ensures |y| == Count(|x|, rate)
  {
    seq(Count(|x|, rate), k requires 0 <= k < Count(|x|, rate) =>
      CountMeaning(k, |x|, rate); SampleAt(x, k, rate))
  }

  /** The closed form in plain numbers: one sample for each position k * rate / 48000 that has a neighbour on
      its right, on the straight line between its neighbours. */
  lemma ResampleMeaning(x: seq<real>, rate: nat, k: nat)
    requires rate >= 1
    ensures k < |Resample(x, rate)| <==> k * rate / 48000 + 1 < |x|
    ensures k < |Resample(x, rate)| ==>
              var i, fraction := k * rate / 48000, (k * rate % 48000) as real / 48000.0;
              Resample(x, rate)[k] == x[i] * (1.0 - fraction) + x[i + 1] * fraction
  {
    CountMeaning(k, |x|, rate);
    if k < |Resample(x, rate)| {
      var i, f := k * rate / 48000, (k * rate % 48000) as real / 48000.0;
      OnTheLine(x[i], x[i + 1], f);
    }
  }

  lemma OnTheLine(l: real, r: real, f: real)
    ensures l + (r - l) * f == l * (1.0 - f) + r * f
  {
  }

  lemma SampleIsStable(x: seq<real>, more: seq<real>, k: nat, rate: nat)
    requires k * rate / OUT_RATE + 1 < |x|
    ensures SampleAt(x + more, k, rate) == SampleAt(x, k, rate)
  {
  }

  /** Draining past the end of the buffered input: the slice operation that would panic. */
  predicate Overruns(n: nat, rate: nat)
    requires rate >= 1
  {
    Count(n, rate) * rate / OUT_RATE > n
  }

  /** Up to two input samples per output the cursor never leaves the input, whatever its length ... */
  lemma SlowRatesNeverOverrun(n: nat, rate: nat)
    requires 1 <= rate <= 2 * OUT_RATE
    ensures !Overruns(n, rate)
  {
    var c := Count(n, rate);
    if c > 0 {
      CountMeaning(c - 1, n, rate);
      assert c * rate == (c - 1) * rate + rate;
    }
  }

  /** ... and for every faster device some input length does overrun: one sample short of a second. */
  lemma FastRatesOverrun(rate: nat)
    requires rate > 2 * OUT_RATE
    ensures Overruns(rate - 1, rate)
  {
    var n := rate - 1;
    CountMeaning(OUT_RATE - 1, n, rate);
    assert (OUT_RATE - 1) * rate == OUT_RATE * rate - rate;
    var c := Count(n, rate);
    assert c >= OUT_RATE;
    Monotone(OUT_RATE, c, rate);
    assert c * rate / OUT_RATE >= OUT_RATE * rate / OUT_RATE == rate;
  }

  /** The resampler is safe on inputs of every length exactly up to 96 kHz. */
  lemma SafeRates(rate: nat)
    requires rate >= 1
    ensures (forall n: nat :: !Overruns(n, rate)) <==> rate <= 96000
  {
    if rate <= 2 * OUT_RATE {
      forall n: nat ensures !Overruns(n, rate) { SlowRatesNeverOverrun(n, rate); }
    } else {
      FastRatesOverrun(rate);
    }
  }

  lemma SampleIsBounded(x: seq<real>, k: nat, rate: nat, m: real)
    requires k * rate / OUT_RATE + 1 < |x| && AllWithin(x, m)
    ensures Within(SampleAt(x, k, rate), m)
  {
    var i := k * rate / OUT_RATE;
    var f := (k * rate % OUT_RATE) as real / OUT_RATE as real;
    var l, r := x[i], x[i + 1];
    assert Within(l, m) && Within(r, m);
    Times(m - l, 1.0 - f); Times(m - r, f);
    Times(m + l, 1.0 - f); Times(m + r, f);
    assert l + (r - l) * f == m - ((m - l) * (1.0 - f) + (m - r) * f);
    assert l + (r - l) * f == -m + ((m + l) * (1.0 - f) + (m + r) * f);
  }

  lemma ResampleIsBounded(x: seq<real>, rate: nat, m: real)
    requires rate >= 1 && AllWithin(x, m)
    ensures AllWithin(Resample(x, rate), m)
  {
    forall k | 0 <= k < Count(|x|, rate) ensures Within(Resample(x, rate)[k], m) {
      CountMeaning(k, |x|, rate);
      SampleIsBounded(x, k, rate, m);
    }
  }

  // --- frames --------------------------------------------------------------------------------

  const Silence: seq<real> := seq(FRAME, _ => 0.0)

  function Abs(x: real): real { if x >= 0.0 then x else -x }

  function Amplified(frame: seq<real>, gain: real): seq<real> {
    if Abs(gain - 1.0) > EPSILON then Scaled(frame, gain) else frame
  }

  /** A frame processor with state: the voice processor chain, seen from outside. */
  type Processor = (Chain, seq<real>) -> (Chain, seq<real>)

  function VoiceProcessor(sqrt: real -> real): Processor {
    (c: Chain, frame: seq<real>) => ProcessFrame(sqrt, c, frame)
  }

  /** The first `k` finished frames of the resampled stream `raw`, frame i under input gain gains[i]. */
  function Shape(process: Processor, raw: seq<real>, gains: seq<real>, k: nat): (r: (Chain, seq<seq<real>>))
    requires FRAME * k <= |raw| && k <= |gains|
    ensures |r.1| == k
  {
    if k == 0 then (FreshChain, [])
    else
      var (c, done) := Shape(process, raw, gains, k - 1);
      var (c', frame) := process(c, raw[FRAME * (k - 1)..FRAME * k]);
      (c', done + [Amplified(frame, gains[k - 1])])
  }

  lemma {:induction false} ShapeIsStable(process: Processor, raw: seq<real>, more: seq<real>,
                                         gains: seq<real>, later: seq<real>, k: nat)
    requires FRAME * k <= |raw| && k <= |gains|
    ensures Shape(process, raw + more, gains + later, k) == Shape(process, raw, gains, k)
  {
    if k > 0 {
      ShapeIsStable(process, raw, more, gains, later, k - 1);
      assert (raw + more)[FRAME * (k - 1)..FRAME * k] == raw[FRAME * (k - 1)..FRAME * k];
    }
  }

  lemma {:induction false} ShapePrefix(process: Processor, raw: seq<real>, gains: seq<real>, i: nat, k: nat)
    requires FRAME * k <= |raw| && k <= |gains| && i <= k
    ensures Shape(process, raw, gains, k).1[..i] == Shape(process, raw, gains, i).1
  {
    if i < k {
      ShapePrefix(process, raw, gains, i, k - 1);
      var done := Shape(process, raw, gains, k - 1).1;
      assert Shape(process, raw, gains, k).1[..i] == done[..i];
    }
  }

  /** Every frame finished so far. */
  function Finished(process: Processor, raw: seq<real>, gains: seq<real>): (r: seq<seq<real>>)
    requires FRAME * |gains| <= |raw|
    ensures |r| == |gains|
  {
    Shape(process, raw, gains, |gains|).1
  }

  /** Later input and later gains add frames and change none. */
  lemma FinishedGrows(process: Processor, raw: seq<real>, gains: seq<real>, raw': seq<real>, gains': seq<real>)
    requires FRAME * |gains| <= |raw| && raw <= raw' && FRAME * |gains'| <= |raw'| && gains <= gains'
    ensures Finished(process, raw', gains')[..|gains|] == Finished(process, raw, gains)
  {
    var more, later := raw'[|raw|..], gains'[|gains|..];
    assert raw' == raw + more && gains' == gains + later;
    ShapeIsStable(process, raw, more, gains, later, |gains|);
    ShapePrefix(process, raw', gains', |gains|, |gains'|);
  }

  lemma ScaledIsBounded(frame: seq<real>, gain: real, bound: real)
    requires AllWithin(frame, bound) && 0.0 <= gain <= 2.0
    ensures AllWithin(Scaled(frame, gain), 2.0 * bound)
  {
    forall i | 0 <= i < |frame| ensures Within(frame[i] * gain, 2.0 * bound) {
      GainIsBounded(frame[i], gain, bound);
    }
  }

  lemma GainIsBounded(x: real, gain: real, bound: real)
    requires Within(x, bound) && 0.0 <= gain <= 2.0
    ensures Within(x * gain, 2.0 * bound)
  {
    var half := gain / 2.0;
    Shrinks(x, half, bound);
    assert x * gain == 2.0 * (x * half);
  }

  lemma LoosenedBound(frame: seq<real>, bound: real)
    requires AllWithin(frame, bound)
    ensures AllWithin(frame, 2.0 * bound)
  {
  }

  lemma AmplifiedIsBounded(frame: seq<real>, gain: real, bound: real)
    requires AllWithin(frame, bound) && 0.0 <= gain <= 2.0
    ensures AllWithin(Amplified(frame, gain), 2.0 * bound)
  {
    if Abs(gain - 1.0) > EPSILON {
      ScaledIsBounded(frame, gain, bound);
    } else {
      LoosenedBound(frame, bound);
    }
  }

  /** If no resampled sample exceeds `m`, no sample of a finished frame exceeds 3.98 * m. */
  lemma {:induction false} FramesAreBounded(sqrt: real -> real, raw: seq<real>, gains: seq<real>, k: nat, m: real)
    requires SquareRoot(sqrt) && FRAME * k <= |raw| && k <= |gains|
    requires m >= 0.0 && AllWithin(raw, m)
    requires forall i :: 0 <= i < |gains| ==> 0.0 <= gains[i] <= 2.0
    ensures Settled(Shape(VoiceProcessor(sqrt), raw, gains, k).0, m)
    ensures forall i :: 0 <= i < k ==> AllWithin(Shape(VoiceProcessor(sqrt), raw, gains, k).1[i], 4.0 * ALPHA * m)
  {
    if k > 0 {
      FramesAreBounded(sqrt, raw, gains, k - 1, m);
      var c := Shape(VoiceProcessor(sqrt), raw, gains, k - 1).0;
      var cut := raw[FRAME * (k - 1)..FRAME * k];
      assert AllWithin(cut, m);
      ChainIsBounded(sqrt, c, cut, m);
      AmplifiedIsBounded(ProcessFrame(sqrt, c, cut).1, gains[k - 1], 2.0 * ALPHA * m);
    }
  }

  // --- what a frame is made of -------------------------------------------------------------------

  /** The frames as the processor leaves them, before any input gain. */
  function Processed(process: Processor, raw: seq<real>, k: nat): (r: (Chain, seq<seq<real>>))
    requires FRAME * k <= |raw|
    ensures |r.1| == k
  {
    if k == 0 then (FreshChain, [])
    else
      var (c, done) := Processed(process, raw, k - 1);
      var (c', frame) := process(c, raw[FRAME * (k - 1)..FRAME * k]);
      (c', done + [frame])
  }

  lemma {:induction false} GainComesLast(process: Processor, raw: seq<real>, gains: seq<real>, k: nat)
    requires FRAME * k <= |raw| && k <= |gains|
    ensures Shape(process, raw, gains, k).0 == Processed(process, raw, k).0
    ensures forall i :: 0 <= i < k ==>
              Shape(process, raw, gains, k).1[i] == Amplified(Processed(process, raw, k).1[i], gains[i])
  {
    if k > 0 { GainComesLast(process, raw, gains, k - 1); }
  }

  /** `y` is `x` times the gain: exactly, unless the gain is so close to one that it is left out, and then to
      within that little. */
  predicate Louder(x: real, gain: real, y: real) {
    && Abs(y - gain * x) <= Abs(x) / 8388608.0
    && (Abs(gain - 1.0) > 1.0 / 8388608.0 ==> y == gain * x)
  }

  predicate CarriesGain(frame: seq<real>, gain: real, louder: seq<real>) {
    |louder| == |frame| && forall n :: 0 <= n < |frame| ==> Louder(frame[n], gain, louder[n])
  }

  lemma LeftOut(x: real, gain: real)
    requires Abs(gain - 1.0) <= 1.0 / 8388608.0
    ensures Louder(x, gain, x)
  {
    var e, g, s := 1.0 / 8388608.0, Abs(gain - 1.0), Abs(x);
    Times(e - g, s);
    assert (e - g) * s == e * s - g * s;
    AbsTimes(1.0 - gain, x);
    assert x - gain * x == (1.0 - gain) * x;
  }

  lemma AbsTimes(x: real, y: real)
    ensures Abs(x * y) == Abs(x) * Abs(y)
  {
    Times(Abs(x), Abs(y));
  }

  lemma LetIn(x: real, gain: real, y: real)
    requires y == x * gain
    ensures Louder(x, gain, y)
  {
    assert y - gain * x == 0.0;
  }

  lemma AmplifiedMeaning(frame: seq<real>, gain: real)
    ensures CarriesGain(frame, gain, Amplified(frame, gain))
  {
    var louder := Amplified(frame, gain);
    forall n | 0 <= n < |frame| ensures Louder(frame[n], gain, louder[n]) {
      if Abs(gain - 1.0) > EPSILON {
        assert louder[n] == Scaled(frame, gain)[n];
        LetIn(frame[n], gain, louder[n]);
      } else {
        LeftOut(frame[n], gain);
      }
    }
  }

  /** The input gain of the moment a frame is finished reaches every sample of it. */
  lemma GainReachesEverySample(process: Processor, raw: seq<real>, gains: seq<real>, i: nat)
    requires FRAME * |gains| <= |raw| && i < |gains|
    ensures CarriesGain(Processed(process, raw, |gains|).1[i], gains[i], Finished(process, raw, gains)[i])
  {
    GainComesLast(process, raw, gains, |gains|);
    AmplifiedMeaning(Processed(process, raw, |gains|).1[i], gains[i]);
  }

  /** At gain zero the frame is silent, whatever was said. */
  lemma GainZeroIsSilence(process: Processor, raw: seq<real>, gains: seq<real>, i: nat, n: nat)
    requires FRAME * |gains| <= |raw| && i < |gains| && gains[i] == 0.0
    requires n < |Finished(process, raw, gains)[i]|
    ensures Finished(process, raw, gains)[i][n] == 0.0
  {
    GainReachesEverySample(process, raw, gains, i);
  }

  // --- and the processor's part --------------------------------------------------------------------

  /** The gate after k frames of the filtered stream `ys`, each judged by its own level. */
  function GateRun(sqrt: real -> real, ys: seq<real>, k: nat): Gate
    requires FRAME * k <= |ys|
  {
    if k == 0 then OpenGate
    else GateAfter(GateRun(sqrt, ys, k - 1), Rms(sqrt, ys[FRAME * (k - 1)..FRAME * k]))
  }

  lemma {:induction false} GateRunIsStable(sqrt: real -> real, ys: seq<real>, zs: seq<real>, k: nat)
    requires FRAME * k <= |ys| && ys <= zs
    ensures GateRun(sqrt, zs, k) == GateRun(sqrt, ys, k)
  {
    if k > 0 {
      GateRunIsStable(sqrt, ys, zs, k - 1);
      assert ys[FRAME * (k - 1)..FRAME * k] == zs[FRAME * (k - 1)..FRAME * k];
    }
  }

  /** Frame i of the filtered stream, under the gain the gate has come to with it. */
  function Gated(sqrt: real -> real, ys: seq<real>, i: nat): seq<real>
    requires FRAME * (i + 1) <= |ys|
  {
    Scaled(ys[FRAME * i..FRAME * (i + 1)], GateRun(sqrt, ys, i + 1).gain)
  }

  lemma GatedIsStable(sqrt: real -> real, ys: seq<real>, zs: seq<real>, i: nat)
    requires FRAME * (i + 1) <= |ys| && ys <= zs
    ensures Gated(sqrt, zs, i) == Gated(sqrt, ys, i)
  {
    GateRunIsStable(sqrt, ys, zs, i + 1);
    assert ys[FRAME * i..FRAME * (i + 1)] == zs[FRAME * i..FRAME * (i + 1)];
  }

  /** The voice processor over a stream: one filter through all of it, frame boundaries or not, and then on
      each frame the gain the gate has come to with that frame. */
  lemma {:induction false} ProcessedStream(sqrt: real -> real, raw: seq<real>, k: nat)
    requires FRAME * k <= |raw|
    ensures var (h, ys) := HighPassRun(Silent, raw[..FRAME * k]);
            && Processed(VoiceProcessor(sqrt), raw, k).0 == Chain(h, GateRun(sqrt, ys, k))
            && forall i: nat :: i < k ==> Processed(VoiceProcessor(sqrt), raw, k).1[i] == Gated(sqrt, ys, i)
  {
    if k > 0 {
      ProcessedStream(sqrt, raw, k - 1);
      var init, cut := raw[..FRAME * (k - 1)], raw[FRAME * (k - 1)..FRAME * k];
      assert raw[..FRAME * k] == init + cut;
      var (h, ys) := HighPassRun(Silent, init);
      var zs := StreamStep(sqrt, init, cut, k - 1, h, ys);
      var (c, done) := Processed(VoiceProcessor(sqrt), raw, k - 1);
      ProcessedStep(VoiceProcessor(sqrt), raw, k);
      OneMoreGated(sqrt, ys, zs, k - 1, done);
    }
  }

  lemma ProcessedStep(process: Processor, raw: seq<real>, k: nat)
    requires 0 < k && FRAME * k <= |raw|
    ensures var (c, done) := Processed(process, raw, k - 1);
            var (c', frame) := process(c, raw[FRAME * (k - 1)..FRAME * k]);
            Processed(process, raw, k) == (c', done + [frame])
  {
  }

  lemma OneMoreGated(sqrt: real -> real, ys: seq<real>, zs: seq<real>, k: nat, done: seq<seq<real>>)
    requires FRAME * k <= |ys| && FRAME * (k + 1) <= |zs| && ys <= zs && |done| == k
    requires forall i: nat :: i < k ==> done[i] == Gated(sqrt, ys, i)
    ensures forall i: nat :: i < k + 1 ==> (done + [Gated(sqrt, zs, k)])[i] == Gated(sqrt, zs, i)
  {
    forall i: nat | i < k ensures Gated(sqrt, zs, i) == Gated(sqrt, ys, i) {
      GatedIsStable(sqrt, ys, zs, i);
    }
  }

  lemma StreamStep(sqrt: real -> real, init: seq<real>, cut: seq<real>, k: nat, h: HighPass, ys: seq<real>)
    returns (zs: seq<real>)
    requires |init| == FRAME * k && |cut| == FRAME && (h, ys) == HighPassRun(Silent, init)
    ensures zs == HighPassRun(Silent, init + cut).1 && ys <= zs
    ensures VoiceProcessor(sqrt)(Chain(h, GateRun(sqrt, ys, k)), cut)
            == (Chain(HighPassRun(Silent, init + cut).0, GateRun(sqrt, zs, k + 1)), Gated(sqrt, zs, k))
  {
    var (g, vs) := HighPassRun(h, cut);
    HighPassConcat(Silent, init, cut);
    zs := ys + vs;
    assert zs[FRAME * k..FRAME * (k + 1)] == vs;
    GateRunIsStable(sqrt, ys, zs, k);
  }

  // --- the streaming pipeline ----------------------------------------------------------------

  lemma ResampleExtends(x: seq<real>, more: seq<real>, rate: nat)
    requires rate >= 1
    ensures Count(|x|, rate) <= Count(|x + more|, rate)
    ensures Resample(x + more, rate)[..Count(|x|, rate)] == Resample(x, rate)
  {
    var c := Count(|x|, rate);
    if c > 0 {
      CountMeaning(c - 1, |x|, rate);
      CountMeaning(c - 1, |x + more|, rate);
    }
    forall k | 0 <= k < c ensures Resample(x + more, rate)[k] == Resample(x, rate)[k] {
      CountMeaning(k, |x|, rate);
      SampleIsStable(x, more, k, rate);
    }
  }

  /** The cursor before output k: d whole input samples consumed and c / 48000 of the next. */
  predicate At(k: nat, rate: nat, d: nat, c: nat) {
    k * rate == d * OUT_RATE + c && c < OUT_RATE
  }

  lemma AtNext(k: nat, rate: nat, d: nat, c: nat)
    requires At(k, rate, d, c)
    ensures var consumed := (c + rate) / OUT_RATE;
            At(k + 1, rate, d + consumed, c + rate - consumed * OUT_RATE)
  {
    assert (k + 1) * rate == k * rate + rate;
  }

  /** Output k can be made exactly when its two neighbours are among the n samples heard. */
  lemma AtCounts(k: nat, n: nat, rate: nat, d: nat, c: nat)
    requires rate >= 1 && At(k, rate, d, c)
    ensures k < Count(n, rate) <==> d + 1 < n
    ensures d == k * rate / OUT_RATE && c == k * rate % OUT_RATE
  {
    CountMeaning(k, n, rate);
  }

  /** With output k possible, its successor lies beyond the input only if the input overruns. */
  lemma OverrunIsAtTheEnd(k: nat, n: nat, rate: nat, d: nat, c: nat)
    requires rate >= 1 && k < Count(n, rate) && At(k + 1, rate, d, c) && d > n
    ensures Overruns(n, rate)
  {
    AtCounts(k + 1, n, rate, d, c);
    assert Count(n, rate) == k + 1;
  }

  lemma NextSample(x: seq<real>, k: nat, rate: nat, d: nat, c: nat)
    requires rate >= 1 && At(k, rate, d, c) && d + 1 < |x|
    ensures k < Count(|x|, rate)
    ensures Resample(x, rate)[k] == x[d] + (x[d + 1] - x[d]) * (c as real / OUT_RATE as real)
  {
    AtCounts(k, |x|, rate, d, c);
  }

  /** The unread input and the cursor are exactly what the closed form leaves over. */
  ghost predicate Stream(x: seq<real>, rate: nat, raw: seq<real>, input: seq<real>, d: nat, c: nat) {
    && rate >= 1
    && |raw| <= Count(|x|, rate)
    && raw == Resample(x, rate)[..|raw|]
    && d <= |x| && input == x[d..]
    && At(|raw|, rate, d, c)
  }

  lemma StreamSample(x: seq<real>, rate: nat, raw: seq<real>, input: seq<real>, d: nat, c: nat)
    requires Stream(x, rate, raw, input, d, c) && |input| >= 2
    ensures |raw| < Count(|x|, rate)
    ensures Resample(x, rate)[|raw|] == input[0] + (input[1] - input[0]) * (c as real / OUT_RATE as real)
  {
    NextSample(x, |raw|, rate, d, c);
  }

  lemma StreamDrain(x: seq<real>, rate: nat, raw: seq<real>, input: seq<real>, d: nat, c: nat,
                    sample: real, consumed: nat)
    requires Stream(x, rate, raw, input, d, c)
    requires |raw| < Count(|x|, rate) && sample == Resample(x, rate)[|raw|]
    requires consumed == (c + rate) / OUT_RATE
    ensures consumed > |input| ==> Overruns(|x|, rate)
    ensures consumed <= |input| ==>
              Stream(x, rate, raw + [sample], input[consumed..], d + consumed, c + rate - consumed * OUT_RATE)
  {
    AtNext(|raw|, rate, d, c);
    if consumed > |input| {
      OverrunIsAtTheEnd(|raw|, |x|, rate, d + consumed, c + rate - consumed * OUT_RATE);
    }
  }

  lemma StreamEnds(x: seq<real>, rate: nat, raw: seq<real>, input: seq<real>, d: nat, c: nat)
    requires Stream(x, rate, raw, input, d, c) && |input| <= 1
    ensures raw == Resample(x, rate) && !Overruns(|x|, rate)
  {
    AtCounts(|raw|, |x|, rate, d, c);
  }

  lemma StreamGrows(x: seq<real>, more: seq<real>, rate: nat, raw: seq<real>, input: seq<real>, d: nat, c: nat)
    requires Stream(x, rate, raw, input, d, c) && raw == Resample(x, rate)
    ensures Stream(x + more, rate, raw, input + more, d, c)
  {
    ResampleExtends(x, more, rate);
  }

  /** The assembly buffer, the processor and the queue are what shaping the whole stream leaves. */
  ghost predicate Frames(process: Processor, raw: seq<real>, gains: seq<real>,
                         assembly: seq<real>, chain: Chain, ready: seq<seq<real>>)
  {
    var k := |gains|;
    && FRAME * k <= |raw|
    && assembly == raw[FRAME * k..]
    && chain == Shape(process, raw, gains, k).0
    && |ready| <= k
    && ready == Finished(process, raw, gains)[k - |ready|..]
    && (forall i :: 0 <= i < k ==> 0.0 <= gains[i] <= 2.0)
  }

  lemma FramesGrow(process: Processor, raw: seq<real>, more: seq<real>, gains: seq<real>,
                   assembly: seq<real>, chain: Chain, ready: seq<seq<real>>)
    requires Frames(process, raw, gains, assembly, chain, ready)
    ensures Frames(process, raw + more, gains, assembly + more, chain, ready)
  {
    ShapeIsStable(process, raw, more, gains, [], |gains|);
    assert gains + [] == gains;
  }

  lemma FrameFinishes(process: Processor, raw: seq<real>, gains: seq<real>, gain: real,
                      assembly: seq<real>, chain: Chain, ready: seq<seq<real>>)
    requires Frames(process, raw, gains, assembly, chain, ready)
    requires |assembly| == FRAME && 0.0 <= gain <= 2.0
    ensures var (c, frame) := process(chain, assembly);
            Frames(process, raw, gains + [gain], [], c, ready + [Amplified(frame, gain)])
  {
    var k := |gains|;
    ShapeIsStable(process, raw, [], gains, [gain], k);
    assert raw + [] == raw;
    assert assembly == raw[FRAME * k..FRAME * (k + 1)];
  }

  function Repeat(gain: real, n: nat): seq<real> { seq(n, _ => gain) }

  /** Frames were finished under this gain, and each lengthened the queue by one. */
  predicate Grew(gain: real, gains: seq<real>, queued: nat, gains': seq<real>, queued': nat) {
    && |gains| <= |gains'|
    && gains' == gains + Repeat(gain, |gains'| - |gains|)
    && queued' == queued + (|gains'| - |gains|)
  }

  lemma GrewTwice(gain: real, g0: seq<real>, n0: nat, g1: seq<real>, n1: nat, g2: seq<real>, n2: nat)
    requires Grew(gain, g0, n0, g1, n1) && Grew(gain, g1, n1, g2, n2)
    ensures Grew(gain, g0, n0, g2, n2)
  {
    assert g2 == g0 + (Repeat(gain, |g1| - |g0|) + Repeat(gain, |g2| - |g1|));
  }

  /** So the queue is the old one followed by the frames finished since. */
  lemma QueueGrew(process: Processor, raw: seq<real>, gains: seq<real>, ready: seq<seq<real>>,
                  raw': seq<real>, gains': seq<real>, ready': seq<seq<real>>)
    requires FRAME * |gains| <= |raw| && |ready| <= |gains|
    requires ready == Finished(process, raw, gains)[|gains| - |ready|..]
    requires FRAME * |gains'| <= |raw'| && |ready'| <= |gains'|
    requires ready' == Finished(process, raw', gains')[|gains'| - |ready'|..]
    requires raw <= raw' && gains <= gains' && |ready'| == |ready| + (|gains'| - |gains|)
    ensures ready' == ready + Finished(process, raw', gains')[|gains|..]
  {
    FinishedGrows(process, raw, gains, raw', gains');
    var all := Finished(process, raw', gains');
    assert all == all[..|gains|] + all[|gains|..];
  }

  /** The queue may lose its oldest frames. */
  lemma QueueDrops(process: Processor, raw: seq<real>, gains: seq<real>, assembly: seq<real>, chain: Chain,
                   ready: seq<seq<real>>, ready': seq<seq<real>>)
    requires Frames(process, raw, gains, assembly, chain, ready)
    requires |ready'| <= |ready| && ready' == ready[|ready| - |ready'|..]
    ensures Frames(process, raw, gains, assembly, chain, ready')
  {
  }

  lemma StillAmong<T>(s: seq<T>, i: nat, k: nat)
    requires i <= k <= |s|
    ensures forall x :: x in s[..i] ==> x in s[..k]
  {
  }

  lemma FramesInRaw(raw: nat, k: nat, rest: nat)
    requires raw == FRAME * k + rest && rest < FRAME
    ensures k == raw / FRAME
  {
  }

  function Newest<T>(s: seq<T>): seq<T> {
    if |s| <= MAX_QUEUE then s else s[|s| - MAX_QUEUE..]
  }

  /** The queue keeps its last eight frames, or all of fewer. */
  lemma NewestMeaning<T>(s: seq<T>)
    ensures var r := Newest(s);
            |r| == (if |s| < 8 then |s| else 8) && r == s[|s| - |r|..]
  {
  }

  lemma NothingHeard(process: Processor, rate: nat)
    requires rate >= 1
    ensures Resample([], rate) == [] && Stream([], rate, [], [], 0, 0)
    ensures Frames(process, [], [], [], FreshChain, [])
  {
  }

  /** What has passed through since the last reset: every device sample, how many of them have left
      the input buffer, every resampled sample, and the input gain as each frame was finished. */
  datatype History = History(heard: seq<real>, drained: nat, raw: seq<real>, gains: seq<real>)

  class CapturePipeline {
    var rate: nat
    var input: seq<real>
    var cursor: nat
    var assembly: seq<real>
    var ready: seq<seq<real>>
    var last: seq<real>
    var gain: real
    const voice: VoiceProcessorChain

    ghost var log: History

    ghost predicate Streaming()
      reads this
    {
      Stream(log.heard, rate, log.raw, input, log.drained, cursor)
    }

    ghost predicate Framing()
      reads this, voice.highPass, voice.gate
    {
      && Frames(VoiceProcessor(voice.gate.sqrt), log.raw, log.gains, assembly, voice.View(), ready)
      && 0.0 <= gain <= 2.0
    }

    ghost function AllFrames(): seq<seq<real>>
      requires Framing()
      reads this, voice.highPass, voice.gate
    {
      Finished(VoiceProcessor(voice.gate.sqrt), log.raw, log.gains)
    }

    /** The frame repeated when the queue runs dry: silence, or one that left the queue. */
    ghost predicate Remembers()
      requires Framing()
      reads this, voice.highPass, voice.gate
    {
      last == Silence || last in AllFrames()[..|log.gains| - |ready|]
    }

    /** Between calls: everything the input allows has been resampled and framed, and the queue holds
        the newest frames. */
    ghost predicate Valid()
      reads this, voice.highPass, voice.gate
    {
      && Streaming() && Framing() && Remembers()
      && log.raw == Resample(log.heard, rate)
      && |assembly| < FRAME
      && |ready| <= MAX_QUEUE
      && |last| == FRAME
    }

    constructor (root: real -> real)
      ensures Valid() && log.heard == [] && rate == OUT_RATE && voice.gate.sqrt == root
      ensures ready == [] && last == Silence && gain == 1.0
      ensures fresh(voice.highPass) && fresh(voice.gate)
    {
      rate, input, cursor, assembly, ready := OUT_RATE, [], 0, [], [];
      last := Silence;
      gain := 1.0;
      voice := new VoiceProcessorChain(root);
      log := History([], 0, [], []);
      new;
      NothingHeard(VoiceProcessor(voice.gate.sqrt), OUT_RATE);
    }

    method Reset(newRate: nat)
      requires newRate >= 1 && 0.0 <= gain <= 2.0
      modifies this, voice.highPass, voice.gate
      ensures Valid() && log == History([], 0, [], []) && rate == newRate && gain == old(gain)
      ensures input == [] && ready == [] && last == Silence
    {
      rate, input, cursor, assembly, ready := newRate, [], 0, [], [];
      last := Silence;
      voice.Reset();
      log := History([], 0, [], []);
      NothingHeard(VoiceProcessor(voice.gate.sqrt), newRate);
    }

    method SetInputGain(g: real)
      requires Valid()
      modifies this`gain
      ensures Valid() && gain == if g < 0.0 then 0.0 else if g > 2.0 then 2.0 else g
    {
      gain := if g < 0.0 then 0.0 else if g > 2.0 then 2.0 else g;
    }

    method TakeReadyFrame() returns (frame: Option<seq<real>>)
      requires Valid()
      modifies this`ready, this`last
      ensures Valid()
      ensures old(ready) == [] ==> frame == None && ready == [] && last == old(last)
      ensures old(ready) != [] ==>
                frame == Some(old(ready)[0]) && ready == old(ready)[1..] && last == old(ready)[0]
    {
      if ready == [] {
        return None;
      }
      frame := Some(ready[0]);
      ghost var i := |log.gains| - |ready|;
      FrameLength(voice.gate.sqrt, log.raw, log.gains, |log.gains|, i);
      assert ready[0] == AllFrames()[i];
      last := ready[0];
      ready := ready[1..];
      assert last in AllFrames()[..i + 1];
    }

    /** The sample at the cursor, interpolated between its two neighbours. */
    method Interpolate() returns (sample: real)
      requires Streaming() && |input| >= 2
      ensures |log.raw| < Count(|log.heard|, rate) && sample == Resample(log.heard, rate)[|log.raw|]
    {
      StreamSample(log.heard, rate, log.raw, input, log.drained, cursor);
      var base := cursor / OUT_RATE;
      assert base == 0;
      var fraction := (cursor - base * OUT_RATE) as real / OUT_RATE as real;
      var left, right := input[base], input[base + 1];
      sample := left + (right - left) * fraction;
    }

    /** Push one interpolated sample and move the cursor past the input it no longer needs. */
    method EmitSample() returns (overran: bool)
      requires Streaming() && |input| >= 2
      modifies this`assembly, this`cursor, this`input, this`log
      ensures log.heard == old(log.heard) && log.gains == old(log.gains)
      ensures overran ==> Overruns(|log.heard|, rate)
      ensures !overran ==>
                && Streaming()
                && |log.raw| == |old(log.raw)| + 1 && log.raw[..|old(log.raw)|] == old(log.raw)
                && assembly == old(assembly) + [log.raw[|old(log.raw)|]]
                && OUT_RATE * |input| - cursor == old(OUT_RATE * |input| - cursor) - rate
    {
      var sample := Interpolate();
      assembly := assembly + [sample];
      cursor := cursor + rate;
      var consumed := cursor / OUT_RATE;
      StreamDrain(log.heard, rate, log.raw, input, log.drained, cursor - rate, sample, consumed);
      log := log.(raw := log.raw + [sample], drained := log.drained + consumed);
      if consumed > 0 {
        if consumed > |input| {
          return true;
        }
        input := input[consumed..];
        cursor := cursor - consumed * OUT_RATE;
      }
      return false;
    }

    /** A full frame leaves the assembly buffer, processed and amplified. */
    method FinishFrame()
      requires Framing() && |assembly| == FRAME
      modifies this`assembly, this`ready, this`log, voice.highPass, voice.gate
      ensures Framing() && assembly == []
      ensures log == old(log).(gains := old(log).gains + [gain]) && |ready| == |old(ready)| + 1
    {
      FrameFinishes(VoiceProcessor(voice.gate.sqrt), log.raw, log.gains, gain, assembly, voice.View(), ready);
      var pcm := assembly;
      var frame := new real[FRAME](i requires 0 <= i < FRAME => pcm[i]);
      assert frame[..] == pcm;
      assembly := [];
      voice.ProcessInPlace(frame);
      if Abs(gain - 1.0) > EPSILON {
        ScaleInPlace(frame, gain);
      }
      log := log.(gains := log.gains + [gain]);
      ready := ready + [frame[..]];
    }

    /** One more sample in the assembly buffer, with the frames so far as they were. */
    method Assemble() returns (overran: bool)
      requires Streaming() && Framing() && |assembly| < FRAME && |input| >= 2
      modifies this`assembly, this`cursor, this`input, this`log
      ensures log.heard == old(log.heard) && log.gains == old(log.gains)
      ensures overran ==> Overruns(|log.heard|, rate)
      ensures !overran ==>
                && Streaming() && Framing() && |assembly| <= FRAME
                && OUT_RATE * |input| - cursor == old(OUT_RATE * |input| - cursor) - rate
    {
      ghost var before := log;
      overran := EmitSample();
      if !overran {
        ghost var sample := log.raw[|before.raw|];
        assert log.raw == before.raw + [sample];
        ghost var process := VoiceProcessor(voice.gate.sqrt);
        FramesGrow(process, before.raw, [sample], log.gains, old(assembly), voice.View(), ready);
      }
    }

    /** One turn of the loop: a sample, and the frame it may complete. */
    method Advance() returns (overran: bool)
      requires Streaming() && Framing() && |assembly| < FRAME && |input| >= 2
      modifies this`assembly, this`cursor, this`input, this`log, this`ready, voice.highPass, voice.gate
      ensures log.heard == old(log.heard)
      ensures Grew(gain, old(log.gains), |old(ready)|, log.gains, |ready|)
      ensures overran ==> Overruns(|log.heard|, rate)
      ensures !overran ==>
                && Streaming() && Framing() && |assembly| < FRAME
                && OUT_RATE * |input| - cursor == old(OUT_RATE * |input| - cursor) - rate
    {
      overran := Assemble();
      if !overran && |assembly| == FRAME {
        FinishFrame();
      }
    }

    /** Resample and frame all the input that allows it. */
    method RebuildReadyFrames() returns (overran: bool)
      requires Streaming() && Framing() && |assembly| < FRAME
      modifies this`assembly, this`cursor, this`input, this`log, this`ready, voice.highPass, voice.gate
      ensures log.heard == old(log.heard)
      ensures Grew(gain, old(log.gains), |old(ready)|, log.gains, |ready|)
      ensures overran <==> Overruns(|log.heard|, rate)
      ensures !overran ==> Streaming() && Framing() && |assembly| < FRAME && log.raw == Resample(log.heard, rate)
    {
      while |input| >= 2
        invariant log.heard == old(log.heard)
        invariant Grew(gain, old(log.gains), |old(ready)|, log.gains, |ready|)
        invariant Streaming() && Framing() && |assembly| < FRAME
        decreases OUT_RATE * |input| - cursor
      {
        if cursor / OUT_RATE + 1 >= |input| {
          break;
        }
        ghost var gains, queued := log.gains, |ready|;
        overran := Advance();
        GrewTwice(gain, old(log.gains), |old(ready)|, gains, queued, log.gains, |ready|);
        if overran {
          return;
        }
      }
      StreamEnds(log.heard, rate, log.raw, input, log.drained, cursor);
      return false;
    }

    method Append(samples: seq<real>)
      requires Valid()
      modifies this`input, this`log
      ensures Streaming() && Framing()
      ensures log == old(log).(heard := old(log).heard + samples)
    {
      StreamGrows(log.heard, samples, rate, log.raw, input, log.drained, cursor);
      log := log.(heard := log.heard + samples);
      input := input + samples;
    }

    method TrimQueue()
      requires Framing()
      modifies this`ready
      ensures Framing() && ready == Newest(old(ready))
    {
      ghost var was := ready;
      while |ready| > MAX_QUEUE
        invariant |ready| <= |was| && ready == was[|was| - |ready|..]
        invariant |ready| >= MAX_QUEUE || ready == was
      {
        ready := ready[1..];
      }
      QueueDrops(VoiceProcessor(voice.gate.sqrt), log.raw, log.gains, assembly, voice.View(), was, ready);
    }

    /** The frames beyond the first `n`. */
    ghost function FramesAfter(n: nat): seq<seq<real>>
      requires Framing() && n <= |log.gains|
      reads this, voice.highPass, voice.gate
    {
      AllFrames()[n..]
    }

    /** All frames the samples complete join the queue. */
    method Absorb(samples: seq<real>) returns (overran: bool)
      requires Valid()
      modifies this`assembly, this`cursor, this`input, this`log, this`ready, voice.highPass, voice.gate
      ensures log.heard == old(log.heard) + samples
      ensures overran <==> Overruns(|log.heard|, rate)
      ensures !overran ==>
                && Streaming() && Framing() && Remembers()
                && |assembly| < FRAME && log.raw == Resample(log.heard, rate)
                && |old(log.gains)| <= |log.gains|
                && log.gains == old(log.gains) + Repeat(gain, |log.gains| - |old(log.gains)|)
                && ready == old(ready) + FramesAfter(|old(log.gains)|)
    {
      Append(samples);
      overran := RebuildReadyFrames();
      if !overran {
        ghost var process := VoiceProcessor(voice.gate.sqrt);
        ResampleExtends(old(log.heard), samples, rate);
        QueueGrew(process, old(log.raw), old(log.gains), old(ready), log.raw, log.gains, ready);
        FinishedGrows(process, old(log.raw), old(log.gains), log.raw, log.gains);
      }
    }

    method Consume(samples: seq<real>) returns (overran: bool)
      requires Valid()
      modifies this`assembly, this`cursor, this`input, this`log, this`ready, voice.highPass, voice.gate
      ensures log.heard == old(log.heard) + samples
      ensures overran <==> Overruns(|log.heard|, rate)
      ensures !overran ==>
                && Valid() && |old(log.gains)| <= |log.gains| == |log.raw| / FRAME
                && log.gains == old(log.gains) + Repeat(gain, |log.gains| - |old(log.gains)|)
                && ready == Newest(old(ready) + FramesAfter(|old(log.gains)|))
    {
      overran := Absorb(samples);
      if !overran {
        FramesInRaw(|log.raw|, |log.gains|, |assembly|);
        ghost var all, before := AllFrames(), |log.gains| - |ready|;
        TrimQueue();
        StillAmong(all, before, |log.gains| - |ready|);
      }
    }

    /** Take in a chunk of device samples; a change of device rate starts afresh.  The result tells
        whether the drain ran past the buffered input, which aborts the original.  New frames carry the
        gain of this call, and the queue keeps the newest eight of its old frames and the new ones. */
    method Ingest(chunkRate: nat, samples: seq<real>) returns (overran: bool)
      requires Valid() && chunkRate >= 1
      modifies this, voice.highPass, voice.gate
      ensures samples == [] ==>
                rate == old(rate) && log == old(log) && ready == old(ready) && last == old(last) && !overran
      ensures gain == old(gain)
      ensures var kept := old(rate) == chunkRate;
              samples != [] ==>
                && rate == chunkRate
                && log.heard == (if kept then old(log.heard) else []) + samples
                && last == (if kept then old(last) else Silence)
                && (overran <==> Overruns(|log.heard|, chunkRate))
      ensures !overran ==> Valid()
      ensures var gains, queue := if old(rate) == chunkRate then old(log.gains) else [],
                                  if old(rate) == chunkRate then old(ready) else [];
              samples != [] && !overran ==>
                && |gains| <= |log.gains| == Count(|log.heard|, rate) / FRAME
                && log.gains == gains + Repeat(gain, |log.gains| - |gains|)
                && ready == Newest(queue + FramesAfter(|gains|))
    {
      if samples == [] {
        return false;
      }
      if rate != chunkRate {
        Reset(chunkRate);
      }
      overran := Consume(samples);
    }
  }

  /** What is queued: frame i is the voice processor's output for its stretch of everything heard,
      resampled, times the gain that was set when it was finished. */
  lemma QueueIsTheVoice(p: CapturePipeline, i: nat)
    requires p.Valid() && i < |p.ready|
    ensures var k := |p.log.gains| - |p.ready| + i;
            var raw := Resample(p.log.heard, p.rate);
            && 960 * |p.log.gains| <= |raw|
            && |p.ready| <= 8 && |p.ready[i]| == 960
            && CarriesGain(Processed(VoiceProcessor(p.voice.gate.sqrt), raw, |p.log.gains|).1[k], p.log.gains[k],
                           p.ready[i])
  {
    FrameLength(p.voice.gate.sqrt, p.log.raw, p.log.gains, |p.log.gains|, |p.log.gains| - |p.ready| + i);
    GainReachesEverySample(VoiceProcessor(p.voice.gate.sqrt), p.log.raw, p.log.gains,
                           |p.log.gains| - |p.ready| + i);
  }

  /** End to end: if no device sample since the last rate change exceeds `m`, no sample of a queued or
      repeated frame -- all the encoder ever sees -- exceeds 3.98 * m. */
  lemma EncodedFramesAreBounded(p: CapturePipeline, m: real)
    requires p.Valid() && SquareRoot(p.voice.gate.sqrt) && m >= 0.0 && AllWithin(p.log.heard, m)
    ensures forall i :: 0 <= i < |p.ready| ==> AllWithin(p.ready[i], 4.0 * ALPHA * m)
    ensures AllWithin(p.last, 4.0 * ALPHA * m)
  {
    var sqrt, raw, gains := p.voice.gate.sqrt, p.log.raw, p.log.gains;
    ResampleIsBounded(p.log.heard, p.rate, m);
    FramesAreBounded(sqrt, raw, gains, |gains|, m);
    var all := Finished(VoiceProcessor(sqrt), raw, gains);
    assert forall i :: 0 <= i < |gains| ==> AllWithin(all[i], 4.0 * ALPHA * m);
    RememberedIsBounded(p, all, 4.0 * ALPHA * m);
  }

  lemma RememberedIsBounded(p: CapturePipeline, all: seq<seq<real>>, bound: real)
    requires p.Valid() && all == p.AllFrames() && bound >= 0.0
    requires forall i :: 0 <= i < |all| ==> AllWithin(all[i], bound)
    ensures AllWithin(p.last, bound)
  {
    if p.last != Silence {
      var i :| 0 <= i < |p.log.gains| - |p.ready| && all[i] == p.last;
    }
  }

  lemma {:induction false} FrameLength(sqrt: real -> real, raw: seq<real>, gains: seq<real>, k: nat, i: nat)
    requires FRAME * k <= |raw| && k <= |gains| && i < k
    ensures |Shape(VoiceProcessor(sqrt), raw, gains, k).1[i]| == FRAME
  {
    if i < k - 1 {
      FrameLength(sqrt, raw, gains, k - 1, i);
    }
  }
}
