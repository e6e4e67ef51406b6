/** The two ends of a voice stream around the jitter buffer, from crates/voicersd/src/media.rs: the
    sender's counters and the receiver's playout loop. */
module Media {
  import opened Core
  import opened Jitter
  import opened JitterRuns

  const MAX_BURST: nat := 4

  // --- the sender ----------------------------------------------------------------------------

  /** The two numbers a frame carries; senders without sample timestamps leave the second at zero. */
  datatype Stamp = Stamp(sequence: nat, samples: nat)

  function NormalizeTimestamp(s: Stamp): nat {
    if s.samples != 0 then s.samples
    else (if s.sequence >= 1 then s.sequence - 1 else 0) * FRAME_SAMPLES
  }

  /** The stamp of a sender's frame number n, counted from zero. */
  function NthStamp(n: nat): Stamp { Stamp(n + 1, n * FRAME_SAMPLES) }

  class SendCounters {
    var nextSequence: nat
    var nextSamples: nat

    /** How many frames have been stamped. */
    ghost function Sent(): nat reads this { if nextSequence >= 1 then nextSequence - 1 else 0 }

    ghost predicate Valid()
      reads this
    {
      nextSequence >= 1 && NthStamp(Sent()) == Stamp(nextSequence, nextSamples)
    }

    constructor ()
      ensures Valid() && Sent() == 0
    {
      nextSequence, nextSamples := 1, 0;
    }

    method StampFrame() returns (s: Stamp)
      requires Valid()
      modifies this
      ensures Valid() && Sent() == old(Sent()) + 1
      ensures s == NthStamp(old(Sent())) == Stamp(old(Sent()) + 1, 960 * old(Sent()))
    {
      s := Stamp(nextSequence, nextSamples);
      nextSequence := nextSequence + 1;
      nextSamples := nextSamples + FRAME_SAMPLES;
    }
  }

  /** Frame n is placed at n * 960, with or without its sample timestamp, so the packets of any set of
      frames, in any order and with any losses, lie on the frame grid -- distinct frames apart. */
  lemma StampsLieOnTheGrid(n: nat, m: nat)
    ensures NormalizeTimestamp(NthStamp(n)) == NormalizeTimestamp(Stamp(n + 1, 0)) == n * 960
    ensures OnGrid(NormalizeTimestamp(NthStamp(n)))
    ensures n < m ==> NormalizeTimestamp(NthStamp(n)) + FRAME_SAMPLES <= NormalizeTimestamp(NthStamp(m))
  {
    assert n * FRAME_SAMPLES % FRAME_SAMPLES == 0;
  }

  /** A sample timestamp is taken as it is, whatever the sequence number; only without one do the numbers count,
      from one. */
  lemma TimestampMeaning(s: Stamp, n: nat)
    ensures s.samples > 0 ==> NormalizeTimestamp(s) == s.samples
    ensures s.samples == 0 && s.sequence == n + 1 ==> NormalizeTimestamp(s) == 960 * n
    ensures s.samples == 0 && s.sequence == 0 ==> NormalizeTimestamp(s) == 0
  {
    if s.sequence == n + 1 { StampsLieOnTheGrid(n, n); }
  }

  lemma SentFramesAreAligned(es: seq<Event>, numbers: seq<nat>)
    requires |numbers| == |es|
    requires forall i :: 0 <= i < |es| && es[i].Arrive? ==>
               es[i].packet.timestamp == NormalizeTimestamp(NthStamp(numbers[i]))
    ensures AllOnGrid(es)
    ensures var l := After(Start, es).l; l.gapFrames <= REBASE_FRAMES * (1 + l.gapEvictions)
  {
    forall i | 0 <= i < |es| && es[i].Arrive? ensures OnGrid(es[i].packet.timestamp) {
      StampsLieOnTheGrid(numbers[i], 0);
    }
    SynthesisIsBounded(es);
  }

  // --- the playout loop ------------------------------------------------------------------------

  /** Which polls of a burst, counted by those still allowed, yield no sound although a frame was due:
      the decoder, which is not modelled, failed on it and on its concealment. */
  type Silence = nat -> bool

  /** A poll of the buffer with `n` polls left, and the frame that is heard, if any.  The frame of a
      failed decoding is gone: the buffer has moved on. */
  function Heard(now: nat, silent: Silence): (nat, Jitter) -> (Jitter, Option<Decision>) {
    (n: nat, j: Jitter) =>
      if Sound(j) then
        var (a, d) := Decide(j, now);
        (a, if d.Hold? || silent(n) then None else Some(d))
      else (j, None)
  }

  /** At most `n` polls, up to the first that yields nothing. */
  function Burst<S, F>(poll: (nat, S) -> (S, Option<F>), s: S, n: nat): (r: (S, seq<F>))
    decreases n
  {
    if n == 0 then (s, [])
    else
      var (a, f) := poll(n, s);
      if f.None? then (a, [])
      else
        var (b, more) := Burst(poll, a, n - 1);
        (b, [f.value] + more)
  }

  /** A buffer that holds goes on holding at the same instant, and no longer changes. */
  lemma HoldIsStable(j: Jitter, now: nat)
    requires Sound(j) && Decide(j, now).1.Hold?
    ensures Sound(Decide(j, now).0)
    ensures Decide(Decide(j, now).0, now) == (Decide(j, now).0, Hold)
  {
    DecideSound(j, now);
    if Starts(j) { StartupPlaysAtOnce(j, now); }
    if j.next.Some? && now >= j.deadline.value { HeldEmission(Rebased(j, now), j, now); }
  }

  lemma HeldEmission(r: Jitter, j: Jitter, now: nat)
    requires Sound(j) && j.next.Some? && now >= j.deadline.value && r == Rebased(j, now)
    requires Emit(r, j.deadline.value, now).1.Hold?
    ensures r == j
    ensures Emit(r, j.deadline.value, now).0 == j || Emit(r, j.deadline.value, now).0.next.None?
  {
    EmitOutcome(r, j.deadline.value, now);
  }

  /** Polls lead from good states to good states, yield fine frames, and yield nothing only where it is
      quiet. */
  ghost predicate Keeps<S(!new), F(!new)>(poll: (nat, S) -> (S, Option<F>), good: S -> bool, fine: F -> bool,
                                          quiet: (nat, S) -> bool)
  {
    forall n: nat, s: S :: good(s) ==>
      var (a, f) := poll(n, s);
      good(a) && if f.Some? then fine(f.value) else quiet(n, a)
  }

  /** A burst yields at most `n` frames; if fewer, it ended where it is quiet. */
  lemma {:induction false} BurstStops<S(!new), F(!new)>(poll: (nat, S) -> (S, Option<F>), good: S -> bool,
                                                       fine: F -> bool, quiet: (nat, S) -> bool, s: S, n: nat)
    requires good(s) && Keeps(poll, good, fine, quiet)
    ensures var (a, fs) := Burst(poll, s, n);
            && good(a) && |fs| <= n && (forall i :: 0 <= i < |fs| ==> fine(fs[i]))
            && (|fs| < n ==> quiet(n - |fs|, a))
    decreases n
  {
    if n > 0 {
      var (a, f) := poll(n, s);
      if f.Some? {
        BurstStops(poll, good, fine, quiet, a, n - 1);
      }
    }
  }

  predicate IsFrame(d: Decision) { !d.Hold? }

  /** With `n` polls left: another poll would emit nothing, or decoding failed. */
  function Quiet(now: nat, silent: Silence): (nat, Jitter) -> bool {
    (n: nat, a: Jitter) => silent(n) || (Sound(a) && Decide(a, now) == (a, Hold))
  }

  lemma HeardIsSound(now: nat, silent: Silence, n: nat, j: Jitter)
    requires Sound(j)
    ensures var (a, f) := Heard(now, silent)(n, j);
            Sound(a) && if f.Some? then IsFrame(f.value) else Quiet(now, silent)(n, a)
  {
    DecideSound(j, now);
    if Decide(j, now).1.Hold? { HoldIsStable(j, now); }
  }

  lemma HeardKeepsSound(now: nat, silent: Silence)
    ensures Keeps(Heard(now, silent), Sound, IsFrame, Quiet(now, silent))
  {
    forall n: nat, j: Jitter | Sound(j)
      ensures var (a, f) := Heard(now, silent)(n, j);
              Sound(a) && if f.Some? then IsFrame(f.value) else Quiet(now, silent)(n, a)
    {
      HeardIsSound(now, silent, n, j);
    }
  }

  /** A burst that stops short has handed on everything that is due -- another poll at the same instant
      emits nothing -- unless a decoding failed.  Every decision in it is a frame. */
  lemma BurstDrains(j: Jitter, now: nat, silent: Silence, n: nat)
    requires Sound(j)
    ensures var (a, ds) := Burst(Heard(now, silent), j, n);
            && Sound(a) && |ds| <= n && (forall i :: 0 <= i < |ds| ==> IsFrame(ds[i]))
            && (|ds| < n ==> Quiet(now, silent)(n - |ds|, a))
  {
    HeardKeepsSound(now, silent);
    BurstStops(Heard(now, silent), Sound, IsFrame, Quiet(now, silent), j, n);
  }

  /** Poll number i of `budget` led from states[i] to states[i + 1] and yielded frames[i]. */
  predicate PolledAt<S(==), F(==)>(poll: (nat, S) -> (S, Option<F>), states: seq<S>, frames: seq<F>,
                                   budget: nat, i: nat)
    requires i < |frames| < |states| && |frames| <= budget
  {
    poll(budget - i, states[i]) == (states[i + 1], Some(frames[i]))
  }

  ghost predicate Polls<S(!new), F(!new)>(poll: (nat, S) -> (S, Option<F>), states: seq<S>, frames: seq<F>, budget: nat)
  {
    && |states| == |frames| + 1 && |frames| <= budget
    && (forall i: nat :: i < |frames| ==> PolledAt(poll, states, frames, budget, i))
  }

  lemma OneMorePoll<S(!new), F(!new)>(poll: (nat, S) -> (S, Option<F>), states: seq<S>, frames: seq<F>, budget: nat,
                                      a: S, f: F)
    requires Polls(poll, states, frames, budget) && |frames| < budget
    requires poll(budget - |frames|, states[|frames|]) == (a, Some(f))
    ensures Polls(poll, states + [a], frames + [f], budget)
  {
    forall i: nat | i < |frames| + 1 ensures PolledAt(poll, states + [a], frames + [f], budget, i) {
      if i < |frames| { assert PolledAt(poll, states, frames, budget, i); }
    }
  }

  /** The budget is used up, or the next poll yields nothing. */
  predicate Ends<S(==), F(==)>(poll: (nat, S) -> (S, Option<F>), s: S, n: nat, a: S) {
    if n == 0 then a == s else poll(n, s) == (a, None)
  }

  /** Polls that use up their budget, or end in one that yields nothing, are a burst -- as are the last
      of them. */
  lemma {:induction false} PollsAreABurst<S(!new), F(!new)>(poll: (nat, S) -> (S, Option<F>), states: seq<S>,
                                                           frames: seq<F>, budget: nat, a: S, i: nat)
    requires Polls(poll, states, frames, budget) && i <= |frames|
    requires Ends(poll, states[|frames|], budget - |frames|, a)
    ensures Burst(poll, states[i], budget - i) == (a, frames[i..])
    decreases |frames| - i
  {
    if i < |frames| {
      PollsAreABurst(poll, states, frames, budget, a, i + 1);
      assert PolledAt(poll, states, frames, budget, i);
      assert frames[i..] == [frames[i]] + frames[i + 1..];
    }
  }

  lemma PollsFromTheStart<S(!new), F(!new)>(poll: (nat, S) -> (S, Option<F>), states: seq<S>, frames: seq<F>,
                                            budget: nat, a: S, s: S)
    requires Polls(poll, states, frames, budget) && s == states[0]
    requires Ends(poll, states[|frames|], budget - |frames|, a)
    ensures (a, frames) == Burst(poll, s, budget)
  {
    PollsAreABurst(poll, states, frames, budget, a, 0);
    assert frames[0..] == frames;
  }

  /** What is heard of a poll is the buffer's decision, unless it holds or decoding fails. */
  lemma HeardIs(now: nat, silent: Silence, n: nat, j: Jitter, a: Jitter, d: Decision)
    requires Sound(j) && (a, d) == Decide(j, now)
    ensures Heard(now, silent)(n, j) == (a, if d.Hold? || silent(n) then None else Some(d))
  {
  }

  method PollFrame(buffer: JitterBuffer, now: nat, silent: Silence, left: nat,
                   ghost poll: (nat, Jitter) -> (Jitter, Option<Decision>))
    returns (frame: Option<Decision>)
    requires Sound(buffer.View()) && poll == Heard(now, silent)
    modifies buffer
    ensures Sound(buffer.View())
    ensures poll(left, old(buffer.View())) == (buffer.View(), frame)
  {
    var d := buffer.NextPlayoutDecision(now);
    HeardIs(now, silent, left, old(buffer.View()), buffer.View(), d);
    return if d.Hold? || silent(left) then None else Some(d);
  }

  method DrivePlayout(buffer: JitterBuffer, now: nat, silent: Silence) returns (frames: seq<Decision>)
    requires Sound(buffer.View())
    modifies buffer
    ensures Sound(buffer.View())
    ensures (buffer.View(), frames) == Burst(Heard(now, silent), old(buffer.View()), 4)
  {
    frames := [];
    ghost var poll, states := Heard(now, silent), [buffer.View()];
    var left := MAX_BURST;
    while left > 0
      invariant |frames| + left == MAX_BURST && Sound(buffer.View())
      invariant |states| == |frames| + 1 && states[0] == old(buffer.View()) && states[|frames|] == buffer.View()
      invariant Polls(poll, states, frames, MAX_BURST)
    {
      var frame := PollFrame(buffer, now, silent, left, poll);
      if frame.None? {
        PollsFromTheStart(poll, states, frames, MAX_BURST, buffer.View(), old(buffer.View()));
        return;
      }
      OneMorePoll(poll, states, frames, MAX_BURST, buffer.View(), frame.value);
      states := states + [buffer.View()];
      frames := frames + [frame.value];
      left := left - 1;
    }
    PollsFromTheStart(poll, states, frames, MAX_BURST, buffer.View(), old(buffer.View()));
  }
}
