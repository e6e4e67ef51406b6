/** Progress of the jitter buffer: when nothing arrives any more, polling drains it. */
module JitterProgress {
  import opened Core
  import opened Jitter
  import opened JitterRuns

  /** No epoch, and too few packets to start one: polls change nothing any more. */
  predicate Settled(j: Jitter) {
    j.next.None? && |j.pending| < j.depth
  }

  /** The due packet, if it is missing, has missed its grace period too. */
  predicate Ripe(j: Jitter, now: nat)
    requires Sound(j)
  {
    j.next.Some? && now >= j.deadline.value + LATE_GRACE_MS
  }

  /** Polls come no earlier than the deadline, which they may only just have reached. */
  predicate Punctual(j: Jitter, now: nat)
    requires Sound(j)
  {
    j.next.Some? ==> now >= j.deadline.value
  }

  /** What there is to do, in samples: a frame for the end of the epoch, at most six for each packet, and
      the gap before the first. */
  function Work(j: Jitter): nat
    requires Sound(j) && Aligned(j)
  {
    if Settled(j) then 0
    else if j.next.None? then FRAME_SAMPLES * 6 * |j.pending|
    else FRAME_SAMPLES * (1 + 6 * |j.pending|) + if j.pending == map[] then 0 else Lead(j)
  }

  lemma WorkIsBounded(j: Jitter)
    requires Sound(j) && Aligned(j)
    ensures Work(j) <= FRAME_SAMPLES * (6 * |j.pending| + 5)
  {
  }

  lemma SettledStays(j: Jitter, now: nat)
    requires Sound(j) && Settled(j)
    ensures Decide(j, now) == (j, Hold)
  {
  }

  /** A poll that comes late enough and emits nothing has ended the epoch. */
  lemma RipeHoldSettles(j: Jitter, now: nat)
    requires Sound(j) && Ripe(j, now) && Decide(j, now).1.Hold?
    ensures Settled(Decide(j, now).0)
  {
  }

  lemma PlayIsProgress(j: Jitter, now: nat, a: Jitter, p: Packet)
    requires Sound(j) && Sound(a) && Aligned(j) && Plays(j, now, a, p)
    ensures Aligned(a) && Work(a) + FRAME_SAMPLES <= Work(j)
  {
    PlayAligned(j, now, a, p);
    RemoveSize(j.pending, p.timestamp);
  }

  lemma SynthesisIsProgress(j: Jitter, now: nat, a: Jitter)
    requires Sound(j) && Sound(a) && Aligned(j) && Synthesizes(j, now, a)
    ensures Aligned(a) && Work(a) + FRAME_SAMPLES <= Work(j)
  {
    SynthesisLead(j, now, a);
  }

  lemma WaitIsAligned(j: Jitter, a: Jitter)
    requires Sound(j) && Aligned(j) && Waits(j, a)
    ensures Aligned(a)
  {
  }

  /** One poll of a buffer that is not settled: a frame's worth of work is done, or nothing happened
      because the due packet is in its grace period. */
  lemma PollProgress(j: Jitter, now: nat)
    requires Sound(j) && Aligned(j) && !Settled(j) && Punctual(j, now)
    ensures var a := Decide(j, now).0;
            && Sound(a) && Aligned(a)
            && (Work(a) + FRAME_SAMPLES <= Work(j) || (a == j && !Ripe(j, now)))
  {
    var (a, d) := Decide(j, now);
    DecideSound(j, now);
    PollOutcome(j, now);
    if d.Play? {
      PlayIsProgress(j, now, a, d.packet);
    } else if d.Hold? {
      WaitIsAligned(j, a);
      HoldEndsOrWaits(j, now);
    } else {
      SynthesisIsProgress(j, now, a);
    }
  }

  lemma HoldEndsOrWaits(j: Jitter, now: nat)
    requires Sound(j) && Aligned(j) && !Settled(j) && Punctual(j, now) && Decide(j, now).1.Hold?
    ensures Settled(Decide(j, now).0) || (Decide(j, now).0 == j && !Ripe(j, now))
    ensures j.next.Some?
  {
    if j.next.None? {
      StartupPlaysAtOnce(j, now);
    } else if Ripe(j, now) {
      RipeHoldSettles(j, now);
    } else {
      HeldInGrace(j, now);
    }
  }

  lemma HeldInGrace(j: Jitter, now: nat)
    requires Sound(j) && j.next.Some? && Punctual(j, now) && !Ripe(j, now) && Decide(j, now).1.Hold?
    ensures Decide(j, now).0 == j
  {
    EmitOutcome(Rebased(j, now), j.deadline.value, now);
  }

  /** The clock moves on by one frame per frame emitted, so polls a frame apart keep up with it. */
  lemma StaysPunctual(j: Jitter, now: nat, later: nat)
    requires Sound(j) && Punctual(j, now) && later >= now + FRAME_MS
    ensures var a := Decide(j, now).0;
            Sound(a) && Punctual(a, later) && (Ripe(j, now) && a.next.Some? ==> Ripe(a, later))
            && (a == j && a.next.Some? ==> Ripe(a, later))
  {
    DecideSound(j, now);
    PollOutcome(j, now);
  }

  // --- polls a frame apart ---------------------------------------------------------------------

  predicate FrameApart(nows: seq<nat>, from: nat)
    decreases |nows|
  {
    nows == [] || (nows[0] >= from && FrameApart(nows[1..], nows[0] + FRAME_MS))
  }

  function Polled(j: Jitter, nows: seq<nat>): (a: Jitter)
    requires Sound(j)
    ensures Sound(a)
    decreases |nows|
  {
    DecideSound(j, if nows == [] then 0 else nows[0]);
    if nows == [] then j else Polled(Decide(j, nows[0]).0, nows[1..])
  }

  lemma {:induction false} PolledSettled(j: Jitter, nows: seq<nat>)
    requires Sound(j) && Settled(j)
    ensures Polled(j, nows) == j
    decreases |nows|
  {
    if nows != [] {
      SettledStays(j, nows[0]);
      PolledSettled(j, nows[1..]);
    }
  }

  /** Polls suffice: one for each frame of work, and one that may fall into a grace period. */
  lemma {:induction false} PollsSettle(j: Jitter, nows: seq<nat>, from: nat)
    requires Sound(j) && Aligned(j) && FrameApart(nows, from) && Punctual(j, from)
    requires FRAME_SAMPLES * |nows| >= Work(j) + if Settled(j) || Ripe(j, from) then 0 else FRAME_SAMPLES
    ensures Settled(Polled(j, nows))
    decreases |nows|
  {
    if Settled(j) {
      PolledSettled(j, nows);
    } else {
      NotSettledHasWork(j);
      var now, a := nows[0], Decide(j, nows[0]).0;
      PollProgress(j, now);
      StaysPunctual(j, now, now + FRAME_MS);
      PollsSettle(a, nows[1..], now + FRAME_MS);
    }
  }

  lemma NotSettledHasWork(j: Jitter)
    requires Sound(j) && Aligned(j) && !Settled(j)
    ensures Work(j) >= FRAME_SAMPLES
  {
  }

  // --- after any run ---------------------------------------------------------------------------

  function Polls(nows: seq<nat>): seq<Event> {
    seq(|nows|, i requires 0 <= i < |nows| => Poll(nows[i]))
  }

  lemma {:induction false} PollsOnly(r: Run, nows: seq<nat>)
    requires Sound(r.j)
    ensures var a := After(r, Polls(nows));
            && a.j == Polled(r.j, nows)
            && a.l.offered == r.l.offered && a.l.late == r.l.late
            && a.l.duplicate == r.l.duplicate && a.l.evicted == r.l.evicted
    decreases |nows|
  {
    if nows != [] {
      assert Polls(nows)[0] == Poll(nows[0]) && Polls(nows)[1..] == Polls(nows[1..]);
      PollsOnly(Step(r, Poll(nows[0])), nows[1..]);
    }
  }

  lemma {:induction false} AfterTwo(r: Run, es: seq<Event>, fs: seq<Event>)
    requires Sound(r.j)
    ensures After(r, es + fs) == After(After(r, es), fs)
    decreases |es|
  {
    if es == [] {
      assert es + fs == fs;
    } else {
      assert (es + fs)[1..] == es[1..] + fs;
      AfterTwo(Step(r, es[0]), es[1..], fs);
    }
  }

  lemma Balance<T>(a: multiset<T>, played: multiset<T>, held: multiset<T>, played': multiset<T>, held': multiset<T>)
    requires a + played + held == a + played' + held'
    ensures played + held == played' + held'
  {
    forall x ensures (played + held)[x] == (played' + held')[x] {
      assert (a + played + held)[x] == (a + played' + held')[x];
    }
  }

  /** After any timely, aligned run, polls a frame apart -- six for each packet held, and six more -- play
      every packet that is held, except for fewer than the target depth: the rest waits for company that
      does not come.  Nothing is dropped. */
  lemma PollingDrainsTheBuffer(es: seq<Event>, nows: seq<nat>)
    requires Timely(0, es) && AllOnGrid(es)
    requires FrameApart(nows, After(Start, es).l.clock + FRAME_MS)
    requires |nows| >= 6 * |After(Start, es).j.pending| + 6
    ensures var r, a := After(Start, es), After(Start, es + Polls(nows));
            && Settled(a.j)
            && a.l.played + multiset(a.j.pending.Values) == r.l.played + multiset(r.j.pending.Values)
  {
    var r := After(Start, es);
    RunPaces(Start, es);
    RunBounds(Start, es);
    RunConserves(Start, es);
    WorkIsBounded(r.j);
    PollsSettle(r.j, nows, r.l.clock + FRAME_MS);
    AfterTwo(Start, es, Polls(nows));
    PollsOnly(r, nows);
    var a := After(r, Polls(nows));
    RunConserves(r, Polls(nows));
    Balance(r.l.late + r.l.duplicate + r.l.evicted, a.l.played, multiset(a.j.pending.Values),
            r.l.played, multiset(r.j.pending.Values));
  }
}
