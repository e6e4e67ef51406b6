/** What the jitter buffer guarantees over every interleaving of arrivals and playout polls. */
module JitterRuns {
  import opened Core
  import opened Jitter

  datatype Event = Arrive(packet: Packet) | Poll(now: nat)

  /** An epoch runs from a startup to the next underflow; `emitted` holds the timestamps of its frames. */
  datatype Epoch = Epoch(start: nat, depth: nat, emitted: seq<nat>)

  /** What an outside observer records.  None of it is read by the buffer. */
  datatype Ledger = Ledger(
    offered: multiset<Packet>,
    late: multiset<Packet>,
    duplicate: multiset<Packet>,
    evicted: multiset<Packet>,
    played: multiset<Packet>,
    rebases: nat,
    synthesized: nat,
    epoch: Option<Epoch>,
    clock: nat,
    gapFrames: nat,      // frames synthesized since a packet was last played
    gapEvictions: nat)   // packets evicted since a packet was last played

  const Blank: Ledger :=
    Ledger(multiset{}, multiset{}, multiset{}, multiset{}, multiset{}, 0, 0, None, 0, 0, 0)

  datatype Run = Run(j: Jitter, l: Ledger)

  const Start: Run := Run(Fresh, Blank)

  function RecordOffer(r: Run, p: Packet): Ledger {
    var l := r.l.(offered := r.l.offered + multiset{p});
    if IsLate(r.j, p) then l.(late := l.late + multiset{p})
    else
      var gone := Added(r.j.pending, p).Values - Offer(r.j, p).pending.Values;
      var l := if p.timestamp in r.j.pending then l.(duplicate := l.duplicate + multiset{p}) else l;
      l.(evicted := l.evicted + multiset(gone), gapEvictions := l.gapEvictions + |gone|)
  }

  /** The timestamps of the frames one decision emits: a packet's own, or that of the frame it stands for. */
  function FramesOf(j: Jitter, d: Decision): seq<nat> {
    match d
    case Hold => []
    case Play(p) => [p.timestamp]
    case _ => if j.next.Some? then [j.next.value] else []
  }

  function RecordDecision(r: Run, now: nat, after: Jitter, d: Decision): Ledger {
    var running := if r.l.epoch.Some? then r.l.epoch.value else Epoch(now, r.j.depth, []);
    var l := r.l.(
      clock := now,
      epoch := if after.next.None? then None
               else Some(running.(emitted := running.emitted + FramesOf(r.j, d))));
    match d
    case Hold => l
    case Play(p) =>
      l.(played := l.played + multiset{p}, gapFrames := 0, gapEvictions := 0,
         rebases := l.rebases + if r.j.next.Some? && p.timestamp != r.j.next.value then 1 else 0)
    case _ => l.(synthesized := l.synthesized + 1, gapFrames := l.gapFrames + 1)
  }

  function Step(r: Run, e: Event): (r': Run)
    requires Sound(r.j)
    ensures Sound(r'.j)
  {
    match e
    case Arrive(p) => OfferSound(r.j, p); Run(Offer(r.j, p), RecordOffer(r, p))
    case Poll(now) =>
      DecideSound(r.j, now);
      var (after, d) := Decide(r.j, now);
      Run(after, RecordDecision(r, now, after, d))
  }

  function After(r: Run, es: seq<Event>): (r': Run)
    requires Sound(r.j)
    ensures Sound(r'.j)
    decreases |es|
  {
    if es == [] then r else After(Step(r, es[0]), es[1..])
  }

  /** Instants are monotonic: no poll happens before an earlier one. */
  predicate Timely(clock: nat, es: seq<Event>)
    decreases |es|
  {
    es == [] || match es[0]
                case Arrive(_) => Timely(clock, es[1..])
                case Poll(now) => clock <= now && Timely(now, es[1..])
  }

  // --- the three outcomes of a poll ----------------------------------------------------------

  lemma StartupPlaysAtOnce(j: Jitter, now: nat)
    requires Sound(j) && Starts(j)
    ensures Decide(j, now).1 == Play(j.pending[Earliest(j.pending)])
  {
  }

  /** A packet is played: the due one, or the earliest one after a startup or a rebase. */
  predicate Plays(j: Jitter, now: nat, a: Jitter, p: Packet)
    requires Sound(j)
  {
    var t := p.timestamp;
    && t in j.pending && p == j.pending[t] && a.pending == j.pending - {t}
    && a.next == Some(t + FRAME_SAMPLES)
    && a.late == j.late && a.lost == j.lost && a.concealed == j.concealed
    && (if j.next.None? then
          && Starts(j) && t == Earliest(j.pending) && a.drift == j.drift
          && a.deadline == Some(StartDeadline(now, j.depth) + FRAME_MS)
        else
          && now >= j.deadline.value && a.deadline == Some(j.deadline.value + FRAME_MS)
          && a.drift == j.drift + (if t == j.next.value then 0 else 1)
          && (t == j.next.value || (GapTooLarge(j) && t == Earliest(j.pending))))
  }

  /** A frame is synthesized in place of the due packet, which is missing past its grace period. */
  predicate Synthesizes(j: Jitter, now: nat, a: Jitter)
    requires Sound(j)
  {
    && j.next.Some? && now >= j.deadline.value + LATE_GRACE_MS
    && j.next.value !in j.pending && !GapTooLarge(j) && |j.pending| >= j.depth
    && a.pending == j.pending && a.next == Some(j.next.value + FRAME_SAMPLES)
    && a.deadline == Some(j.deadline.value + FRAME_MS)
    && a.late == j.late && a.drift == j.drift
    && a.lost == j.lost + 1 && a.concealed == j.concealed + 1
  }

  /** Nothing is emitted: the clock waits, or an epoch ends for want of packets. */
  predicate Waits(j: Jitter, a: Jitter)
    requires Sound(j)
  {
    && !Starts(j) && a.pending == j.pending
    && a.late == j.late && a.drift == j.drift && a.lost == j.lost && a.concealed == j.concealed
    && ((a.next == j.next && a.deadline == j.deadline)
        || (j.next.Some? && a.next.None? && a.deadline.None?
            && |j.pending| < j.depth && j.next.value !in j.pending))
  }

  predicate Outcome(j: Jitter, now: nat, a: Jitter, d: Decision)
    requires Sound(j)
  {
    match d
    case Hold => Waits(j, a)
    case Play(p) => Plays(j, now, a, p)
    case Fec(recovery) =>
      && Synthesizes(j, now, a) && j.next.value + FRAME_SAMPLES in j.pending
      && recovery == j.pending[j.next.value + FRAME_SAMPLES].payload
    case Conceal => Synthesizes(j, now, a) && j.next.value + FRAME_SAMPLES !in j.pending
  }

  lemma EmitOutcome(r: Jitter, deadline: nat, now: nat)
    requires r.next.Some?
    ensures var (a, d) := Emit(r, deadline, now);
            match d
            case Play(p) =>
              && r.next.value in r.pending && p == r.pending[r.next.value]
              && a.pending == r.pending - {r.next.value} && a.next == Some(r.next.value + FRAME_SAMPLES)
              && a.deadline == Some(deadline + FRAME_MS)
              && a.late == r.late && a.lost == r.lost && a.concealed == r.concealed && a.drift == r.drift
            case Hold => r.next.value !in r.pending && a.pending == r.pending
              && a.late == r.late && a.lost == r.lost && a.concealed == r.concealed && a.drift == r.drift
              && (a == r || (a.next.None? && a.deadline.None? && |r.pending| < r.depth))
            case _ =>
              && (d == if r.next.value + FRAME_SAMPLES in r.pending
                       then Fec(r.pending[r.next.value + FRAME_SAMPLES].payload) else Conceal)
              && r.next.value !in r.pending && |r.pending| >= r.depth && now >= deadline + LATE_GRACE_MS
              && a.pending == r.pending && a.next == Some(r.next.value + FRAME_SAMPLES)
              && a.deadline == Some(deadline + FRAME_MS)
              && a.late == r.late && a.drift == r.drift
              && a.lost == r.lost + 1 && a.concealed == r.concealed + 1
  {
  }

  lemma StartOutcome(j: Jitter, now: nat)
    requires Sound(j) && Starts(j)
    ensures Outcome(j, now, Decide(j, now).0, Decide(j, now).1)
  {
    StartupPlaysAtOnce(j, now);
  }

  /** A frame is due: what follows the rebase, in terms of the buffer before it. */
  lemma DueOutcome(j: Jitter, now: nat, a: Jitter, d: Decision)
    requires Sound(j) && j.next.Some? && now >= j.deadline.value
    requires (a, d) == Emit(Rebased(j, now), j.deadline.value, now)
    ensures Outcome(j, now, a, d)
  {
    EmitOutcome(Rebased(j, now), j.deadline.value, now);
  }

  lemma PollOutcome(j: Jitter, now: nat)
    requires Sound(j)
    ensures Outcome(j, now, Decide(j, now).0, Decide(j, now).1)
  {
    if Starts(j) {
      StartOutcome(j, now);
    } else if j.next.Some? && now >= j.deadline.value {
      DueOutcome(j, now, Decide(j, now).0, Decide(j, now).1);
    }
  }

  // --- conservation --------------------------------------------------------------------------

  lemma {:induction false} DistinctPackets(q: Queue)
    requires Keyed(q)
    ensures |q.Values| == |q|
    decreases |q|
  {
    if q == map[] {
      assert q.Values == {};
    } else {
      var k := Earliest(q);
      RemoveSize(q, k);
      DistinctPackets(q - {k});
      WithoutOne(q, k);
    }
  }

  lemma WithoutOne(q: Queue, k: nat)
    requires Keyed(q) && k in q
    ensures (q - {k}).Values == q.Values - {q[k]}
    ensures multiset((q - {k}).Values) + multiset{q[k]} == multiset(q.Values)
  {
    var rest := q - {k};
    forall v | v in q.Values - {q[k]} ensures v in rest.Values {
      var h :| h in q && q[h] == v;
      assert h in rest && rest[h] == v;
    }
    forall v | v in rest.Values ensures v in q.Values - {q[k]} {
      var h :| h in rest && rest[h] == v;
      assert q[h] == v;
    }
  }

  lemma WithOneMore(q: Queue, p: Packet)
    requires Keyed(q) && p.timestamp !in q
    ensures multiset(q[p.timestamp := p].Values) == multiset(q.Values) + multiset{p}
  {
    var r := q[p.timestamp := p];
    assert Keyed(r) && p.timestamp in r;
    assert r - {p.timestamp} == q;
    WithoutOne(r, p.timestamp);
  }

  lemma EvictedPart(big: Queue, kept: Queue)
    requires Keyed(big) && kept.Keys <= big.Keys
    requires forall k :: k in kept ==> kept[k] == big[k]
    ensures multiset(kept.Values) + multiset(big.Values - kept.Values) == multiset(big.Values)
    ensures |big.Values - kept.Values| == |big| - |kept|
  {
    forall v | v in kept.Values ensures v in big.Values {
      var h :| h in kept && kept[h] == v;
      assert big[h] == v;
    }
    assert kept.Values + (big.Values - kept.Values) == big.Values;
    assert Keyed(kept);
    DistinctPackets(big);
    DistinctPackets(kept);
  }

  /** Each packet offered has met exactly one fate, and the counters agree with the observer. */
  predicate Conserved(r: Run) {
    && r.l.offered == r.l.late + r.l.duplicate + r.l.evicted + r.l.played + multiset(r.j.pending.Values)
    && r.j.late == |r.l.late|
    && r.j.drift == |r.l.evicted| + r.l.rebases
    && r.j.lost == r.l.synthesized
    && r.j.concealed == r.l.synthesized
  }

  /** Everything an arrival in time does to the accounts: `gone` leaves, and `p` joins unless it is a
      duplicate. */
  predicate Accounted(r: Run, p: Packet, gone: set<Packet>, a: Run) {
    var repeated := p.timestamp in r.j.pending;
    && a.l.offered == r.l.offered + multiset{p}
    && a.l.duplicate == r.l.duplicate + (if repeated then multiset{p} else multiset{})
    && a.l.evicted == r.l.evicted + multiset(gone)
    && a.l.late == r.l.late && a.l.played == r.l.played
    && a.l.rebases == r.l.rebases && a.l.synthesized == r.l.synthesized
    && a.j.late == r.j.late && a.j.lost == r.j.lost && a.j.concealed == r.j.concealed
    && a.j.drift == r.j.drift + |gone|
    && multiset(a.j.pending.Values) + multiset(gone)
       == multiset(r.j.pending.Values) + (if repeated then multiset{} else multiset{p})
  }

  lemma Transfer<T>(late: multiset<T>, repeated: multiset<T>, evicted: multiset<T>, played: multiset<T>,
                    held: multiset<T>, gone: multiset<T>, kept: multiset<T>, again: multiset<T>, joining: multiset<T>)
    requires kept + gone == held + joining
    ensures late + repeated + evicted + played + held + (again + joining)
            == late + (repeated + again) + (evicted + gone) + played + kept
  {
    var a := late + repeated + evicted + played + held + (again + joining);
    var b := late + (repeated + again) + (evicted + gone) + played + kept;
    forall x ensures a[x] == b[x] {
      assert (kept + gone)[x] == (held + joining)[x];
    }
  }

  lemma AccountsBalance(r: Run, p: Packet, gone: set<Packet>, a: Run)
    requires Conserved(r) && Accounted(r, p, gone, a)
    ensures Conserved(a)
  {
    var none: multiset<Packet> := multiset{};
    var repeated := p.timestamp in r.j.pending;
    var again, joining := if repeated then multiset{p} else none, if repeated then none else multiset{p};
    Transfer(r.l.late, r.l.duplicate, r.l.evicted, r.l.played, multiset(r.j.pending.Values), multiset(gone),
             multiset(a.j.pending.Values), again, joining);
    assert again + joining == multiset{p};
    assert |a.l.evicted| == |r.l.evicted| + |gone|;
  }

  lemma OfferIsAccounted(r: Run, p: Packet)
    requires Sound(r.j) && !IsLate(r.j, p)
    ensures var gone := Added(r.j.pending, p).Values - Offer(r.j, p).pending.Values;
            Accounted(r, p, gone, Run(Offer(r.j, p), RecordOffer(r, p)))
  {
    var added := Added(r.j.pending, p);
    EvictionShape(added, r.j.next);
    EvictedPart(added, Evict(added, r.j.next));
    if p.timestamp !in r.j.pending {
      WithOneMore(r.j.pending, p);
    }
  }

  lemma OfferConserves(r: Run, p: Packet)
    requires Sound(r.j) && Conserved(r)
    ensures Conserved(Run(Offer(r.j, p), RecordOffer(r, p)))
  {
    if !IsLate(r.j, p) {
      var gone := Added(r.j.pending, p).Values - Offer(r.j, p).pending.Values;
      OfferIsAccounted(r, p);
      AccountsBalance(r, p, gone, Run(Offer(r.j, p), RecordOffer(r, p)));
    }
  }

  lemma DecisionConserves(r: Run, now: nat, a: Jitter, d: Decision)
    requires Sound(r.j) && Conserved(r)
    requires Outcome(r.j, now, a, d)
    ensures Conserved(Run(a, RecordDecision(r, now, a, d)))
  {
    if d.Play? {
      WithoutOne(r.j.pending, d.packet.timestamp);
    }
  }

  lemma StepConserves(r: Run, e: Event)
    requires Sound(r.j) && Conserved(r)
    ensures Conserved(Step(r, e))
  {
    match e
    case Arrive(p) => OfferConserves(r, p);
    case Poll(now) =>
      PollOutcome(r.j, now);
      var (a, d) := Decide(r.j, now);
      DecisionConserves(r, now, a, d);
  }

  lemma {:induction false} RunConserves(r: Run, es: seq<Event>)
    requires Sound(r.j) && Conserved(r)
    ensures Conserved(After(r, es))
    decreases |es|
  {
    if es != [] {
      StepConserves(r, es[0]);
      RunConserves(Step(r, es[0]), es[1..]);
    }
  }

  /** Conservation over every run, with no assumption on timestamps or on the clock. */
  lemma EveryPacketMeetsOneFate(es: seq<Event>)
    ensures Sound(After(Start, es).j)
    ensures Conserved(After(Start, es))
  {
    RunConserves(Start, es);
  }

  // --- pacing and order ----------------------------------------------------------------------

  predicate Increasing(s: seq<nat>) {
    forall i, k :: 0 <= i < k < |s| ==> s[i] < s[k]
  }

  /** The running epoch: n frames so far, the n-th no sooner than its slot, in timestamp order. */
  predicate Paced(r: Run) {
    && (r.l.epoch.Some? <==> r.j.next.Some?)
    && (r.j.next.Some? <==> r.j.deadline.Some?)
    && (r.l.epoch.Some? ==>
          var e := r.l.epoch.value;
          var n := |e.emitted|;
          var first := StartDeadline(e.start, e.depth);
          && n >= 1 && e.depth >= MIN_DEPTH
          && r.j.deadline.value == first + FRAME_MS * n
          && r.l.clock >= first + FRAME_MS * (n - 1)
          && r.l.clock >= e.start
          && Increasing(e.emitted)
          && r.j.next.value == e.emitted[n - 1] + FRAME_SAMPLES)
  }

  lemma DecisionPaces(r: Run, now: nat, a: Jitter, d: Decision)
    requires Sound(r.j) && Paced(r) && now >= r.l.clock
    requires Outcome(r.j, now, a, d)
    ensures Paced(Run(a, RecordDecision(r, now, a, d)))
  {
    if d.Play? && r.j.next.Some? {
      assert d.packet.timestamp >= r.j.next.value;
    }
  }

  lemma OfferPaces(r: Run, a: Jitter, l: Ledger)
    requires Paced(r) && a.next == r.j.next && a.deadline == r.j.deadline
    requires l.epoch == r.l.epoch && l.clock == r.l.clock
    ensures Paced(Run(a, l))
  {
  }

  lemma StepPaces(r: Run, e: Event)
    requires Sound(r.j) && Paced(r)
    requires e.Poll? ==> e.now >= r.l.clock
    ensures Paced(Step(r, e))
  {
    match e
    case Arrive(p) => OfferPaces(r, Offer(r.j, p), RecordOffer(r, p));
    case Poll(now) =>
      PollOutcome(r.j, now);
      var (a, d) := Decide(r.j, now);
      DecisionPaces(r, now, a, d);
  }

  lemma {:induction false} RunPaces(r: Run, es: seq<Event>)
    requires Sound(r.j) && Paced(r) && Timely(r.l.clock, es)
    ensures Paced(After(r, es))
    decreases |es|
  {
    if es != [] {
      StepPaces(r, es[0]);
      RunPaces(Step(r, es[0]), es[1..]);
    }
  }

  /** In an epoch started at `start` with target depth D, at most (now - start) / 20 + D frames have
      been emitted by any instant `now`, whatever was rebased, recovered or concealed, and their
      timestamps strictly increase. */
  lemma PlayoutNeverRunsAhead(es: seq<Event>, now: nat)
    requires Timely(0, es)
    ensures var r := After(Start, es);
            r.l.epoch.Some? && now >= r.l.clock ==>
              var e := r.l.epoch.value;
              && |e.emitted| <= (now - e.start) / FRAME_MS + e.depth
              && Increasing(e.emitted)
  {
    RunPaces(Start, es);
  }

  lemma NothingHeld(q: Queue)
    ensures q == map[] <==> multiset(q.Values) == multiset{}
  {
    if q != map[] {
      var k :| k in q;
      assert q[k] in q.Values && q[k] in multiset(q.Values);
    } else {
      assert q.Values == {};
    }
  }

  /** The stream state that is reported: active exactly during an epoch, and idle exactly when, outside
      an epoch, every packet that came has met its fate. */
  lemma StreamStateIsHonest(es: seq<Event>)
    requires Timely(0, es)
    ensures var r := After(Start, es);
            && (State(r.j).Active? <==> r.l.epoch.Some?)
            && (State(r.j).Idle? <==>
                  r.l.epoch.None? && r.l.offered == r.l.late + r.l.duplicate + r.l.evicted + r.l.played)
  {
    var r := After(Start, es);
    RunPaces(Start, es);
    RunConserves(Start, es);
    NothingHeld(r.j.pending);
    var gone := r.l.late + r.l.duplicate + r.l.evicted + r.l.played;
    if r.l.offered == gone {
      assert |gone + multiset(r.j.pending.Values)| == |gone|;
    }
  }

  // --- an in-time packet is never lost -------------------------------------------------------

  /** The packet due next is already in the buffer. */
  predicate InTime(j: Jitter) {
    j.next.Some? && j.next.value in j.pending
  }

  /** The first decision of a run that emits a frame. */
  function FirstFrame(j: Jitter, es: seq<Event>): Option<Decision>
    requires Sound(j)
    decreases |es|
  {
    if es == [] then None
    else match es[0]
         case Arrive(p) => OfferSound(j, p); FirstFrame(Offer(j, p), es[1..])
         case Poll(now) =>
           DecideSound(j, now);
           var (a, d) := Decide(j, now);
           if d != Hold then Some(d) else FirstFrame(a, es[1..])
  }

  predicate Ripens(es: seq<Event>, deadline: nat) {
    exists i :: 0 <= i < |es| && es[i].Poll? && es[i].now >= deadline
  }

  lemma RipensTail(es: seq<Event>, deadline: nat)
    requires es != [] && !(es[0].Poll? && es[0].now >= deadline)
    ensures Ripens(es, deadline) <==> Ripens(es[1..], deadline)
  {
    if Ripens(es, deadline) {
      var i :| 0 <= i < |es| && es[i].Poll? && es[i].now >= deadline;
      assert es[1..][i - 1] == es[i];
    }
  }

  lemma OfferKeepsInTime(j: Jitter, p: Packet)
    requires Sound(j) && InTime(j)
    ensures InTime(Offer(j, p))
    ensures Offer(j, p).next == j.next && Offer(j, p).deadline == j.deadline
    ensures Offer(j, p).pending[j.next.value] == j.pending[j.next.value]
  {
    EvictionShape(Added(j.pending, p), j.next);
  }

  lemma PollKeepsInTime(j: Jitter, now: nat)
    requires Sound(j) && InTime(j)
    ensures now < j.deadline.value ==> Decide(j, now) == (j, Hold)
    ensures now >= j.deadline.value ==> Decide(j, now).1 == Play(j.pending[j.next.value])
  {
  }

  /** Whatever arrives meanwhile, aligned or not, late, duplicate or overflowing: the packet that is
      due is neither evicted nor overwritten nor concealed.  The next frame is that very packet, and
      it comes exactly when some poll reaches the deadline. */
  lemma {:induction false} InTimePacketIsPlayedNext(j: Jitter, es: seq<Event>)
    requires Sound(j) && InTime(j)
    ensures FirstFrame(j, es) ==
            if Ripens(es, j.deadline.value) then Some(Play(j.pending[j.next.value])) else None
    decreases |es|
  {
    if es != [] {
      match es[0]
      case Arrive(p) =>
        OfferSound(j, p);
        OfferKeepsInTime(j, p);
        RipensTail(es, j.deadline.value);
        InTimePacketIsPlayedNext(Offer(j, p), es[1..]);
      case Poll(now) =>
        PollKeepsInTime(j, now);
        if now < j.deadline.value {
          RipensTail(es, j.deadline.value);
          InTimePacketIsPlayedNext(j, es[1..]);
        }
    }
  }

  /** The packet whose redundancy fed a recovered frame is the next one played. */
  lemma FecSourceIsPlayedNext(j: Jitter, now: nat, es: seq<Event>)
    requires Sound(j) && Decide(j, now).1.Fec?
    ensures Sound(Decide(j, now).0)
    ensures var (a, d) := Decide(j, now);
            && InTime(a)
            && d.recovery == a.pending[a.next.value].payload
            && (FirstFrame(a, es) == None || FirstFrame(a, es) == Some(Play(a.pending[a.next.value])))
  {
    DecideSound(j, now);
    PollOutcome(j, now);
    InTimePacketIsPlayedNext(Decide(j, now).0, es);
  }

  // --- how much audio can be synthesized -----------------------------------------------------

  predicate OnGrid(t: nat) {
    t % FRAME_SAMPLES == 0
  }

  predicate AllOnGrid(es: seq<Event>) {
    forall i :: 0 <= i < |es| && es[i].Arrive? ==> OnGrid(es[i].packet.timestamp)
  }

  /** With frame-aligned packets nothing older than the due frame is ever held. */
  predicate Aligned(j: Jitter) {
    && (forall k :: k in j.pending ==> OnGrid(k))
    && (j.next.Some? ==> OnGrid(j.next.value) && forall k :: k in j.pending ==> j.next.value <= k)
  }

  const GAP: nat := FRAME_SAMPLES * REBASE_FRAMES

  /** How far ahead the earliest packet lies, as far as it matters: beyond GAP a rebase plays it. */
  function Lead(j: Jitter): nat
    requires j.next.Some? && Aligned(j) && j.pending != map[]
  {
    var ahead := Earliest(j.pending) - j.next.value;
    if ahead <= GAP then ahead else GAP
  }

  predicate Bounded(r: Run) {
    && Aligned(r.j)
    && r.l.gapFrames <= REBASE_FRAMES * (1 + r.l.gapEvictions)
    && (r.j.next.Some? && r.l.gapFrames > 0 ==>
          && r.j.pending != map[]
          && FRAME_SAMPLES * r.l.gapFrames + Lead(r.j) <= GAP * (1 + r.l.gapEvictions))
  }

  lemma OfferAligned(j: Jitter, p: Packet)
    requires Sound(j) && Aligned(j) && OnGrid(p.timestamp)
    ensures Aligned(Offer(j, p))
  {
    EvictionShape(Added(j.pending, p), j.next);
  }

  lemma OfferLead(j: Jitter, p: Packet)
    requires Sound(j) && Aligned(j) && OnGrid(p.timestamp)
    requires j.next.Some? && j.pending != map[]
    ensures Aligned(Offer(j, p)) && Offer(j, p).pending != map[]
    ensures Lead(Offer(j, p)) <= GAP
    ensures Offer(j, p).pending.Keys >= j.pending.Keys ==> Lead(Offer(j, p)) <= Lead(j)
  {
    OfferAligned(j, p);
    EvictionShape(Added(j.pending, p), j.next);
  }

  lemma OfferRecord(r: Run, p: Packet)
    requires Sound(r.j)
    ensures var l := RecordOffer(r, p);
            && l.gapFrames == r.l.gapFrames && l.gapEvictions >= r.l.gapEvictions
            && (l.gapEvictions == r.l.gapEvictions ==> Offer(r.j, p).pending.Keys >= r.j.pending.Keys)
  {
    if !IsLate(r.j, p) {
      var added := Added(r.j.pending, p);
      var kept := Evict(added, r.j.next);
      EvictionShape(added, r.j.next);
      EvictedPart(added, kept);
      if |added.Values - kept.Values| == 0 {
        NothingGone(added, kept);
      }
    }
  }

  lemma BoundAfterOffer(r: Run, a: Jitter, l: Ledger)
    requires Bounded(r) && Aligned(a) && a.next == r.j.next
    requires l.gapFrames == r.l.gapFrames && l.gapEvictions >= r.l.gapEvictions
    requires r.j.next.Some? && r.j.pending != map[] ==>
               && a.pending != map[]
               && (l.gapEvictions == r.l.gapEvictions ==> Lead(a) <= Lead(r.j))
    ensures Bounded(Run(a, l))
  {
  }

  lemma OfferBounds(r: Run, p: Packet)
    requires Sound(r.j) && Bounded(r) && OnGrid(p.timestamp)
    ensures Bounded(Step(r, Arrive(p)))
  {
    OfferAligned(r.j, p);
    OfferRecord(r, p);
    if r.j.next.Some? && r.j.pending != map[] {
      OfferLead(r.j, p);
    }
    BoundAfterOffer(r, Offer(r.j, p), RecordOffer(r, p));
  }

  lemma NothingGone(big: Queue, kept: Queue)
    requires kept.Keys <= big.Keys && |big| == |kept|
    ensures kept.Keys == big.Keys
  {
    if k :| k in big && k !in kept {
      assert kept.Keys <= big.Keys - {k};
      SubsetSize(kept.Keys, big.Keys - {k});
    }
  }

  lemma PlayedIsFirst(j: Jitter, now: nat, a: Jitter, p: Packet)
    requires Sound(j) && Aligned(j) && Plays(j, now, a, p)
    ensures OnGrid(p.timestamp) && forall k :: k in j.pending ==> p.timestamp <= k
  {
    if j.next.None? || p.timestamp != j.next.value {
      assert p.timestamp == Earliest(j.pending);
    }
  }

  lemma NextOnGrid(t: nat, k: nat)
    requires OnGrid(t) && OnGrid(k) && t <= k && t != k
    ensures t + FRAME_SAMPLES <= k && OnGrid(t + FRAME_SAMPLES)
  {
  }

  /** The clock steps from `t` to the next frame; every packet left lies beyond `t`. */
  lemma AlignedFrom(j: Jitter, t: nat, a: Jitter)
    requires Aligned(j) && OnGrid(t) && forall k :: k in j.pending ==> t <= k
    requires a.pending == j.pending - {t} && a.next == Some(t + FRAME_SAMPLES)
    ensures Aligned(a)
  {
    forall k | k in a.pending ensures OnGrid(k) && t + FRAME_SAMPLES <= k {
      assert k in j.pending && k != t;
      NextOnGrid(t, k);
    }
    assert OnGrid(t + FRAME_SAMPLES);
  }

  lemma PlayAligned(j: Jitter, now: nat, a: Jitter, p: Packet)
    requires Sound(j) && Aligned(j) && Plays(j, now, a, p)
    ensures Aligned(a)
  {
    PlayedIsFirst(j, now, a, p);
    AlignedFrom(j, p.timestamp, a);
  }

  lemma SynthesisAligned(j: Jitter, now: nat, a: Jitter)
    requires Sound(j) && Aligned(j) && Synthesizes(j, now, a)
    ensures Aligned(a)
  {
    var t := j.next.value;
    forall k | k in j.pending ensures OnGrid(k) && t + FRAME_SAMPLES <= k {
      NextOnGrid(t, k);
    }
    assert OnGrid(t + FRAME_SAMPLES);
  }

  lemma SynthesisLead(j: Jitter, now: nat, a: Jitter)
    requires Sound(j) && Aligned(j) && Synthesizes(j, now, a)
    ensures Aligned(a) && a.pending != map[] && j.pending != map[]
    ensures Lead(a) + FRAME_SAMPLES == Lead(j)
  {
    SynthesisAligned(j, now, a);
    assert j.pending != map[];
    assert Earliest(a.pending) == Earliest(j.pending);
  }

  lemma DecisionBounds(r: Run, now: nat, a: Jitter, d: Decision)
    requires Sound(r.j) && Bounded(r)
    requires Outcome(r.j, now, a, d)
    ensures Bounded(Run(a, RecordDecision(r, now, a, d)))
  {
    match d
    case Hold =>
    case Play(p) => PlayAligned(r.j, now, a, p);
    case _ => SynthesisLead(r.j, now, a);
  }

  lemma StepBounds(r: Run, e: Event)
    requires Sound(r.j) && Bounded(r)
    requires e.Arrive? ==> OnGrid(e.packet.timestamp)
    ensures Bounded(Step(r, e))
  {
    match e
    case Arrive(p) => OfferBounds(r, p);
    case Poll(now) =>
      PollOutcome(r.j, now);
      var (a, d) := Decide(r.j, now);
      DecisionBounds(r, now, a, d);
  }

  lemma {:induction false} RunBounds(r: Run, es: seq<Event>)
    requires Sound(r.j) && Bounded(r) && AllOnGrid(es)
    ensures Bounded(After(r, es))
    decreases |es|
  {
    if es != [] {
      StepBounds(r, es[0]);
      RunBounds(Step(r, es[0]), es[1..]);
    }
  }

  /** Between two played packets at most four frames are synthesized for each packet evicted in
      between, plus four: with no eviction, at most four. */
  lemma SynthesisIsBounded(es: seq<Event>)
    requires AllOnGrid(es)
    ensures var l := After(Start, es).l;
            l.gapFrames <= REBASE_FRAMES * (1 + l.gapEvictions)
  {
    RunBounds(Start, es);
  }

  // --- machine words -------------------------------------------------------------------------

  predicate Below(j: Jitter, bound: nat) {
    && (forall k :: k in j.pending ==> k <= bound)
    && (j.next.Some? ==> j.next.value <= bound + FRAME_SAMPLES)
  }

  lemma OfferBelow(j: Jitter, p: Packet, bound: nat)
    requires Sound(j) && Below(j, bound) && p.timestamp <= bound
    ensures Below(Offer(j, p), bound)
  {
    EvictionShape(Added(j.pending, p), j.next);
  }

  lemma DecisionBelow(j: Jitter, now: nat, a: Jitter, d: Decision, bound: nat)
    requires Sound(j) && Aligned(j) && Below(j, bound) && Outcome(j, now, a, d)
    ensures Below(a, bound)
  {
    if d.Fec? || d.Conceal? {
      SynthesisLead(j, now, a);
      assert Earliest(j.pending) <= bound;
    }
  }

  lemma {:induction false} RunBelow(r: Run, es: seq<Event>, bound: nat)
    requires Sound(r.j) && Bounded(r) && AllOnGrid(es) && Below(r.j, bound)
    requires forall i :: 0 <= i < |es| && es[i].Arrive? ==> es[i].packet.timestamp <= bound
    ensures Below(After(r, es).j, bound)
    decreases |es|
  {
    if es != [] {
      StepBounds(r, es[0]);
      match es[0]
      case Arrive(p) =>
        OfferBelow(r.j, p, bound);
        RunBelow(Step(r, es[0]), es[1..], bound);
      case Poll(now) =>
        PollOutcome(r.j, now);
        DecisionBelow(r.j, now, Decide(r.j, now).0, Decide(r.j, now).1, bound);
        RunBelow(Step(r, es[0]), es[1..], bound);
    }
  }

  /** Concealment never walks past the packets: with aligned timestamps at most `bound`, every sum a
      poll forms fits in 64 bits as soon as bound + 4800 does, so naturals stand for `u64` safely. */
  lemma TimestampsFitInWords(es: seq<Event>, bound: nat)
    requires AllOnGrid(es)
    requires forall i :: 0 <= i < |es| && es[i].Arrive? ==> es[i].packet.timestamp <= bound
    requires bound + FRAME_SAMPLES + GAP < 0x1_0000_0000_0000_0000
    ensures var j := After(Start, es).j;
            j.next.Some? ==> j.next.value + GAP < 0x1_0000_0000_0000_0000
  {
    RunBelow(Start, es, bound);
  }

  // --- both hypotheses of the synthesis bound are needed ---------------------------------------

  lemma {:induction false} AfterSnoc(r: Run, es: seq<Event>, e: Event)
    requires Sound(r.j)
    ensures After(r, es + [e]) == Step(After(r, es), e)
    decreases |es|
  {
    if es == [] {
      assert es + [e] == [e];
      assert [e][1..] == [];
    } else {
      assert (es + [e])[1..] == es[1..] + [e];
      AfterSnoc(Step(r, es[0]), es[1..], e);
    }
  }

  lemma {:induction false} TimelySnoc(r: Run, es: seq<Event>, e: Event)
    requires Sound(r.j) && Timely(r.l.clock, es)
    requires e.Poll? ==> e.now >= After(r, es).l.clock
    ensures Timely(r.l.clock, es + [e])
    decreases |es|
  {
    if es == [] {
      assert es + [e] == [e];
    } else {
      assert (es + [e])[1..] == es[1..] + [e];
      TimelySnoc(Step(r, es[0]), es[1..], e);
    }
  }

  /** An empty-payload packet. */
  function At(t: nat): Packet { Packet(t, []) }

  lemma ArrivalBeforeStartup(r: Run, p: Packet)
    requires Sound(r.j) && r.j.next.None? && p.timestamp !in r.j.pending && |r.j.pending| < MAX_PENDING
    ensures var q := r.j.pending[p.timestamp := p];
            Step(r, Arrive(p)) == Run(r.j.(pending := q), r.l.(offered := r.l.offered + multiset{p}))
    ensures |r.j.pending[p.timestamp := p]| == |r.j.pending| + 1
  {
    AddSize(r.j.pending, p);
    var added := Added(r.j.pending, p);
    assert Evict(added, None) == added;
    assert added.Values - added.Values == {};
  }

  /** `es` is a run with a monotonic clock that ends in `r`. */
  ghost predicate Reaches(es: seq<Event>, r: Run) {
    Sound(r.j) && Timely(0, es) && r == After(Start, es)
  }

  lemma Extend(es: seq<Event>, r: Run, e: Event)
    requires Reaches(es, r)
    requires e.Poll? ==> e.now >= r.l.clock
    ensures Reaches(es + [e], Step(r, e))
  {
    AfterSnoc(Start, es, e);
    TimelySnoc(Start, es, e);
  }

  /** Before the first poll the ledger only counts arrivals. */
  predicate Priming(r: Run) {
    r == Run(Fresh.(pending := r.j.pending), Blank.(offered := r.l.offered))
  }

  /** Up to eight distinct packets, in any order, before the first poll: all are held. */
  lemma {:induction false} Prefill(ts: seq<nat>) returns (es: seq<Event>, r: Run)
    requires |ts| <= MAX_PENDING
    requires forall i, k :: 0 <= i < k < |ts| ==> ts[i] != ts[k]
    ensures Reaches(es, r) && Priming(r)
    ensures (forall t :: t in ts ==> OnGrid(t)) ==> AllOnGrid(es)
    ensures |r.j.pending| == |ts|
    ensures forall t :: t in r.j.pending <==> t in ts
    decreases |ts|
  {
    if ts == [] {
      es, r := [], Start;
    } else {
      var n := |ts| - 1;
      var init, p := ts[..n], At(ts[n]);
      assert ts == init + [ts[n]];
      es, r := Prefill(init);
      ArrivalBeforeStartup(r, p);
      Extend(es, r, Arrive(p));
      es, r := es + [Arrive(p)], Step(r, Arrive(p));
    }
  }

  /** Since the first packet was played: how many frames were synthesized and packets evicted. */
  predicate Tally(l: Ledger, frames: nat, evictions: nat) {
    && l.late == multiset{} && l.duplicate == multiset{} && |l.played| == 1
    && l.gapFrames == frames && l.gapEvictions == evictions
  }

  lemma FirstPoll(r: Run)
    requires Sound(r.j) && Priming(r) && 0 in r.j.pending && |r.j.pending| >= INITIAL_DEPTH
    ensures var r1 := Step(r, Poll(40));
            && r1.j.next == Some(960) && r1.j.deadline == Some(20) && r1.l.clock == 40
            && r1.j.pending == r.j.pending - {0} && |r1.j.pending| == |r.j.pending| - 1
            && Tally(r1.l, 0, 0)
  {
    assert Earliest(r.j.pending) == 0;
    StartupPlaysAtOnce(r.j, 40);
    PollOutcome(r.j, 40);
    RemoveSize(r.j.pending, 0);
  }

  /** The due frame and the next one are missing, but a packet lies at most four frames ahead. */
  lemma PollConceals(r: Run, now: nat)
    requires Sound(r.j) && r.j.next.Some? && now >= r.j.deadline.value + LATE_GRACE_MS
    requires r.j.next.value !in r.j.pending && r.j.next.value + FRAME_SAMPLES !in r.j.pending
    requires |r.j.pending| >= MAX_TARGET_DEPTH && !GapTooLarge(r.j)
    ensures var r1 := Step(r, Poll(now));
            && r1.j.pending == r.j.pending && r1.l.clock == now
            && r1.j.next == Some(r.j.next.value + FRAME_SAMPLES)
            && r1.j.deadline == Some(r.j.deadline.value + FRAME_MS)
            && r1.l == r.l.(clock := now, epoch := r1.l.epoch, synthesized := r.l.synthesized + 1,
                            gapFrames := r.l.gapFrames + 1)
  {
    assert Decide(r.j, now) == (Synthesized(r.j, r.j.deadline.value), Conceal);
  }

  // Eight packets on consecutive frames, the first of them four frames ahead of frame k.
  ghost predicate Window(q: Queue, k: nat) {
    forall t: nat :: t in q <==> OnGrid(t) && 960 * (k + 4) <= t < 960 * (k + 12)
  }

  ghost predicate Starving(r: Run, k: nat) {
    && Sound(r.j) && r.j.next == Some(960 * k) && r.j.deadline == Some(20 * k)
    && Window(r.j.pending, k) && |r.j.pending| == 8
    && r.l.clock <= 20 * k + 20
  }

  lemma WindowSlides(q: Queue, k: nat, p: Packet)
    requires Window(q, k) && |q| == 8 && p.timestamp == 960 * (k + 12)
    ensures p.timestamp !in q
    ensures var added, oldest := q[p.timestamp := p], 960 * (k + 4);
            && |added| == 9 && oldest in added && Earliest(added) == oldest
            && Window(added - {oldest}, k + 1) && |added - {oldest}| == 8
  {
    var added, oldest := q[p.timestamp := p], 960 * (k + 4);
    assert p.timestamp !in q;
    AddSize(q, p);
    assert oldest in added;
    assert Earliest(added) == oldest;
    RemoveSize(added, oldest);
  }

  lemma EvictOne(q: Queue, due: Option<nat>)
    requires |q| == MAX_PENDING + 1 && due != Some(Earliest(q))
    ensures |q - {Earliest(q)}| == MAX_PENDING && Evict(q, due) == q - {Earliest(q)}
  {
    RemoveSize(q, Earliest(q));
  }

  lemma ArrivalEvicts(r: Run, k: nat, p: Packet)
    requires Sound(r.j) && r.j.next == Some(960 * (k + 1))
    requires Window(r.j.pending, k) && |r.j.pending| == 8 && p.timestamp == 960 * (k + 12)
    ensures var r2 := Step(r, Arrive(p));
            && r2.j.next == r.j.next && r2.j.deadline == r.j.deadline
            && Window(r2.j.pending, k + 1) && |r2.j.pending| == 8
            && r2.l == r.l.(offered := r2.l.offered, evicted := r2.l.evicted, gapEvictions := r.l.gapEvictions + 1)
  {
    var q := r.j.pending;
    WindowSlides(q, k, p);
    var added := q[p.timestamp := p];
    assert added == Added(q, p);
    EvictOne(added, r.j.next);
    EvictedPart(added, Evict(added, r.j.next));
  }

  lemma StarvingPoll(r: Run, k: nat)
    requires k >= 1 && Starving(r, k) && Tally(r.l, k - 1, k - 1)
    ensures var r1 := Step(r, Poll(20 * k + 25));
            && r1.j.next == Some(960 * (k + 1)) && r1.j.deadline == Some(20 * (k + 1))
            && Window(r1.j.pending, k) && |r1.j.pending| == 8
            && r1.l.clock == 20 * k + 25 && Tally(r1.l, k, k - 1)
  {
    assert !GapTooLarge(r.j) by { assert 960 * (k + 4) in r.j.pending; }
    PollConceals(r, 20 * k + 25);
  }

  lemma StarvingArrival(r: Run, k: nat, p: Packet)
    requires k >= 1 && Sound(r.j) && r.j.next == Some(960 * (k + 1)) && r.j.deadline == Some(20 * (k + 1))
    requires Window(r.j.pending, k) && |r.j.pending| == 8 && p.timestamp == 960 * (k + 12)
    requires r.l.clock <= 20 * (k + 1) + 20 && Tally(r.l, k, k - 1)
    ensures Starving(Step(r, Arrive(p)), k + 1) && Tally(Step(r, Arrive(p)).l, k, k)
  {
    ArrivalEvicts(r, k, p);
  }

  /** One turn of the wheel: the poll conceals a frame, and the arrival evicts the packet next in reach. */
  function Turn(r: Run, k: nat): Run
    requires Sound(r.j)
  {
    Step(Step(r, Poll(20 * k + 25)), Arrive(At(960 * (k + 12))))
  }

  lemma StarvingTurn(r: Run, k: nat)
    requires k >= 1 && Starving(r, k) && Tally(r.l, k - 1, k - 1)
    ensures Starving(Turn(r, k), k + 1) && Tally(Turn(r, k).l, k, k)
  {
    StarvingPoll(r, k);
    StarvingArrival(Step(r, Poll(20 * k + 25)), k, At(960 * (k + 12)));
  }

  lemma ExtendOnGrid(es: seq<Event>, r: Run, e: Event)
    requires Reaches(es, r) && AllOnGrid(es)
    requires if e.Poll? then e.now >= r.l.clock else OnGrid(e.packet.timestamp)
    ensures Reaches(es + [e], Step(r, e)) && AllOnGrid(es + [e])
  {
    Extend(es, r, e);
  }

  lemma ExtendByTurn(es: seq<Event>, r: Run, k: nat) returns (es': seq<Event>)
    requires Reaches(es, r) && AllOnGrid(es) && 20 * k + 25 >= r.l.clock
    ensures Reaches(es', Turn(r, k)) && AllOnGrid(es')
  {
    var poll, arrive := Poll(20 * k + 25), Arrive(At(960 * (k + 12)));
    ExtendOnGrid(es, r, poll);
    ExtendOnGrid(es + [poll], Step(r, poll), arrive);
    es' := es + [poll] + [arrive];
  }

  lemma StarveOneFrame(es: seq<Event>, r: Run, k: nat) returns (es': seq<Event>, r': Run)
    requires Reaches(es, r) && AllOnGrid(es) && k >= 1 && Starving(r, k) && Tally(r.l, k - 1, k - 1)
    ensures Reaches(es', r') && AllOnGrid(es') && Starving(r', k + 1) && Tally(r'.l, k, k)
  {
    StarvingTurn(r, k);
    es' := ExtendByTurn(es, r, k);
    r' := Turn(r, k);
  }

  lemma Begin(ts: seq<nat>) returns (es: seq<Event>, r: Run)
    requires INITIAL_DEPTH <= |ts| <= MAX_PENDING && 0 in ts
    requires forall i, k :: 0 <= i < k < |ts| ==> ts[i] != ts[k]
    ensures Reaches(es, r) && Tally(r.l, 0, 0)
    ensures (forall t :: t in ts ==> OnGrid(t)) ==> AllOnGrid(es)
    ensures r.j.next == Some(960) && r.j.deadline == Some(20) && r.l.clock == 40
    ensures |r.j.pending| == |ts| - 1
    ensures forall t :: t in r.j.pending <==> t in ts && t != 0
  {
    es, r := Prefill(ts);
    FirstPoll(r);
    Extend(es, r, Poll(40));
    es, r := es + [Poll(40)], Step(r, Poll(40));
  }

  lemma StarvationBegins() returns (es: seq<Event>, r: Run)
    ensures Reaches(es, r) && AllOnGrid(es) && Starving(r, 1) && Tally(r.l, 0, 0)
  {
    var es0, r0 := SevenAhead();
    var last := Arrive(At(11520));
    LastBeforeStarving(r0, last.packet);
    Extend(es0, r0, last);
    es, r := es0 + [last], Step(r0, last);
  }

  lemma SevenAhead() returns (es: seq<Event>, r: Run)
    ensures Reaches(es, r) && AllOnGrid(es) && Tally(r.l, 0, 0)
    ensures r.j.next == Some(960) && r.j.deadline == Some(20) && r.l.clock == 40
    ensures |r.j.pending| == 7
    ensures forall t: nat :: t in r.j.pending <==> OnGrid(t) && 4800 <= t < 11520
  {
    var ts := EightFrames();
    es, r := Begin(ts);
  }

  lemma EightFrames() returns (ts: seq<nat>)
    ensures |ts| == 8 && 0 in ts
    ensures forall i, k :: 0 <= i < k < |ts| ==> ts[i] != ts[k]
    ensures forall t :: t in ts ==> OnGrid(t)
    ensures forall t: nat :: t in ts && t != 0 <==> OnGrid(t) && 4800 <= t < 11520
  {
    ts := [0, 4800, 5760, 6720, 7680, 8640, 9600, 10560];
    forall t: nat ensures t in ts && t != 0 <==> OnGrid(t) && 4800 <= t < 11520 {
      assert t == 960 * (t / 960) + t % 960;
      if OnGrid(t) && 4800 <= t < 11520 {
        assert 5 <= t / 960 < 12;
      }
    }
  }

  lemma LastBeforeStarving(r: Run, p: Packet)
    requires Sound(r.j) && r.j.next == Some(960) && r.j.deadline == Some(20) && r.l.clock == 40
    requires forall t: nat :: t in r.j.pending <==> OnGrid(t) && 4800 <= t < 11520
    requires |r.j.pending| == 7 && p.timestamp == 11520 && Tally(r.l, 0, 0)
    ensures Starving(Step(r, Arrive(p)), 1) && Tally(Step(r, Arrive(p)).l, 0, 0)
  {
    AddSize(r.j.pending, p);
    var added := Added(r.j.pending, p);
    assert Evict(added, r.j.next) == added;
    assert added.Values - added.Values == {};
  }

  /** Arrivals in perfect order, one per 20 ms, none late and none duplicate -- and yet, once the
      eighth packet lies eleven frames ahead, each arrival evicts the packet that was about to be
      reached.  For every n there is such a run: one packet played, then n frames concealed. */
  lemma ConcealmentCanStarve(n: nat) returns (es: seq<Event>)
    ensures Timely(0, es) && AllOnGrid(es) && Tally(After(Start, es).l, n, n)
  {
    var r: Run;
    es, r := StarvationBegins();
    var k := 0;
    while k < n
      invariant k <= n && Reaches(es, r) && AllOnGrid(es) && Starving(r, k + 1) && Tally(r.l, k, k)
    {
      es, r := StarveOneFrame(es, r, k + 1);
      k := k + 1;
    }
  }

  // Seven packets between two frame boundaries: older than the due frame, never played, never evicted.
  predicate Stale(r: Run, k: nat) {
    && Sound(r.j) && r.j.next == Some(960 * (k + 1)) && r.j.deadline == Some(20 * (k + 1))
    && (forall t :: t in r.j.pending ==> 0 < t < 960) && |r.j.pending| == 7
    && r.l.clock <= 20 * (k + 1) + 20
  }

  /** Off the frame grid the bound fails without any eviction: packets that fall between two frame
      boundaries keep the buffer filled and the clock concealing, for as many frames as one likes. */
  lemma UnalignedPacketsConcealForever(n: nat) returns (es: seq<Event>)
    ensures Timely(0, es) && Tally(After(Start, es).l, n, 0)
  {
    var r: Run;
    es, r := Begin([0, 1, 2, 3, 4, 5, 6, 7]);
    var k := 0;
    while k < n
      invariant k <= n && Reaches(es, r) && Stale(r, k) && Tally(r.l, k, 0)
    {
      es, r := StaleTurn(es, r, k);
      k := k + 1;
    }
  }

  lemma StaleTurn(es: seq<Event>, r: Run, k: nat) returns (es': seq<Event>, r': Run)
    requires Reaches(es, r) && Stale(r, k) && Tally(r.l, k, 0)
    ensures Reaches(es', r') && Stale(r', k + 1) && Tally(r'.l, k + 1, 0)
  {
    var poll := Poll(20 * (k + 1) + 25);
    StaleConceals(r, k);
    Extend(es, r, poll);
    es', r' := es + [poll], Step(r, poll);
  }

  lemma StaleConceals(r: Run, k: nat)
    requires Stale(r, k) && Tally(r.l, k, 0)
    ensures var r1 := Step(r, Poll(20 * (k + 1) + 25)); Stale(r1, k + 1) && Tally(r1.l, k + 1, 0)
  {
    PollConceals(r, 20 * (k + 1) + 25);
  }
}
