/** One call of the jitter buffer, stated from its timing rules and not from the step functions: which
    frame falls due when, and what becomes of it.  Numbers are written out, in samples and
    milliseconds. */
module JitterSpec {
  import opened Core
  import opened Jitter

  // --- a poll ----------------------------------------------------------------------------------

  predicate First(q: Queue, t: nat) {
    t in q && forall k :: k in q ==> t <= k
  }

  /** Every packet lies more than four frames beyond the due one. */
  predicate FarAhead(j: Jitter)
    requires j.next.Some?
  {
    j.pending != map[] && forall k :: k in j.pending ==> k > j.next.value + 3840
  }

  /** No frame falls due: there is no epoch and too little to begin one, or the next slot is to come. */
  predicate NothingDue(j: Jitter, now: nat)
    requires Sound(j)
  {
    if j.next.None? then |j.pending| < j.depth else now < j.deadline.value
  }

  /** The frame at timestamp `t` falls due, and its slot began at `slot`. */
  predicate Due(j: Jitter, now: nat, t: nat, slot: nat)
    requires Sound(j)
  {
    if j.next.None? then
      && |j.pending| >= j.depth && First(j.pending, t)
      && slot == if now >= 20 * (j.depth - 1) then now - 20 * (j.depth - 1) else now
    else
      && now >= j.deadline.value && slot == j.deadline.value
      && if FarAhead(j) then First(j.pending, t) else t == j.next.value
  }

  /** The target depth shrinks by one, but not below two, at the fiftieth frame in a row played with
      more packets left than it asks for; `run` counts the ones before. */
  predicate Relaxes(j: Jitter, run: nat, a: Jitter) {
    if |a.pending| <= j.depth then a.depth == j.depth && a.stable == 0
    else if run < 49 then a.depth == j.depth && a.stable == run + 1
    else a.depth == (if j.depth >= 3 then j.depth - 1 else 2) && a.stable == 0
  }

  /** The due packet is there: it is played, and the next slot begins 20 ms after this one. */
  predicate PlaysDue(j: Jitter, t: nat, slot: nat, a: Jitter, d: Decision)
    requires t in j.pending
  {
    && d == Play(j.pending[t])
    && a.pending == j.pending - {t} && a.next == Some(t + 960) && a.deadline == Some(slot + 20)
    && a.late == j.late && a.lost == j.lost && a.concealed == j.concealed
    && a.drift == j.drift + (if j.next.Some? && t != j.next.value then 1 else 0)
    && Relaxes(j, if j.next.None? then 0 else j.stable, a)
  }

  /** It is not: 5 ms of grace, then the end of the epoch if the buffer has run low, then a made-up frame
      -- from the redundancy in the packet after it, if that one is there. */
  predicate MissesDue(j: Jitter, now: nat, t: nat, slot: nat, a: Jitter, d: Decision) {
    if now < slot + 5 then a == j && d == Hold
    else if |j.pending| < j.depth then a == j.(next := None, deadline := None, stable := 0) && d == Hold
    else
      && a == j.(next := Some(t + 960), deadline := Some(slot + 20), lost := j.lost + 1, concealed := j.concealed + 1,
                 depth := if j.depth <= 5 then j.depth + 1 else 6, stable := 0)
      && d == if t + 960 in j.pending then Fec(j.pending[t + 960].payload) else Conceal
  }

  ghost predicate PollSpec(j: Jitter, now: nat, a: Jitter, d: Decision)
    requires Sound(j)
  {
    && (NothingDue(j, now) ==> a == j && d == Hold)
    && forall t: nat, slot: nat :: Due(j, now, t, slot) ==>
         if t in j.pending then PlaysDue(j, t, slot, a, d) else MissesDue(j, now, t, slot, a, d)
  }

  /** At every poll nothing is due or exactly one frame is. */
  lemma OneFrameIsDue(j: Jitter, now: nat) returns (t: nat, slot: nat)
    requires Sound(j)
    ensures !NothingDue(j, now) ==> Due(j, now, t, slot)
    ensures forall u: nat, s: nat :: Due(j, now, u, s) ==> !NothingDue(j, now) && u == t && s == slot
  {
    if j.next.None? {
      t := if j.pending == map[] then 0 else Earliest(j.pending);
      slot := if now >= 20 * (j.depth - 1) then now - 20 * (j.depth - 1) else now;
    } else {
      t := if FarAhead(j) then Earliest(j.pending) else j.next.value;
      slot := j.deadline.value;
    }
  }

  lemma GapMeaning(j: Jitter)
    requires j.next.Some?
    ensures GapTooLarge(j) <==> FarAhead(j)
  {
  }

  lemma StartingPoll(j: Jitter, now: nat, t: nat, slot: nat)
    requires Sound(j) && j.next.None? && Due(j, now, t, slot)
    ensures t in j.pending && PlaysDue(j, t, slot, Decide(j, now).0, Decide(j, now).1)
  {
    assert t == Earliest(j.pending);
    RemoveSize(j.pending, t);
  }

  lemma DuePacket(j: Jitter, now: nat, t: nat, slot: nat)
    requires Sound(j) && j.next.Some? && Due(j, now, t, slot) && t in j.pending
    ensures Rebased(j, now).pending == j.pending && Rebased(j, now).next == Some(t)
    ensures PlaysDue(j, t, slot, Decide(j, now).0, Decide(j, now).1)
  {
    GapMeaning(j);
    if FarAhead(j) {
      assert t == Earliest(j.pending);
    }
    RemoveSize(j.pending, t);
  }

  lemma DueGap(j: Jitter, now: nat, t: nat, slot: nat)
    requires Sound(j) && j.next.Some? && Due(j, now, t, slot) && t !in j.pending
    ensures MissesDue(j, now, t, slot, Decide(j, now).0, Decide(j, now).1)
  {
    GapMeaning(j);
    assert Rebased(j, now) == j;
  }

  lemma DuePoll(j: Jitter, now: nat, t: nat, slot: nat)
    requires Sound(j) && j.next.Some? && Due(j, now, t, slot)
    ensures var (a, d) := Decide(j, now);
            if t in j.pending then PlaysDue(j, t, slot, a, d) else MissesDue(j, now, t, slot, a, d)
  {
    if t in j.pending { DuePacket(j, now, t, slot); } else { DueGap(j, now, t, slot); }
  }

  lemma IdlePoll(j: Jitter, now: nat)
    requires Sound(j) && NothingDue(j, now)
    ensures Decide(j, now) == (j, Hold)
  {
  }

  /** A poll does what the rules say, on every sound buffer at every instant ... */
  lemma PollMeetsSpec(j: Jitter, now: nat)
    requires Sound(j)
    ensures PollSpec(j, now, Decide(j, now).0, Decide(j, now).1)
  {
    if NothingDue(j, now) { IdlePoll(j, now); }
    forall t: nat, slot: nat | Due(j, now, t, slot)
      ensures var (a, d) := Decide(j, now);
              if t in j.pending then PlaysDue(j, t, slot, a, d) else MissesDue(j, now, t, slot, a, d)
    {
      if j.next.None? { StartingPoll(j, now, t, slot); } else { DuePoll(j, now, t, slot); }
    }
  }

  /** ... and the rules leave it no choice. */
  lemma PollIsDetermined(j: Jitter, now: nat, a: Jitter, d: Decision)
    requires Sound(j) && PollSpec(j, now, a, d)
    ensures (a, d) == Decide(j, now)
  {
    PollMeetsSpec(j, now);
    var t, slot := OneFrameIsDue(j, now);
    if !NothingDue(j, now) && t in j.pending {
      SamePlay(j, t, slot, a, d, Decide(j, now).0, Decide(j, now).1);
    }
  }

  lemma SamePlay(j: Jitter, t: nat, slot: nat, a: Jitter, d: Decision, b: Jitter, e: Decision)
    requires t in j.pending && PlaysDue(j, t, slot, a, d) && PlaysDue(j, t, slot, b, e)
    ensures a == b && d == e
  {
  }

  // --- an arrival ------------------------------------------------------------------------------

  /** `kept` is what remains of `q` when the earliest packets give way until eight are left, but not the
      due one and nothing after it. */
  predicate Trimmed(q: Queue, due: Option<nat>, kept: Queue) {
    && kept.Keys <= q.Keys && (forall k :: k in kept ==> kept[k] == q[k])
    && (forall g, k :: g in q && g !in kept && k in kept ==> g < k)
    && (due.Some? && due.value in q ==> due.value in kept)
    && (|kept| <= 8 || (due.Some? && due.value in q && forall k :: k in kept ==> due.value <= k))
    && (kept != q ==> |kept| >= 8)
  }

  /** A packet before the due frame only raises the depth; of two with one timestamp the first stays. */
  predicate ArrivalSpec(j: Jitter, p: Packet, a: Jitter) {
    if j.next.Some? && p.timestamp < j.next.value then
      a == j.(late := j.late + 1, depth := if j.depth <= 5 then j.depth + 1 else 6, stable := 0)
    else
      var q := if p.timestamp in j.pending then j.pending else j.pending[p.timestamp := p];
      && Trimmed(q, j.next, a.pending)
      && |a.pending| <= |q| && a == j.(pending := a.pending, drift := j.drift + (|q| - |a.pending|))
  }

  lemma ArrivalMeetsSpec(j: Jitter, p: Packet)
    ensures ArrivalSpec(j, p, Offer(j, p))
  {
    EvictionShape(Added(j.pending, p), j.next);
  }

  lemma ArrivalIsDetermined(j: Jitter, p: Packet, a: Jitter)
    requires ArrivalSpec(j, p, a)
    ensures a == Offer(j, p)
  {
    if !(j.next.Some? && p.timestamp < j.next.value) {
      EvictionIsDetermined(Added(j.pending, p), j.next, a.pending);
    }
  }

  // --- what follows for recovery ---------------------------------------------------------------

  /** A made-up frame is recovered from the next packet whenever that packet is there, and only then. */
  lemma RecoveryIsNeverWithheld(j: Jitter, now: nat)
    requires Sound(j)
    ensures var (a, d) := Decide(j, now);
            && (d.Fec? <==> a.lost == j.lost + 1 && j.next.Some? && j.next.value + 960 in j.pending)
            && (d.Fec? ==> d.recovery == j.pending[j.next.value + 960].payload)
            && (d.Conceal? <==> a.lost == j.lost + 1 && j.next.Some? && j.next.value + 960 !in j.pending)
  {
    PollMeetsSpec(j, now);
    var t, slot := OneFrameIsDue(j, now);
    if !NothingDue(j, now) {
      assert if t in j.pending then PlaysDue(j, t, slot, Decide(j, now).0, Decide(j, now).1)
             else MissesDue(j, now, t, slot, Decide(j, now).0, Decide(j, now).1);
    }
  }
}
