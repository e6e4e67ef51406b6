/** The receive-side jitter buffer of crates/voicersd/src/media/jitter.rs.

    Timestamps count samples and instants count milliseconds; both are naturals.  `Jitter` is the
    buffer as a value, `Offer` and `Decide` are what one call does to it, and the class
    `JitterBuffer` is the in-place implementation, proved to compute exactly those two functions. */
module Jitter {
  import opened Core

  const FRAME_SAMPLES: nat := 960
  const FRAME_MS: nat := 20
  const INITIAL_DEPTH: nat := 3
  const MIN_DEPTH: nat := 2
  const MAX_TARGET_DEPTH: nat := 6
  const MAX_PENDING: nat := 8
  const REBASE_FRAMES: nat := 4
  const LATE_GRACE_MS: nat := 5
  const STABLE_TICKS: nat := 50

  datatype Packet = Packet(timestamp: nat, payload: seq<bv8>)

  datatype Decision = Hold | Play(packet: Packet) | Fec(recovery: seq<bv8>) | Conceal

  datatype StreamState = Idle | Primed | Active

  type Queue = map<nat, Packet>

  datatype Jitter = Jitter(
    pending: Queue,
    next: Option<nat>,
    deadline: Option<nat>,
    depth: nat,
    stable: nat,
    late: nat,
    lost: nat,
    concealed: nat,
    drift: nat)

  const Fresh: Jitter := Jitter(map[], None, None, INITIAL_DEPTH, 0, 0, 0, 0, 0)

  // --- the ordered map ---------------------------------------------------------------------

  lemma {:induction false} Least(keys: set<nat>) returns (k: nat)
    requires keys != {}
    ensures k in keys
    ensures forall j :: j in keys ==> k <= j
  {
    k :| k in keys;
    var rest := keys - {k};
    if rest != {} {
      var m := Least(rest);
      assert forall j :: j in keys ==> j == k || j in rest;
      if m < k { k := m; }
    } else {
      assert keys == {k};
    }
  }

  /** The first key of the ordered map. */
  function Earliest(q: Queue): (k: nat)
    requires q != map[]
    ensures k in q
    ensures forall j :: j in q ==> k <= j
  {
    assert q.Keys != {};
    assert exists k :: k in q.Keys && forall j :: j in q.Keys ==> k <= j by { var k := Least(q.Keys); }
    var k :| k in q.Keys && forall j :: j in q.Keys ==> k <= j;
    k
  }

  lemma RemoveSize(q: Queue, k: nat)
    requires k in q
    ensures |q - {k}| == |q| - 1
    ensures (q - {k}).Keys == q.Keys - {k}
  {
    assert (q - {k}).Keys == q.Keys - {k};
  }

  lemma AddSize(q: Queue, p: Packet)
    ensures |q[p.timestamp := p]| == if p.timestamp in q then |q| else |q| + 1
  {
    var r := q[p.timestamp := p];
    assert r.Keys == q.Keys + {p.timestamp};
  }

  // --- insert ------------------------------------------------------------------------------

  function Raise(j: Jitter): Jitter {
    j.(depth := if j.depth + 1 <= MAX_TARGET_DEPTH then j.depth + 1 else MAX_TARGET_DEPTH, stable := 0)
  }

  /** Drop the earliest packets while more than MAX_PENDING are held, but never the due one. */
  function Evict(q: Queue, due: Option<nat>): Queue
    decreases |q|
  {
    if |q| <= MAX_PENDING then q
    else
      var oldest := Earliest(q);
      if due == Some(oldest) then q
      else
        RemoveSize(q, oldest);
        Evict(q - {oldest}, due)
  }

  function Added(q: Queue, p: Packet): Queue {
    if p.timestamp in q then q else q[p.timestamp := p]
  }

  predicate IsLate(j: Jitter, p: Packet) {
    j.next.Some? && p.timestamp < j.next.value
  }

  function Offer(j: Jitter, p: Packet): Jitter {
    if IsLate(j, p) then
      Raise(j.(late := j.late + 1))
    else
      var added := Added(j.pending, p);
      var kept := Evict(added, j.next);
      EvictionShape(added, j.next);
      j.(pending := kept, drift := j.drift + (|added| - |kept|))
  }

  /** Eviction is determined by four facts: it removes a downward-closed part, never the due packet
      or anything after it, it stops at eight or at the due packet, and it never goes below eight. */
  lemma {:induction false} EvictionShape(q: Queue, due: Option<nat>)
    ensures Evict(q, due).Keys <= q.Keys
    ensures |Evict(q, due)| <= |q|
    ensures forall k :: k in Evict(q, due) ==> Evict(q, due)[k] == q[k]
    ensures forall g, k :: g in q && g !in Evict(q, due) && k in Evict(q, due) ==> g < k
    ensures due.Some? && due.value in q ==> due.value in Evict(q, due)
    ensures |Evict(q, due)| <= MAX_PENDING
            || (due.Some? && due.value in q && forall k :: k in Evict(q, due) ==> due.value <= k)
    ensures Evict(q, due) != q ==> |Evict(q, due)| >= MAX_PENDING
    ensures |q| <= MAX_PENDING ==> Evict(q, due) == q
    decreases |q|
  {
    if |q| > MAX_PENDING {
      var oldest := Earliest(q);
      if due != Some(oldest) {
        RemoveSize(q, oldest);
        EvictionShape(q - {oldest}, due);
      }
    }
  }

  /** Those four facts leave no freedom: any other map with them is the one `Evict` returns. */
  lemma {:induction false} EvictionIsDetermined(q: Queue, due: Option<nat>, r: Queue)
    requires r.Keys <= q.Keys
    requires forall k :: k in r ==> r[k] == q[k]
    requires forall g, k :: g in q && g !in r && k in r ==> g < k
    requires due.Some? && due.value in q ==> due.value in r
    requires |r| <= MAX_PENDING || (due.Some? && due.value in q && forall k :: k in r ==> due.value <= k)
    requires r != q ==> |r| >= MAX_PENDING
    ensures r == Evict(q, due)
  {
    var e := Evict(q, due);
    EvictionShape(q, due);
    if r.Keys == e.Keys {
      assert r == e;
    } else if exists k :: k in r && k !in e {
      var k :| k in r && k !in e;
      StrictlyInside(e, r, q, k);
    } else {
      assert exists k :: k in e && k !in r;
      var k :| k in e && k !in r;
      StrictlyInside(r, e, q, k);
    }
  }

  /** Two upper parts of `q`: the one that misses a key of the other is strictly smaller. */
  lemma StrictlyInside(small: Queue, big: Queue, q: Queue, k: nat)
    requires small.Keys <= q.Keys && big.Keys <= q.Keys
    requires forall g, h :: g in q && g !in small && h in small ==> g < h
    requires forall g, h :: g in q && g !in big && h in big ==> g < h
    requires k in big && k !in small
    ensures small.Keys < big.Keys
    ensures |small| < |big|
  {
    forall h | h in small ensures h in big {
    }
    assert small.Keys <= big.Keys - {k};
    SubsetSize(small.Keys, big.Keys - {k});
  }

  lemma {:induction false} SubsetSize<T>(a: set<T>, b: set<T>)
    requires a <= b
    ensures |a| <= |b|
    decreases |a|
  {
    if a != {} {
      var x :| x in a;
      SubsetSize(a - {x}, b - {x});
    }
  }

  // --- playout -----------------------------------------------------------------------------

  function Advance(j: Jitter, deadline: nat, expected: nat): Jitter {
    j.(next := Some(expected + FRAME_SAMPLES), deadline := Some(deadline + FRAME_MS))
  }

  function NoteStable(j: Jitter): Jitter {
    if |j.pending| <= j.depth then j.(stable := 0)
    else if j.stable + 1 >= STABLE_TICKS then
      j.(depth := if j.depth - 1 >= MIN_DEPTH then j.depth - 1 else MIN_DEPTH, stable := 0)
    else j.(stable := j.stable + 1)
  }

  function StartDeadline(now: nat, depth: nat): nat {
    var lead := FRAME_MS * (if depth >= 1 then depth - 1 else 0);
    if now >= lead then now - lead else now
  }

  predicate Keyed(q: Queue) {
    forall k :: k in q ==> q[k].timestamp == k
  }

  /** What the buffer keeps at all times; it is what makes the two `expect`s unreachable. */
  predicate Sound(j: Jitter) {
    && (j.next.Some? <==> j.deadline.Some?)
    && MIN_DEPTH <= j.depth <= MAX_TARGET_DEPTH
    && Keyed(j.pending)
    && (j.next.None? ==> |j.pending| <= MAX_PENDING)
  }

  predicate Starts(j: Jitter) {
    j.next.None? && |j.pending| >= j.depth
  }

  function Started(j: Jitter, now: nat): Jitter
    requires Sound(j)
  {
    if Starts(j) then
      j.(next := Some(Earliest(j.pending)), deadline := Some(StartDeadline(now, j.depth)), stable := 0)
    else j
  }

  predicate GapTooLarge(j: Jitter)
    requires j.next.Some?
  {
    j.pending != map[] && Earliest(j.pending) > j.next.value + FRAME_SAMPLES * REBASE_FRAMES
  }

  function Rebased(j: Jitter, now: nat): Jitter
    requires j.next.Some?
  {
    if GapTooLarge(j) then
      j.(next := Some(Earliest(j.pending)), deadline := Some(now), drift := j.drift + 1)
    else j
  }

  function Played(r: Jitter, deadline: nat): Jitter
    requires r.next.Some?
  {
    var expected := r.next.value;
    NoteStable(Advance(r.(pending := r.pending - {expected}), deadline, expected))
  }

  function Synthesized(r: Jitter, deadline: nat): Jitter
    requires r.next.Some?
  {
    Raise(Advance(r, deadline, r.next.value).(concealed := r.concealed + 1, lost := r.lost + 1))
  }

  /** One frame falls due at `deadline`; `r` is the buffer after a possible rebase. */
  function Emit(r: Jitter, deadline: nat, now: nat): (Jitter, Decision)
    requires r.next.Some?
  {
    var expected := r.next.value;
    if expected in r.pending then (Played(r, deadline), Play(r.pending[expected]))
    else if now < deadline + LATE_GRACE_MS then (r, Hold)
    else if |r.pending| < r.depth then (r.(next := None, deadline := None, stable := 0), Hold)
    else if expected + FRAME_SAMPLES in r.pending
    then (Synthesized(r, deadline), Fec(r.pending[expected + FRAME_SAMPLES].payload))
    else (Synthesized(r, deadline), Conceal)
  }

  function Decide(j: Jitter, now: nat): (Jitter, Decision)
    requires Sound(j)
  {
    var s := Started(j, now);
    if s.next.None? || now < s.deadline.value then (s, Hold)
    else Emit(Rebased(s, now), s.deadline.value, now)
  }

  function State(j: Jitter): StreamState {
    if j.next.Some? then Active else if j.pending == map[] then Idle else Primed
  }

  // --- soundness of one call ---------------------------------------------------------------

  lemma OfferSound(j: Jitter, p: Packet)
    requires Sound(j)
    ensures Sound(Offer(j, p))
  {
    EvictionShape(Added(j.pending, p), j.next);
  }

  lemma EmitSound(r: Jitter, deadline: nat, now: nat)
    requires Sound(r) && r.next.Some?
    ensures Sound(Emit(r, deadline, now).0)
  {
  }

  lemma StartedSound(j: Jitter, now: nat)
    requires Sound(j)
    ensures Sound(Started(j, now))
  {
  }

  lemma DecideSound(j: Jitter, now: nat)
    requires Sound(j)
    ensures Sound(Decide(j, now).0)
  {
    var s := Started(j, now);
    StartedSound(j, now);
    if s.next.Some? {
      var r := Rebased(s, now);
      assert Sound(r);
      EmitSound(r, s.deadline.value, now);
    }
  }

  // --- the buffer itself -------------------------------------------------------------------

  class JitterBuffer {
    var pending: Queue
    var next: Option<nat>
    var deadline: Option<nat>
    var depth: nat
    var stable: nat
    var late: nat
    var lost: nat
    var concealed: nat
    var drift: nat

    ghost function View(): Jitter
      reads this
    {
      Jitter(pending, next, deadline, depth, stable, late, lost, concealed, drift)
    }

    constructor ()
      ensures View() == Fresh
      ensures Sound(View())
    {
      pending, next, deadline := map[], None, None;
      depth, stable := INITIAL_DEPTH, 0;
      late, lost, concealed, drift := 0, 0, 0, 0;
    }

    method RaiseTargetDepth()
      modifies this
      ensures View() == Raise(old(View()))
    {
      depth := if depth + 1 <= MAX_TARGET_DEPTH then depth + 1 else MAX_TARGET_DEPTH;
      stable := 0;
    }

    method NoteStableTick()
      modifies this
      ensures View() == NoteStable(old(View()))
    {
      if |pending| <= depth {
        stable := 0;
        return;
      }
      stable := stable + 1;
      if stable >= STABLE_TICKS {
        depth := if depth - 1 >= MIN_DEPTH then depth - 1 else MIN_DEPTH;
        stable := 0;
      }
    }

    method AdvancePlayoutClock(from: nat, expected: nat)
      modifies this
      ensures View() == Advance(old(View()), from, expected)
    {
      next := Some(expected + FRAME_SAMPLES);
      deadline := Some(from + FRAME_MS);
    }

    method StreamState() returns (state: StreamState)
      ensures state == State(View())
    {
      if next.Some? {
        return Active;
      }
      return if pending == map[] then Idle else Primed;
    }

    /** The earliest packets give way while too many are held. */
    method EvictSurplus()
      modifies this`pending, this`drift
      ensures pending == Evict(old(pending), next)
      ensures |pending| <= |old(pending)| && drift == old(drift) + (|old(pending)| - |pending|)
    {
      ghost var added := pending;
      while |pending| > MAX_PENDING
        invariant |pending| <= |added| && drift == old(drift) + (|added| - |pending|)
        invariant Evict(pending, next) == Evict(added, next)
        decreases |pending|
      {
        var oldest := Earliest(pending);
        if next == Some(oldest) {
          break;
        }
        RemoveSize(pending, oldest);
        pending := pending - {oldest};
        drift := drift + 1;
      }
    }

    method Insert(packet: Packet)
      requires Sound(View())
      modifies this
      ensures Sound(View())
      ensures View() == Offer(old(View()), packet)
    {
      OfferSound(View(), packet);
      if next.Some? && packet.timestamp < next.value {
        late := late + 1;
        RaiseTargetDepth();
        return;
      }
      if packet.timestamp !in pending {
        pending := pending[packet.timestamp := packet];
      }
      EvictSurplus();
    }

    /** The due packet leaves the buffer. */
    method PlayDueFrame(due: nat) returns (packet: Packet)
      requires next.Some? && next.value in pending
      modifies this
      ensures packet == old(pending)[old(next).value]
      ensures View() == Played(old(View()), due)
    {
      var expected := next.value;
      packet := pending[expected];
      pending := pending - {expected};
      AdvancePlayoutClock(due, expected);
      NoteStableTick();
    }

    /** A frame is made up in place of the due packet, which is given up. */
    method ReplaceDueFrame(due: nat)
      requires next.Some?
      modifies this
      ensures View() == Synthesized(old(View()), due)
    {
      AdvancePlayoutClock(due, next.value);
      concealed, lost := concealed + 1, lost + 1;
      RaiseTargetDepth();
    }

    /** The second half of a playout call: the frame due at `due` is played, awaited or replaced. */
    method EmitDueFrame(due: nat, now: nat) returns (d: Decision)
      requires next.Some?
      modifies this
      ensures (View(), d) == Emit(old(View()), due, now)
    {
      var expected := next.value;
      if expected in pending {
        var packet := PlayDueFrame(due);
        return Play(packet);
      }
      if now < due + LATE_GRACE_MS {
        return Hold;
      }
      if |pending| < depth {
        next, deadline, stable := None, None, 0;
        return Hold;
      }
      if expected + FRAME_SAMPLES in pending {
        var recovery := pending[expected + FRAME_SAMPLES].payload;
        ReplaceDueFrame(due);
        return Fec(recovery);
      }
      ReplaceDueFrame(due);
      return Conceal;
    }

    /** With enough packets held the clock starts, at the earliest of them. */
    method StartClock(now: nat)
      requires Sound(View())
      modifies this
      ensures View() == Started(old(View()), now)
    {
      if next.None? && |pending| >= depth {
        next := Some(Earliest(pending));
        var lead := FRAME_MS * (if depth >= 1 then depth - 1 else 0);
        deadline := Some(if now >= lead then now - lead else now);
        stable := 0;
      }
    }

    /** The clock skips a gap of more than four frames. */
    method RebaseClock(now: nat)
      requires next.Some?
      modifies this
      ensures View() == Rebased(old(View()), now)
    {
      if pending != map[] {
        var earliest := Earliest(pending);
        if earliest > next.value + FRAME_SAMPLES * REBASE_FRAMES {
          next := Some(earliest);
          deadline := Some(now);
          drift := drift + 1;
        }
      }
    }

    method NextPlayoutDecision(now: nat) returns (d: Decision)
      requires Sound(View())
      modifies this
      ensures Sound(View())
      ensures (View(), d) == Decide(old(View()), now)
    {
      DecideSound(View(), now);
      StartedSound(View(), now);
      StartClock(now);
      if next.None? {
        return Hold;
      }
      var due := deadline.value;
      if now < due {
        return Hold;
      }
      RebaseClock(now);
      d := EmitDueFrame(due, now);
    }
  }
}
