/** Dialing a ranked list of addresses, one failure at a time
    (crates/voicersd/src/network.rs and network/swarm_events.rs). */
module Fallback {
  import opened Core
  import opened Ordering
  import opened Dialing
  import Text

  // --- the target ----------------------------------------------------------------------------

  datatype Target = Target(peer: Option<string>, primary: string, fallbacks: seq<string>)

  /** What the networking library can read: a multiaddress, with the first peer id in it if any, and a
      peer id on its own. */
  datatype Parser = Parser(multiaddr: string -> Option<Option<string>>, isPeerId: string -> bool)

  function Plan(t: Target): seq<string> { [t.primary] + t.fallbacks }

  function FromRanking(peer: string, ranked: seq<string>, requested: string): Target {
    if ranked == [] then Target(Some(peer), requested, []) else Target(Some(peer), ranked[0], ranked[1..])
  }

  function ResolveRankedDialTarget(known: seq<Known>, scores: seq<PathScore>, relayed: Classifier,
                                   parser: Parser, input: string): Target
  {
    var requested := Text.Trim(input);
    var i := Find(known, requested);
    if i < |known| then
      FromRanking(known[i].id, Ranked(known, scores, relayed, known[i], None), requested)
    else
      var parsed := parser.multiaddr(requested);
      if parsed.Some? && parsed.value.Some? then
        var id := parsed.value.value;
        var k := Find(known, id);
        if k < |known| then
          FromRanking(id, Ranked(known, scores, relayed, known[k], Some(requested)), requested)
        else Target(Some(id), requested, [])
      else if parser.isPeerId(requested) then Target(Some(requested), requested, [])
      else Target(None, requested, [])
  }

  /** A plan never repeats an address, and a requested address of a known peer is always in it. */
  lemma TargetSpec(known: seq<Known>, scores: seq<PathScore>, relayed: Classifier, parser: Parser, input: string)
    ensures var t := ResolveRankedDialTarget(known, scores, relayed, parser, input);
            && Distinct(Plan(t))
            && (Find(known, Text.Trim(input)) == |known| ==> Text.Trim(input) in Plan(t))
  {
    var requested := Text.Trim(input);
    var i := Find(known, requested);
    var parsed := parser.multiaddr(requested);
    if i < |known| {
      RankedSpec(known, scores, relayed, known[i], None);
      PlanOfRanking(known[i].id, Ranked(known, scores, relayed, known[i], None), requested);
    } else if parsed.Some? && parsed.value.Some? && Find(known, parsed.value.value) < |known| {
      var k := Find(known, parsed.value.value);
      var r := Ranked(known, scores, relayed, known[k], Some(requested));
      RankedSpec(known, scores, relayed, known[k], Some(requested));
      assert requested in r;
      PlanOfRanking(known[k].id, r, requested);
    }
  }

  /** The first record with this id. */
  predicate IsRecordOf(known: seq<Known>, id: string, i: nat) {
    i < |known| && known[i].id == id && forall k :: 0 <= k < i ==> known[k].id != id
  }

  predicate Nobody(known: seq<Known>, id: string) { forall k :: k in known ==> k.id != id }

  lemma FoundMeaning(known: seq<Known>, id: string)
    ensures forall i: nat :: IsRecordOf(known, id, i) ==> Find(known, id) == i
    ensures Nobody(known, id) ==> Find(known, id) == |known|
  {
    forall i: nat | IsRecordOf(known, id, i) ensures Find(known, id) == i { }
    if Nobody(known, id) { NobodyIsFound(known, id); }
  }

  /** What is dialed for the id of a known peer, trimmed: the best of its addresses, if it has any. */
  lemma TargetOfPeer(known: seq<Known>, scores: seq<PathScore>, relayed: Classifier, parser: Parser, input: string,
                     i: nat)
    requires IsRecordOf(known, Text.Trim(input), i)
    ensures var t := ResolveRankedDialTarget(known, scores, relayed, parser, input);
            var k := known[i];
            && t.peer == Some(Text.Trim(input))
            && Plan(t) == if k.lastDial.None? && k.addresses == [] then [Text.Trim(input)]
                          else Ranked(known, scores, relayed, k, None)
  {
    FoundMeaning(known, Text.Trim(input));
    EmptyRanking(known, scores, relayed, known[i], None);
    RankedSpec(known, scores, relayed, known[i], None);
    PlanOfRanking(known[i].id, Ranked(known, scores, relayed, known[i], None), Text.Trim(input));
  }

  /** What is dialed for anything else, trimmed: an address of a known peer joins that peer's addresses, and the
      best of them is dialed; other texts are dialed as they are. */
  lemma TargetOfAddress(known: seq<Known>, scores: seq<PathScore>, relayed: Classifier, parser: Parser, input: string)
    requires Nobody(known, Text.Trim(input))
    ensures var t := ResolveRankedDialTarget(known, scores, relayed, parser, input);
            var text := Text.Trim(input);
            match parser.multiaddr(text)
            case Some(Some(id)) =>
              && t.peer == Some(id)
              && (forall i: nat :: IsRecordOf(known, id, i) ==>
                    Plan(t) == Ranked(known, scores, relayed, known[i], Some(text)))
              && (Nobody(known, id) ==> Plan(t) == [text])
            case _ => t.peer == (if parser.isPeerId(text) then Some(text) else None) && Plan(t) == [text]
  {
    var text := Text.Trim(input);
    FoundMeaning(known, text);
    if parser.multiaddr(text).Some? && parser.multiaddr(text).value.Some? {
      var id := parser.multiaddr(text).value.value;
      FoundMeaning(known, id);
      forall i: nat | IsRecordOf(known, id, i)
        ensures Plan(FromRanking(id, Ranked(known, scores, relayed, known[i], Some(text)), text))
                == Ranked(known, scores, relayed, known[i], Some(text))
      {
        EmptyRanking(known, scores, relayed, known[i], Some(text));
        RankedSpec(known, scores, relayed, known[i], Some(text));
        PlanOfRanking(id, Ranked(known, scores, relayed, known[i], Some(text)), text);
      }
    }
  }

  lemma NobodyIsFound(known: seq<Known>, id: string)
    requires forall k :: k in known ==> k.id != id
    ensures Find(known, id) == |known|
  {
    assert forall i :: 0 <= i < |known| ==> known[i] in known;
  }

  lemma EmptyRanking(known: seq<Known>, scores: seq<PathScore>, relayed: Classifier, k: Known,
                     requested: Option<string>)
    ensures Ranked(known, scores, relayed, k, requested) == [] <==>
            requested.None? && k.lastDial.None? && k.addresses == []
  {
    RankedSpec(known, scores, relayed, k, requested);
    var r := Ranked(known, scores, relayed, k, requested);
    if r != [] { assert r[0] in r; }
    if k.addresses != [] { assert k.addresses[0] in k.addresses; }
  }

  lemma PlanOfRanking(peer: string, ranked: seq<string>, requested: string)
    requires Distinct(ranked)
    ensures Plan(FromRanking(peer, ranked, requested)) == if ranked == [] then [requested] else ranked
    ensures Distinct(Plan(FromRanking(peer, ranked, requested)))
  {
  }

  // --- path scores ---------------------------------------------------------------------------

  function Scored(s: PathScore, peer: Option<string>, success: bool): PathScore {
    s.(successes := s.successes + (if success then 1 else 0),
       failures := s.failures + (if success then 0 else 1),
       lastPeer := peer)
  }

  function RecordPathScore(scores: seq<PathScore>, path: string, peer: Option<string>, success: bool): seq<PathScore> {
    var i := FindPath(scores, path);
    if i < |scores| then scores[i := Scored(scores[i], peer, success)]
    else scores + [Scored(PathScore(path, 0, 0, None), peer, success)]
  }

  function Failures(scores: seq<PathScore>, path: string): nat {
    var i := FindPath(scores, path);
    if i < |scores| then scores[i].failures else 0
  }

  function Successes(scores: seq<PathScore>, path: string): nat {
    var i := FindPath(scores, path);
    if i < |scores| then scores[i].successes else 0
  }

  lemma FirstIsFound(scores: seq<PathScore>, path: string, index: nat)
    requires index <= |scores|
    requires forall k :: 0 <= k < index ==> scores[k].path != path
    requires index < |scores| ==> scores[index].path == path
    ensures FindPath(scores, path) == index
  {
  }

  lemma FindAfterRecord(scores: seq<PathScore>, path: string, s: PathScore, other: string)
    requires s.path == path
    ensures var i := FindPath(scores, path);
            var after := if i < |scores| then scores[i := s] else scores + [s];
            && FindPath(after, path) == i < |after| && after[i] == s
            && (other != path ==>
                  if FindPath(scores, other) < |scores|
                  then FindPath(after, other) < |after|
                       && after[FindPath(after, other)] == scores[FindPath(scores, other)]
                  else FindPath(after, other) == |after|)
  {
    var i, k := FindPath(scores, path), FindPath(scores, other);
    var after := if i < |scores| then scores[i := s] else scores + [s];
    FirstIsFound(after, path, i);
    if other != path {
      FirstIsFound(after, other, if k < |scores| then k else |after|);
    }
  }

  function LastPeerOn(scores: seq<PathScore>, path: string): Option<string> {
    var i := FindPath(scores, path);
    if i < |scores| then scores[i].lastPeer else None
  }

  /** One event is counted once, on one path, with its peer, and on no other. */
  lemma RecordCountsOnce(scores: seq<PathScore>, path: string, peer: Option<string>, success: bool, other: string)
    ensures var after := RecordPathScore(scores, path, peer, success);
            && Failures(after, path) == Failures(scores, path) + (if success then 0 else 1)
            && Successes(after, path) == Successes(scores, path) + (if success then 1 else 0)
            && LastPeerOn(after, path) == peer
            && (other != path ==> Failures(after, other) == Failures(scores, other)
                                  && Successes(after, other) == Successes(scores, other)
                                  && LastPeerOn(after, other) == LastPeerOn(scores, other))
  {
    var i := FindPath(scores, path);
    var was := if i < |scores| then scores[i] else PathScore(path, 0, 0, None);
    FindAfterRecord(scores, path, Scored(was, peer, success), other);
  }

  // --- the machine ---------------------------------------------------------------------------

  datatype Pending = Pending(current: string, fallbacks: seq<string>)

  datatype Dials = Dials(pending: map<string, Pending>, scores: seq<PathScore>)

  /** `dialed` tells whether the library accepted the dial, `parses` whether the address was readable. */
  datatype Event =
    | Dial(target: Target, dialed: bool)
    | Failed(peer: Option<string>, parses: bool)
    | Established(connected: string, path: string)
    | OtherScore(path: string, peer: Option<string>, success: bool)

  /** The path class a failure is charged to. */
  function ChargedPath(d: Dials, relayed: Classifier, peer: Option<string>): string {
    if peer.Some? && peer.value in d.pending then PathName(relayed, d.pending[peer.value].current) else DIRECT
  }

  function CanRetry(d: Dials, peer: Option<string>): bool {
    peer.Some? && peer.value in d.pending && d.pending[peer.value].fallbacks != []
  }

  function Next(d: Dials, relayed: Classifier, e: Event): Dials {
    match e
    case Dial(t, dialed) =>
      if dialed && t.peer.Some? then d.(pending := d.pending[t.peer.value := Pending(t.primary, t.fallbacks)]) else d
    case Failed(peer, _) =>
      var scores := RecordPathScore(d.scores, ChargedPath(d, relayed, peer), peer, false);
      if CanRetry(d, peer) then
        var p := d.pending[peer.value];
        Dials(d.pending[peer.value := Pending(p.fallbacks[0], p.fallbacks[1..])], scores)
      else d.(scores := scores)
    case Established(peer, path) =>
      Dials(d.pending - {peer}, RecordPathScore(d.scores, path, Some(peer), true))
    case OtherScore(path, peer, success) =>
      d.(scores := RecordPathScore(d.scores, path, peer, success))
  }

  /** The addresses handed to the library for `peer` by one event. */
  function Attempts(d: Dials, e: Event, peer: string): seq<string> {
    match e
    case Dial(t, dialed) => if dialed && t.peer == Some(peer) then [t.primary] else []
    case Failed(p, parses) =>
      if p == Some(peer) && CanRetry(d, p) && parses then [d.pending[peer].fallbacks[0]] else []
    case _ => []
  }

  /** A failure is charged to the kind of path that was being dialed, direct where nothing is pending; the peer
      is noted there.  The next fallback of the plan, if there is one, becomes the address being dialed, and is
      handed to the library if it can be read. */
  lemma FailureMeaning(d: Dials, relayed: Classifier, peer: Option<string>, parses: bool, path: string, other: string)
    ensures var a := Next(d, relayed, Failed(peer, parses));
            var plan := if peer.Some? && peer.value in d.pending
                        then [d.pending[peer.value].current] + d.pending[peer.value].fallbacks else [];
            var charged := if plan != [] && relayed(plan[0]) then "libp2p-relay" else "libp2p-direct";
            && Failures(a.scores, path) == Failures(d.scores, path) + (if path == charged then 1 else 0)
            && Successes(a.scores, path) == Successes(d.scores, path)
            && LastPeerOn(a.scores, path) == (if path == charged then peer else LastPeerOn(d.scores, path))
            && a.pending == (if |plan| < 2 then d.pending
                             else d.pending[peer.value := Pending(plan[1], plan[2..])])
            && Attempts(d, Failed(peer, parses), other)
               == (if peer == Some(other) && |plan| >= 2 && parses then [plan[1]] else [])
  {
    RecordCountsOnce(d.scores, ChargedPath(d, relayed, peer), peer, false, path);
    if peer.Some? && peer.value in d.pending {
      var p := d.pending[peer.value];
      if p.fallbacks != [] { assert ([p.current] + p.fallbacks)[2..] == p.fallbacks[1..]; }
    }
  }

  /** A connection ends the dial of its peer only, and counts for the path it came over. */
  lemma ConnectionMeaning(d: Dials, relayed: Classifier, peer: string, over: string, path: string)
    ensures var a := Next(d, relayed, Established(peer, over));
            && Failures(a.scores, path) == Failures(d.scores, path)
            && Successes(a.scores, path) == Successes(d.scores, path) + (if path == over then 1 else 0)
            && LastPeerOn(a.scores, path) == (if path == over then Some(peer) else LastPeerOn(d.scores, path))
            && a.pending == map p | p in d.pending && p != peer :: d.pending[p]
  {
    RecordCountsOnce(d.scores, over, Some(peer), true, path);
  }

  // --- what an observer sees -----------------------------------------------------------------

  /** One dial of a peer: the plan, the failures since, which plan entries were handed to the library,
      and the path each failure was charged to. */
  datatype Log = Log(plan: seq<string>, failures: nat, tried: seq<nat>, charged: seq<string>)

  datatype Watch = Watch(d: Dials, logs: map<string, Log>, charges: multiset<string>, wins: multiset<string>)

  function Observe(w: Watch, relayed: Classifier, e: Event): Watch {
    var d := Next(w.d, relayed, e);
    match e
    case Dial(t, dialed) =>
      if dialed && t.peer.Some?
      then w.(d := d, logs := w.logs[t.peer.value := Log(Plan(t), 0, [0], [])]) else w.(d := d)
    case Failed(peer, parses) =>
      var path := ChargedPath(w.d, relayed, peer);
      var charges := w.charges + multiset{path};
      if peer.Some? && peer.value in w.logs then
        var l := w.logs[peer.value];
        var tried := if CanRetry(w.d, peer) && parses then l.tried + [l.failures + 1] else l.tried;
        w.(d := d, charges := charges,
           logs := w.logs[peer.value := Log(l.plan, l.failures + 1, tried, l.charged + [path])])
      else w.(d := d, charges := charges)
    case Established(peer, path) => w.(d := d, logs := w.logs - {peer}, wins := w.wins + multiset{path})
    case OtherScore(path, _, success) =>
      if success then w.(d := d, wins := w.wins + multiset{path}) else w.(d := d, charges := w.charges + multiset{path})
  }

  /** Failure number n of a dial, counted from zero, concerns this entry of its plan. */
  function Entry(plan: seq<string>, n: nat): nat
    requires plan != []
  {
    if n < |plan| then n else |plan| - 1
  }

  /** A pending dial is a closed form of its plan and the number of failures so far. */
  predicate Follows(l: Log, p: Pending, relayed: Classifier) {
    && l.plan != [] && Distinct(l.plan)
    && var m := Entry(l.plan, l.failures);
    && p.current == l.plan[m] && p.fallbacks == l.plan[m + 1..]
    && (forall i :: 0 <= i < |l.tried| ==> l.tried[i] <= m)
    && (forall i, k :: 0 <= i < k < |l.tried| ==> l.tried[i] < l.tried[k])
    && |l.charged| == l.failures
    && (forall i :: 0 <= i < l.failures ==> l.charged[i] == PathName(relayed, l.plan[Entry(l.plan, i)]))
  }

  ghost predicate Tracked(w: Watch, relayed: Classifier) {
    && w.logs.Keys == w.d.pending.Keys
    && (forall p :: p in w.logs ==> Follows(w.logs[p], w.d.pending[p], relayed))
    && (forall path :: Failures(w.d.scores, path) == w.charges[path] && Successes(w.d.scores, path) == w.wins[path])
  }

  predicate FairEvent(e: Event) { e.Dial? ==> Distinct(Plan(e.target)) }

  lemma FailureFollows(l: Log, p: Pending, relayed: Classifier, parses: bool)
    requires Follows(l, p, relayed)
    ensures var retry := p.fallbacks != [];
            var tried := if retry && parses then l.tried + [l.failures + 1] else l.tried;
            var q := if retry then Pending(p.fallbacks[0], p.fallbacks[1..]) else p;
            Follows(Log(l.plan, l.failures + 1, tried, l.charged + [PathName(relayed, p.current)]), q, relayed)
  {
    var m := Entry(l.plan, l.failures);
    if p.fallbacks != [] {
      assert m == l.failures && p.fallbacks[0] == l.plan[m + 1];
    }
  }

  lemma ChargesMatch(w: Watch, relayed: Classifier, path: string, peer: Option<string>, success: bool)
    requires Tracked(w, relayed)
    ensures var after := RecordPathScore(w.d.scores, path, peer, success);
            var charges := if success then w.charges else w.charges + multiset{path};
            var wins := if success then w.wins + multiset{path} else w.wins;
            forall q :: Failures(after, q) == charges[q] && Successes(after, q) == wins[q]
  {
    var after := RecordPathScore(w.d.scores, path, peer, success);
    var charges := if success then w.charges else w.charges + multiset{path};
    var wins := if success then w.wins + multiset{path} else w.wins;
    forall q ensures Failures(after, q) == charges[q] && Successes(after, q) == wins[q] {
      RecordCountsOnce(w.d.scores, path, peer, success, q);
      assert Failures(w.d.scores, q) == w.charges[q] && Successes(w.d.scores, q) == w.wins[q];
    }
  }

  lemma FailureTracks(w: Watch, relayed: Classifier, peer: Option<string>, parses: bool)
    requires Tracked(w, relayed)
    ensures Tracked(Observe(w, relayed, Failed(peer, parses)), relayed)
  {
    ChargesMatch(w, relayed, ChargedPath(w.d, relayed, peer), peer, false);
    var after := Observe(w, relayed, Failed(peer, parses));
    forall p | p in after.logs ensures Follows(after.logs[p], after.d.pending[p], relayed) {
      if peer == Some(p) {
        FailureFollows(w.logs[p], w.d.pending[p], relayed, parses);
      }
    }
  }

  lemma ObserveTracks(w: Watch, relayed: Classifier, e: Event)
    requires Tracked(w, relayed) && FairEvent(e)
    ensures Tracked(Observe(w, relayed, e), relayed)
  {
    match e
    case Dial(t, dialed) => DialTracks(w, relayed, t, dialed);
    case Failed(peer, parses) => FailureTracks(w, relayed, peer, parses);
    case Established(peer, path) => ChargesMatch(w, relayed, path, Some(peer), true);
    case OtherScore(path, peer, success) => ChargesMatch(w, relayed, path, peer, success);
  }

  lemma DialTracks(w: Watch, relayed: Classifier, t: Target, dialed: bool)
    requires Tracked(w, relayed) && Distinct(Plan(t))
    ensures Tracked(Observe(w, relayed, Dial(t, dialed)), relayed)
  {
  }

  function ObserveAll(w: Watch, relayed: Classifier, es: seq<Event>): Watch
    decreases |es|
  {
    if es == [] then w else ObserveAll(Observe(w, relayed, es[0]), relayed, es[1..])
  }

  lemma {:induction false} RunTracks(w: Watch, relayed: Classifier, es: seq<Event>)
    requires Tracked(w, relayed) && forall i :: 0 <= i < |es| ==> FairEvent(es[i])
    ensures Tracked(ObserveAll(w, relayed, es), relayed)
    decreases |es|
  {
    if es != [] {
      ObserveTracks(w, relayed, es[0]);
      RunTracks(Observe(w, relayed, es[0]), relayed, es[1..]);
    }
  }

  const Idle: Watch := Watch(Dials(map[], []), map[], multiset{}, multiset{})

  /** Over every run, for every pending dial: the current address and the fallbacks are what the plan
      and the failure count say; addresses are tried in plan order, none twice, so at most as often as
      the plan is long; failure i is charged to the path of plan entry i (of the last one, once the
      plan is used up); and a path's failures are those charged to it,
      its successes the connections made over it. */
  lemma DialsFollowTheirPlan(relayed: Classifier, es: seq<Event>, peer: string, path: string)
    requires forall i :: 0 <= i < |es| ==> FairEvent(es[i])
    ensures var w := ObserveAll(Idle, relayed, es);
            && Failures(w.d.scores, path) == w.charges[path] && Successes(w.d.scores, path) == w.wins[path]
            && (peer in w.d.pending <==> peer in w.logs)
            && (peer in w.logs ==>
                  && Follows(w.logs[peer], w.d.pending[peer], relayed)
                  && |w.logs[peer].tried| <= |w.logs[peer].plan|)
  {
    RunTracks(Idle, relayed, es);
    var w := ObserveAll(Idle, relayed, es);
    if peer in w.logs {
      IncreasingIsShort(w.logs[peer].tried, |w.logs[peer].plan|);
    }
  }

  lemma {:induction false} IncreasingIsShort(s: seq<nat>, n: nat)
    requires forall i :: 0 <= i < |s| ==> s[i] < n
    requires forall i, k :: 0 <= i < k < |s| ==> s[i] < s[k]
    ensures |s| <= n
    decreases |s|
  {
    if s != [] {
      IncreasingIsShort(s[..|s| - 1], s[|s| - 1]);
    }
  }

  function AllAttempts(d: Dials, relayed: Classifier, es: seq<Event>, peer: string): seq<string>
    decreases |es|
  {
    if es == [] then []
    else Attempts(d, es[0], peer) + AllAttempts(Next(d, relayed, es[0]), relayed, es[1..], peer)
  }

  /** Once a connection is up no fallback is tried any more, however many late failures come in,
      until the peer is dialed anew. */
  lemma {:induction false} QuietOnceConnected(d: Dials, relayed: Classifier, es: seq<Event>, peer: string)
    requires peer !in d.pending
    requires forall i :: 0 <= i < |es| && es[i].Dial? ==> es[i].target.peer != Some(peer)
    ensures AllAttempts(d, relayed, es, peer) == []
    decreases |es|
  {
    if es != [] {
      QuietOnceConnected(Next(d, relayed, es[0]), relayed, es[1..], peer);
    }
  }

  lemma ConnectingEndsTheDial(d: Dials, relayed: Classifier, path: string, es: seq<Event>, peer: string)
    requires forall i :: 0 <= i < |es| && es[i].Dial? ==> es[i].target.peer != Some(peer)
    ensures AllAttempts(d, relayed, [Established(peer, path)] + es, peer) == []
  {
    var e := Established(peer, path);
    assert ([e] + es)[1..] == es;
    QuietOnceConnected(Next(d, relayed, e), relayed, es, peer);
  }

  // --- the daemon's own bookkeeping ------------------------------------------------------------

  class DialBook {
    var pending: map<string, Pending>
    var scores: seq<PathScore>
    const relayed: Classifier

    ghost function View(): Dials reads this { Dials(pending, scores) }

    constructor (classifier: Classifier)
      ensures View() == Idle.d && relayed == classifier
    {
      pending, scores := map[], [];
      relayed := classifier;
    }

    method RecordScore(path: string, peer: Option<string>, success: bool)
      modifies this`scores
      ensures scores == RecordPathScore(old(scores), path, peer, success)
    {
      var index := 0;
      while index < |scores| && scores[index].path != path
        invariant index <= |scores|
        invariant forall k :: 0 <= k < index ==> scores[k].path != path
      {
        index := index + 1;
      }
      FirstIsFound(scores, path, index);
      if index == |scores| {
        scores := scores + [PathScore(path, 0, 0, None)];
      }
      var score := scores[index];
      if success {
        score := score.(successes := score.successes + 1);
      } else {
        score := score.(failures := score.failures + 1);
      }
      scores := scores[index := score.(lastPeer := peer)];
    }

    method DialRankedTarget(target: Target, dialed: bool)
      modifies this`pending
      ensures View() == Next(old(View()), relayed, Dial(target, dialed))
    {
      if !dialed {
        return;
      }
      if target.peer.Some? {
        pending := pending[target.peer.value := Pending(target.primary, target.fallbacks)];
      }
    }

    method OutgoingConnectionError(peer: Option<string>, parses: bool) returns (retry: Option<string>)
      modifies this
      ensures View() == Next(old(View()), relayed, Failed(peer, parses))
      ensures peer.Some? ==> Just(retry) == Attempts(old(View()), Failed(peer, parses), peer.value)
      ensures peer.None? ==> retry.None?
    {
      var failedPath := DIRECT;
      if peer.Some? && peer.value in pending {
        failedPath := PathName(relayed, pending[peer.value].current);
      }
      RecordScore(failedPath, peer, false);
      if peer.Some? && peer.value in pending {
        var dial := pending[peer.value];
        if dial.fallbacks != [] {
          var address := dial.fallbacks[0];
          pending := pending[peer.value := Pending(address, dial.fallbacks[1..])];
          return if parses then Some(address) else None;
        }
      }
      return None;
    }

    method ConnectionEstablished(peer: string, path: string)
      modifies this
      ensures View() == Next(old(View()), relayed, Established(peer, path))
    {
      pending := pending - {peer};
      RecordScore(path, Some(peer), true);
    }
  }
}
