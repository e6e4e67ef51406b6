/** Whether a voice frame goes straight to its target or through a trusted relay
    (crates/voicersd/src/network/media_transport.rs). */
module Routing {
  import opened Core
  import opened Ordering

  type Offers = map<string, seq<string>>

  datatype Route = Direct | Relayed(via: string, destination: string) | Unreachable

  predicate CanRelay(offers: Offers, target: string, k: Known) {
    k.trusted && k.connected && k.id in offers && target in offers[k.id]
  }

  function RelayCandidates(known: seq<Known>, offers: Offers, target: string): seq<Known> {
    if known == [] then []
    else
      (if CanRelay(offers, target, known[0]) then [known[0]] else [])
      + RelayCandidates(known[1..], offers, target)
  }

  /** The score of the first path whose last peer was this one. */
  function RelayScore(scores: seq<PathScore>, id: string): int {
    if scores == [] then 0
    else if scores[0].lastPeer == Some(id) then scores[0].successes - scores[0].failures
    else RelayScore(scores[1..], id)
  }

  /** Higher score first, then smaller id. */
  function BetterRelay(scores: seq<PathScore>): (Known, Known) -> bool {
    (a: Known, b: Known) =>
      var p, q := RelayScore(scores, a.id), RelayScore(scores, b.id);
      p > q || (p == q && LexLe(a.id, b.id))
  }

  predicate ReachesDirectly(known: seq<Known>, isPeerId: string -> bool, target: string) {
    var i := Find(known, target);
    i < |known| && known[i].connected && isPeerId(target)
  }

  function BestId(candidates: seq<Known>, scores: seq<PathScore>): string
    requires candidates != []
  {
    SortKeeps(candidates, BetterRelay(scores));
    SameElements(candidates, Sort(candidates, BetterRelay(scores)));
    Sort(candidates, BetterRelay(scores))[0].id
  }

  function ResolveRoute(known: seq<Known>, scores: seq<PathScore>, offers: Offers,
                        isPeerId: string -> bool, target: string): Route
  {
    if ReachesDirectly(known, isPeerId, target) then Direct
    else
      var candidates := RelayCandidates(known, offers, target);
      if candidates == [] then Unreachable
      else
        var via := BestId(candidates, scores);
        if isPeerId(via) && isPeerId(target) then Relayed(via, target) else Unreachable
  }

  lemma {:induction false} CandidatesAreTheRelays(known: seq<Known>, offers: Offers, target: string)
    ensures forall k :: k in RelayCandidates(known, offers, target) <==> k in known && CanRelay(offers, target, k)
  {
    if known != [] {
      CandidatesAreTheRelays(known[1..], offers, target);
      assert known == [known[0]] + known[1..];
    }
  }

  lemma RelayRanking(scores: seq<PathScore>)
    ensures Ranking(BetterRelay(scores))
  {
    LexIsATotalOrder();
    var le := BetterRelay(scores);
    forall a: Known, b: Known ensures le(a, b) || le(b, a) {
      LexTotal(a.id, b.id);
    }
    forall a: Known, b: Known, c: Known | le(a, b) && le(b, c) ensures le(a, c) {
      if LexLe(a.id, b.id) && LexLe(b.id, c.id) { LexTransitive(a.id, b.id, c.id); }
    }
  }

  /** A relay than which none is better. */
  predicate IsBestRelay(known: seq<Known>, scores: seq<PathScore>, offers: Offers, target: string, k: Known) {
    && k in known && CanRelay(offers, target, k)
    && forall c :: c in known && CanRelay(offers, target, c) ==> BetterRelay(scores)(k, c)
  }

  lemma TheBestRelay(known: seq<Known>, scores: seq<PathScore>, offers: Offers, target: string) returns (k: Known)
    requires RelayCandidates(known, offers, target) != []
    ensures k.id == BestId(RelayCandidates(known, offers, target), scores)
    ensures IsBestRelay(known, scores, offers, target, k)
    ensures forall c :: IsBestRelay(known, scores, offers, target, c) ==> c.id == k.id
  {
    var le, candidates := BetterRelay(scores), RelayCandidates(known, offers, target);
    CandidatesAreTheRelays(known, offers, target);
    RelayRanking(scores);
    SortSpec(candidates, le);
    var s := Sort(candidates, le);
    k := s[0];
    assert k in s;
    forall c | c in known && CanRelay(offers, target, c) ensures le(k, c) {
      assert c in s;
      var i :| 0 <= i < |s| && s[i] == c;
      if i == 0 { LexTotal(c.id, c.id); }
    }
    forall c | IsBestRelay(known, scores, offers, target, c) ensures c.id == k.id {
      LexAntisymmetricIds(scores, c, k);
    }
  }

  lemma LexAntisymmetricIds(scores: seq<PathScore>, a: Known, b: Known)
    requires BetterRelay(scores)(a, b) && BetterRelay(scores)(b, a)
    ensures a.id == b.id
  {
    LexAntisymmetric(a.id, b.id);
  }

  // --- in terms of the records -----------------------------------------------------------------

  /** The first record of the target is connected. */
  predicate Linked(known: seq<Known>, target: string) {
    exists i :: 0 <= i < |known| && known[i].id == target && known[i].connected
                && forall k :: 0 <= k < i ==> known[k].id != target
  }

  /** Successes less failures on the first path this peer was the last one seen on; nothing without one. */
  predicate Standing(scores: seq<PathScore>, id: string, value: int) {
    && (forall i :: 0 <= i < |scores| && scores[i].lastPeer == Some(id)
                    && (forall k :: 0 <= k < i ==> scores[k].lastPeer != Some(id))
                    ==> value == scores[i].successes - scores[i].failures)
    && ((forall i :: 0 <= i < |scores| ==> scores[i].lastPeer != Some(id)) ==> value == 0)
  }

  /** A trusted contact, connected, that has offered the target. */
  predicate Offering(known: seq<Known>, offers: Offers, target: string, id: string) {
    exists i :: 0 <= i < |known| && known[i].id == id && known[i].trusted && known[i].connected
                && id in offers && target in offers[id]
  }

  /** No other one stands higher, or equally high with an id that sorts before. */
  ghost predicate Foremost(known: seq<Known>, scores: seq<PathScore>, offers: Offers, target: string, id: string) {
    && Offering(known, offers, target, id)
    && forall other: string, p: int, q: int ::
         Offering(known, offers, target, other) && Standing(scores, id, p) && Standing(scores, other, q) ==>
           p > q || (p == q && Precedes(id, other))
  }

  ghost predicate RouteSpec(known: seq<Known>, scores: seq<PathScore>, offers: Offers,
                            isPeerId: string -> bool, target: string, r: Route)
  {
    var direct := Linked(known, target) && isPeerId(target);
    match r
    case Direct => direct
    case Relayed(via, destination) =>
      && !direct && destination == target && isPeerId(target) && isPeerId(via)
      && Foremost(known, scores, offers, target, via)
    case Unreachable =>
      && !direct
      && forall id :: Foremost(known, scores, offers, target, id) ==> !isPeerId(target) || !isPeerId(id)
  }

  lemma LinkedMeaning(known: seq<Known>, isPeerId: string -> bool, target: string)
    ensures ReachesDirectly(known, isPeerId, target) <==> Linked(known, target) && isPeerId(target)
  {
    var i := Find(known, target);
    if k :| 0 <= k < |known| && known[k].id == target && known[k].connected
            && forall h :: 0 <= h < k ==> known[h].id != target {
      assert k == i;
    }
  }

  lemma {:induction false} StandingMeaning(scores: seq<PathScore>, id: string)
    ensures Standing(scores, id, RelayScore(scores, id))
  {
    if scores != [] && scores[0].lastPeer != Some(id) {
      StandingMeaning(scores[1..], id);
      forall i | 0 <= i < |scores| && scores[i].lastPeer == Some(id)
                 && (forall k :: 0 <= k < i ==> scores[k].lastPeer != Some(id))
        ensures RelayScore(scores, id) == scores[i].successes - scores[i].failures
      {
        assert scores[1..][i - 1] == scores[i];
        forall k | 0 <= k < i - 1 ensures scores[1..][k].lastPeer != Some(id) {
          assert scores[1..][k] == scores[k + 1];
        }
      }
      if forall i :: 0 <= i < |scores| ==> scores[i].lastPeer != Some(id) {
        assert forall i :: 0 <= i < |scores[1..]| ==> scores[1..][i] == scores[i + 1];
      }
    }
  }

  lemma StandingIsOne(scores: seq<PathScore>, id: string, p: int)
    requires Standing(scores, id, p)
    ensures p == RelayScore(scores, id)
  {
    StandingMeaning(scores, id);
    if exists i :: 0 <= i < |scores| && scores[i].lastPeer == Some(id) {
      var i := FirstSeen(scores, id);
    }
  }

  lemma {:induction false} FirstSeen(scores: seq<PathScore>, id: string) returns (i: nat)
    requires exists k :: 0 <= k < |scores| && scores[k].lastPeer == Some(id)
    ensures i < |scores| && scores[i].lastPeer == Some(id)
    ensures forall k :: 0 <= k < i ==> scores[k].lastPeer != Some(id)
  {
    i := 0;
    while scores[i].lastPeer != Some(id)
      invariant i < |scores|
      invariant forall k :: 0 <= k < i ==> scores[k].lastPeer != Some(id)
      decreases |scores| - i
    {
      i := i + 1;
    }
  }

  lemma OfferingMeaning(known: seq<Known>, offers: Offers, target: string, id: string)
    ensures Offering(known, offers, target, id) <==>
            exists k: Known :: k in known && k.id == id && CanRelay(offers, target, k)
  {
    if i :| 0 <= i < |known| && known[i].id == id && known[i].trusted && known[i].connected
            && id in offers && target in offers[id] {
      assert known[i] in known;
    }
  }

  lemma RankMeaning(scores: seq<PathScore>, a: Known, b: Known)
    ensures BetterRelay(scores)(a, b) <==>
            forall p, q :: Standing(scores, a.id, p) && Standing(scores, b.id, q) ==>
              p > q || (p == q && Precedes(a.id, b.id))
  {
    StandingMeaning(scores, a.id);
    StandingMeaning(scores, b.id);
    LexMeaning(a.id, b.id);
    forall p, q | Standing(scores, a.id, p) && Standing(scores, b.id, q)
      ensures p == RelayScore(scores, a.id) && q == RelayScore(scores, b.id)
    {
      StandingIsOne(scores, a.id, p);
      StandingIsOne(scores, b.id, q);
    }
  }

  lemma ForemostMeaning(known: seq<Known>, scores: seq<PathScore>, offers: Offers, target: string, id: string)
    ensures Foremost(known, scores, offers, target, id) <==>
            exists k: Known :: k.id == id && IsBestRelay(known, scores, offers, target, k)
  {
    OfferingMeaning(known, offers, target, id);
    if Foremost(known, scores, offers, target, id) {
      var k: Known :| k in known && k.id == id && CanRelay(offers, target, k);
      forall c | c in known && CanRelay(offers, target, c) ensures BetterRelay(scores)(k, c) {
        OfferingMeaning(known, offers, target, c.id);
        RankMeaning(scores, k, c);
      }
      assert IsBestRelay(known, scores, offers, target, k);
    }
    if k: Known :| k.id == id && IsBestRelay(known, scores, offers, target, k) {
      forall other: string, p: int, q: int |
        Offering(known, offers, target, other) && Standing(scores, id, p) && Standing(scores, other, q)
        ensures p > q || (p == q && Precedes(id, other))
      {
        OfferingMeaning(known, offers, target, other);
        var c: Known :| c in known && c.id == other && CanRelay(offers, target, c);
        RankMeaning(scores, k, c);
      }
    }
  }

  /** The route, in terms of the records alone: direct to a linked peer, else through the foremost of the
      trusted, connected contacts that offer the target, else nowhere. */
  lemma RouteMeetsSpec(known: seq<Known>, scores: seq<PathScore>, offers: Offers,
                       isPeerId: string -> bool, target: string)
    ensures RouteSpec(known, scores, offers, isPeerId, target, ResolveRoute(known, scores, offers, isPeerId, target))
  {
    LinkedMeaning(known, isPeerId, target);
    var candidates := RelayCandidates(known, offers, target);
    CandidatesAreTheRelays(known, offers, target);
    if candidates != [] {
      var k := TheBestRelay(known, scores, offers, target);
      ForemostMeaning(known, scores, offers, target, k.id);
      forall id | Foremost(known, scores, offers, target, id) ensures id == k.id {
        ForemostMeaning(known, scores, offers, target, id);
      }
    } else {
      forall id ensures !Foremost(known, scores, offers, target, id) {
        ForemostMeaning(known, scores, offers, target, id);
      }
    }
  }

  /** There is no other route that meets it. */
  lemma RouteIsDetermined(known: seq<Known>, scores: seq<PathScore>, offers: Offers,
                          isPeerId: string -> bool, target: string, r: Route)
    requires RouteSpec(known, scores, offers, isPeerId, target, r)
    ensures r == ResolveRoute(known, scores, offers, isPeerId, target)
  {
    var s := ResolveRoute(known, scores, offers, isPeerId, target);
    RouteMeetsSpec(known, scores, offers, isPeerId, target);
    if r.Relayed? && s.Relayed? {
      OneForemost(known, scores, offers, target, r.via, s.via);
    }
  }

  /** A relay is chosen only when the target is not reachable directly, and then it is a connected
      trusted contact that offered the target, with no better-scored (or equally scored and
      smaller-named) one beside it. */
  lemma RelayIsTheBest(known: seq<Known>, scores: seq<PathScore>, offers: Offers,
                       isPeerId: string -> bool, target: string)
    ensures var r := ResolveRoute(known, scores, offers, isPeerId, target);
            r.Relayed? ==>
              && !(Linked(known, target) && isPeerId(target))
              && r.destination == target && isPeerId(target) && isPeerId(r.via)
              && (exists k :: k in known && k.id == r.via && k.trusted && k.connected
                              && r.via in offers && target in offers[r.via])
              && Foremost(known, scores, offers, target, r.via)
  {
    RouteMeetsSpec(known, scores, offers, isPeerId, target);
    var r := ResolveRoute(known, scores, offers, isPeerId, target);
    if r.Relayed? {
      var i :| 0 <= i < |known| && known[i].id == r.via && known[i].trusted && known[i].connected
               && r.via in offers && target in offers[r.via];
      assert known[i] in known;
    }
  }

  /** Nobody trusted and connected offers the target. */
  predicate NobodyOffers(known: seq<Known>, offers: Offers, target: string) {
    forall k :: k in known && k.trusted && k.connected && k.id in offers ==> target !in offers[k.id]
  }

  lemma SomebodyIsForemost(known: seq<Known>, scores: seq<PathScore>, offers: Offers, target: string)
    ensures NobodyOffers(known, offers, target) <==> forall id :: !Foremost(known, scores, offers, target, id)
  {
    if NobodyOffers(known, offers, target) {
      assert forall i :: 0 <= i < |known| ==> known[i] in known;
      assert forall id :: !Offering(known, offers, target, id);
    } else {
      var candidates := RelayCandidates(known, offers, target);
      CandidatesAreTheRelays(known, offers, target);
      var c :| c in known && c.trusted && c.connected && c.id in offers && target in offers[c.id];
      assert c in candidates;
      var k := TheBestRelay(known, scores, offers, target);
      ForemostMeaning(known, scores, offers, target, k.id);
    }
  }

  /** A target is given up exactly when it is out of direct reach and nobody trusted and connected offers
      it, or its id or that of the foremost relay is unreadable. */
  lemma UnreachableMeansNoRelay(known: seq<Known>, scores: seq<PathScore>, offers: Offers,
                                isPeerId: string -> bool, target: string)
    ensures ResolveRoute(known, scores, offers, isPeerId, target).Unreachable? <==>
            && !(Linked(known, target) && isPeerId(target))
            && (|| NobodyOffers(known, offers, target)
                || !isPeerId(target)
                || (exists id :: Foremost(known, scores, offers, target, id) && !isPeerId(id)))
  {
    RouteMeetsSpec(known, scores, offers, isPeerId, target);
    SomebodyIsForemost(known, scores, offers, target);
    forall a, b | Foremost(known, scores, offers, target, a) && Foremost(known, scores, offers, target, b)
      ensures a == b
    {
      OneForemost(known, scores, offers, target, a, b);
    }
  }

  lemma OneForemost(known: seq<Known>, scores: seq<PathScore>, offers: Offers, target: string, a: string, b: string)
    requires Foremost(known, scores, offers, target, a) && Foremost(known, scores, offers, target, b)
    ensures a == b
  {
    ForemostMeaning(known, scores, offers, target, a);
    ForemostMeaning(known, scores, offers, target, b);
    var x: Known :| x.id == a && IsBestRelay(known, scores, offers, target, x);
    var y: Known :| y.id == b && IsBestRelay(known, scores, offers, target, y);
    LexAntisymmetricIds(scores, x, y);
  }

  /** A frame for the target finds a way. */
  ghost predicate HasRoute(known: seq<Known>, scores: seq<PathScore>, offers: Offers,
                           isPeerId: string -> bool, target: string)
  {
    isPeerId(target) &&
    (Linked(known, target) || exists id :: Foremost(known, scores, offers, target, id) && isPeerId(id))
  }

  lemma RouteExists(known: seq<Known>, scores: seq<PathScore>, offers: Offers,
                    isPeerId: string -> bool, target: string)
    ensures HasRoute(known, scores, offers, isPeerId, target) <==>
            !ResolveRoute(known, scores, offers, isPeerId, target).Unreachable?
  {
    RouteMeetsSpec(known, scores, offers, isPeerId, target);
  }

  lemma OfferingItselfIsLinked(known: seq<Known>, offers: Offers, target: string)
    requires UniqueIds(known) && Offering(known, offers, target, target)
    ensures Linked(known, target)
  {
    var i :| 0 <= i < |known| && known[i].id == target && known[i].trusted && known[i].connected
             && target in offers && target in offers[target];
    FindIsTheOne(known, i);
  }

  /** With unique ids in the address book the relay is never the destination itself. */
  lemma ViaIsNotTheDestination(known: seq<Known>, scores: seq<PathScore>, offers: Offers,
                               isPeerId: string -> bool, target: string)
    requires UniqueIds(known)
    ensures var r := ResolveRoute(known, scores, offers, isPeerId, target);
            r.Relayed? ==> r.via != r.destination
  {
    RelayIsTheBest(known, scores, offers, isPeerId, target);
    if Offering(known, offers, target, target) { OfferingItselfIsLinked(known, offers, target); }
  }

  /** Uniqueness is needed: with two records of one id, the first of them offline, the target becomes
      its own relay. */
  lemma DuplicateRecordRelaysToItself()
    ensures var offline := Known("t", "", [], None, false, false, false, false, false);
            var online := offline.(connected := true, trusted := true);
            ResolveRoute([offline, online], [], map["t" := ["t"]], _ => true, "t") == Relayed("t", "t")
  {
    var offline := Known("t", "", [], None, false, false, false, false, false);
    var online := offline.(connected := true, trusted := true);
    var offers: Offers := map["t" := ["t"]];
    assert [offline, online][1..] == [online] && [online][1..] == [];
    assert RelayCandidates([online], offers, "t") == [online];
    assert RelayCandidates([offline, online], offers, "t") == [online];
    assert Sort([online], BetterRelay([])) == [online];
  }

  lemma CandidatesStep(known: seq<Known>, k: nat, offers: Offers, target: string)
    requires k < |known|
    ensures RelayCandidates(known[k..], offers, target) ==
            (if CanRelay(offers, target, known[k]) then [known[k]] else [])
            + RelayCandidates(known[k + 1..], offers, target)
  {
    assert known[k..][1..] == known[k + 1..];
  }

  method FilterRelays(known: seq<Known>, offers: Offers, target: string) returns (candidates: seq<Known>)
    ensures candidates == RelayCandidates(known, offers, target)
  {
    candidates := [];
    for k := 0 to |known|
      invariant candidates + RelayCandidates(known[k..], offers, target) == RelayCandidates(known, offers, target)
    {
      CandidatesStep(known, k, offers, target);
      if CanRelay(offers, target, known[k]) {
        candidates := candidates + [known[k]];
      }
    }
    assert known[|known|..] == [];
  }

  method ResolveRouteByScan(known: seq<Known>, scores: seq<PathScore>, offers: Offers,
                            isPeerId: string -> bool, target: string) returns (route: Route)
    ensures route == ResolveRoute(known, scores, offers, isPeerId, target)
  {
    var i := Find(known, target);
    if i < |known| {
      if known[i].connected && isPeerId(target) {
        return Direct;
      }
    }
    var candidates := FilterRelays(known, offers, target);
    if candidates == [] {
      return Unreachable;
    }
    SortKeeps(candidates, BetterRelay(scores));
    SameElements(candidates, Sort(candidates, BetterRelay(scores)));
    var sorted := Sort(candidates, BetterRelay(scores));
    if isPeerId(sorted[0].id) && isPeerId(target) {
      return Relayed(sorted[0].id, target);
    }
    return Unreachable;
  }
}
