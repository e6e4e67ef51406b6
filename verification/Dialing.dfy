/** Which address of a peer to dial first, and what to try when that fails
    (crates/voicersd/src/network/media_transport.rs and network.rs), together with the second ranker
    the terminal interface uses for its preview (crates/voicers/src/ui/model.rs). */
module Dialing {
  import opened Core
  import opened Ordering
  import Text

  const DIRECT: string := "libp2p-direct"
  const RELAY: string := "libp2p-relay"

  /** Telling relayed addresses from direct ones: by parsing in the daemon, by text in the interface. */
  type Classifier = string -> bool

  function PathName(relayed: Classifier, address: string): string {
    if relayed(address) then RELAY else DIRECT
  }

  // --- ranks ---------------------------------------------------------------------------------

  /** A lexicographic key; larger is better. */
  datatype Rank = Rank(score: int, lastPeer: int, lastDial: int, requested: int)

  predicate Above(a: Rank, b: Rank) {
    || a.score > b.score
    || (a.score == b.score &&
        (|| a.lastPeer > b.lastPeer
         || (a.lastPeer == b.lastPeer &&
             (|| a.lastDial > b.lastDial
              || (a.lastDial == b.lastDial && a.requested > b.requested)))))
  }

  function Bit(b: bool): int { if b then 1 else 0 }

  function PathDelta(scores: seq<PathScore>, path: string): int {
    var i := FindPath(scores, path);
    if i < |scores| then scores[i].successes - scores[i].failures else 0
  }

  function PathLastPeer(scores: seq<PathScore>, path: string, peer: string): int {
    var i := FindPath(scores, path);
    if i < |scores| then Bit(scores[i].lastPeer == Some(peer)) else 0
  }

  /** The daemon's key for one candidate; the last-dial boost is looked up by id in the address book. */
  function DialCandidateRank(known: seq<Known>, scores: seq<PathScore>, relayed: Classifier,
                             peer: string, address: string, requested: Option<string>): Rank
  {
    var i := Find(known, peer);
    var path := PathName(relayed, address);
    Rank(PathDelta(scores, path),
         PathLastPeer(scores, path, peer),
         if i < |known| then Bit(known[i].lastDial == Some(address)) else 0,
         Bit(requested == Some(address)))
  }

  /** The interface's key, read off the record it was handed. */
  function CandidateRank(scores: seq<PathScore>, relayed: Classifier, peer: Known, address: string): Rank {
    var path := PathName(relayed, address);
    Rank(PathDelta(scores, path), PathLastPeer(scores, path, peer.id), Bit(peer.lastDial == Some(address)), 0)
  }

  /** Better rank first, then by text. */
  function ByRank(rank: string -> Rank): (string, string) -> bool {
    (a: string, b: string) => Above(rank(a), rank(b)) || (rank(a) == rank(b) && LexLe(a, b))
  }

  lemma RankingIsTotal(rank: string -> Rank)
    ensures TotalOrder(ByRank(rank))
  {
    LexIsATotalOrder();
    var le := ByRank(rank);
    forall a: string, b: string ensures le(a, b) || le(b, a) {
      RanksCompare(rank(a), rank(b));
      LexTotal(a, b);
    }
    forall a: string, b: string | le(a, b) && le(b, a) ensures a == b {
      RanksCompare(rank(a), rank(b));
      LexAntisymmetric(a, b);
    }
    forall a: string, b: string, c: string | le(a, b) && le(b, c) ensures le(a, c) {
      RanksCompose(rank(a), rank(b), rank(c));
      if rank(a) == rank(b) == rank(c) { LexTransitive(a, b, c); }
    }
  }

  lemma RanksCompare(a: Rank, b: Rank)
    ensures a == b || Above(a, b) || Above(b, a)
    ensures !(Above(a, b) && Above(b, a)) && !Above(a, a)
  {
  }

  lemma RanksCompose(a: Rank, b: Rank, c: Rank)
    requires Above(a, b) || a == b
    requires Above(b, c) || b == c
    ensures Above(a, c) || (a == b == c)
  {
  }

  // --- the daemon's ranking ------------------------------------------------------------------

  function DaemonOrder(known: seq<Known>, scores: seq<PathScore>, relayed: Classifier,
                       peer: string, requested: Option<string>): (string, string) -> bool
  {
    ByRank((address: string) => DialCandidateRank(known, scores, relayed, peer, address, requested))
  }

  function Candidates(peer: Known, requested: Option<string>): seq<string> {
    Just(requested) + Just(peer.lastDial) + peer.addresses
  }

  function Ranked(known: seq<Known>, scores: seq<PathScore>, relayed: Classifier,
                  peer: Known, requested: Option<string>): seq<string>
  {
    Sort(DedupOnto([], Candidates(peer, requested)), DaemonOrder(known, scores, relayed, peer.id, requested))
  }

  /** The ranked list has no repetition, holds exactly the requested, last-dialed and saved addresses,
      and is sorted by rank and then by text. */
  lemma RankedSpec(known: seq<Known>, scores: seq<PathScore>, relayed: Classifier,
                   peer: Known, requested: Option<string>)
    ensures var r := Ranked(known, scores, relayed, peer, requested);
            && Distinct(r)
            && Sorted(r, DaemonOrder(known, scores, relayed, peer.id, requested))
            && forall a :: a in r <==> requested == Some(a) || peer.lastDial == Some(a) || a in peer.addresses
  {
    var c := Candidates(peer, requested);
    DedupSpec([], c);
    RankingIsTotal((address: string) => DialCandidateRank(known, scores, relayed, peer.id, address, requested));
    SortSpec(DedupOnto([], c), DaemonOrder(known, scores, relayed, peer.id, requested));
    forall a ensures a in c <==> requested == Some(a) || peer.lastDial == Some(a) || a in peer.addresses {
    }
  }

  /** No other list has these three properties. */
  lemma RankedIsTheOnly(known: seq<Known>, scores: seq<PathScore>, relayed: Classifier,
                        peer: Known, requested: Option<string>, r: seq<string>)
    requires Distinct(r) && Sorted(r, DaemonOrder(known, scores, relayed, peer.id, requested))
    requires forall a :: a in r <==> requested == Some(a) || peer.lastDial == Some(a) || a in peer.addresses
    ensures r == Ranked(known, scores, relayed, peer, requested)
  {
    RankedSpec(known, scores, relayed, peer, requested);
    RankingIsTotal((address: string) => DialCandidateRank(known, scores, relayed, peer.id, address, requested));
    SortedIsUnique(r, Ranked(known, scores, relayed, peer, requested),
                   DaemonOrder(known, scores, relayed, peer.id, requested));
  }

  /** The order and repetition of the saved addresses do not matter, nor does anything else in the
      record but its id and its last dialed address. */
  lemma RankingIsCanonical(known: seq<Known>, scores: seq<PathScore>, relayed: Classifier,
                           p: Known, q: Known, requested: Option<string>)
    requires p.id == q.id && p.lastDial == q.lastDial
    requires forall a :: a in p.addresses <==> a in q.addresses
    ensures Ranked(known, scores, relayed, p, requested) == Ranked(known, scores, relayed, q, requested)
  {
    RankedSpec(known, scores, relayed, p, requested);
    RankedIsTheOnly(known, scores, relayed, q, requested, Ranked(known, scores, relayed, p, requested));
  }

  /** Successes less failures of a path, from its first entry; nothing without one. */
  predicate Credit(scores: seq<PathScore>, path: string, value: int) {
    && (forall i :: 0 <= i < |scores| && scores[i].path == path && (forall k :: 0 <= k < i ==> scores[k].path != path)
         ==> value == scores[i].successes - scores[i].failures)
    && ((forall i :: 0 <= i < |scores| ==> scores[i].path != path) ==> value == 0)
  }

  /** The path was last used with this peer. */
  predicate LastWith(scores: seq<PathScore>, path: string, peer: string) {
    exists i :: 0 <= i < |scores| && scores[i].path == path && scores[i].lastPeer == Some(peer)
                && forall k :: 0 <= k < i ==> scores[k].path != path
  }

  /** The address was the last one dialed for this peer. */
  predicate DialedLast(known: seq<Known>, peer: string, address: string) {
    exists i :: 0 <= i < |known| && known[i].id == peer && known[i].lastDial == Some(address)
                && forall k :: 0 <= k < i ==> known[k].id != peer
  }

  function PathOf(relayed: Classifier, address: string): string {
    if relayed(address) then "libp2p-relay" else "libp2p-direct"
  }

  /** Decided by the first of these that tells the two apart: last used with this peer, last dialed for it,
      asked for now, and at last the text. */
  predicate WinsTheTie(known: seq<Known>, scores: seq<PathScore>, relayed: Classifier,
                       peer: string, requested: Option<string>, a: string, b: string)
  {
    var p, q := LastWith(scores, PathOf(relayed, a), peer), LastWith(scores, PathOf(relayed, b), peer);
    if p != q then p
    else if DialedLast(known, peer, a) != DialedLast(known, peer, b) then DialedLast(known, peer, a)
    else if (requested == Some(a)) != (requested == Some(b)) then requested == Some(a)
    else Precedes(a, b)
  }

  lemma CreditMeaning(scores: seq<PathScore>, path: string, value: int)
    ensures Credit(scores, path, value) <==> value == PathDelta(scores, path)
  {
    var i := FindPath(scores, path);
    if i < |scores| {
      forall k | 0 <= k < |scores| && scores[k].path == path && (forall h :: 0 <= h < k ==> scores[h].path != path)
        ensures k == i
      {
      }
    }
  }

  lemma LastWithMeaning(scores: seq<PathScore>, path: string, peer: string)
    ensures PathLastPeer(scores, path, peer) == if LastWith(scores, path, peer) then 1 else 0
  {
    var i := FindPath(scores, path);
    if k :| 0 <= k < |scores| && scores[k].path == path && scores[k].lastPeer == Some(peer)
            && forall h :: 0 <= h < k ==> scores[h].path != path {
      assert k == i;
    }
  }

  lemma DialedLastMeaning(known: seq<Known>, peer: string, address: string)
    ensures DialedLast(known, peer, address) <==>
            Find(known, peer) < |known| && known[Find(known, peer)].lastDial == Some(address)
  {
    if k :| 0 <= k < |known| && known[k].id == peer && known[k].lastDial == Some(address)
            && forall h :: 0 <= h < k ==> known[h].id != peer {
      assert k == Find(known, peer);
    }
  }

  /** What the rank of an address is made of, in terms of the records. */
  lemma RankOfAddress(known: seq<Known>, scores: seq<PathScore>, relayed: Classifier,
                      peer: string, address: string, requested: Option<string>)
    ensures var r := DialCandidateRank(known, scores, relayed, peer, address, requested);
            && Credit(scores, PathOf(relayed, address), r.score)
            && r.lastPeer == (if LastWith(scores, PathOf(relayed, address), peer) then 1 else 0)
            && r.lastDial == (if DialedLast(known, peer, address) then 1 else 0)
            && r.requested == (if requested == Some(address) then 1 else 0)
  {
    CreditMeaning(scores, PathOf(relayed, address), PathDelta(scores, PathOf(relayed, address)));
    LastWithMeaning(scores, PathOf(relayed, address), peer);
    DialedLastMeaning(known, peer, address);
  }

  /** One address is dialed before another if its path has the better credit, or wins the tie. */
  lemma DialOrderMeaning(known: seq<Known>, scores: seq<PathScore>, relayed: Classifier,
                         peer: string, requested: Option<string>, a: string, b: string)
    ensures DaemonOrder(known, scores, relayed, peer, requested)(a, b) <==>
            forall p, q :: Credit(scores, PathOf(relayed, a), p) && Credit(scores, PathOf(relayed, b), q) ==>
              p > q || (p == q && WinsTheTie(known, scores, relayed, peer, requested, a, b))
  {
    var r, s := DialCandidateRank(known, scores, relayed, peer, a, requested),
                DialCandidateRank(known, scores, relayed, peer, b, requested);
    RankOfAddress(known, scores, relayed, peer, a, requested);
    RankOfAddress(known, scores, relayed, peer, b, requested);
    forall p, q | Credit(scores, PathOf(relayed, a), p) && Credit(scores, PathOf(relayed, b), q)
      ensures p == r.score && q == s.score
    {
      CreditMeaning(scores, PathOf(relayed, a), p);
      CreditMeaning(scores, PathOf(relayed, b), q);
    }
    LexMeaning(a, b);
    OrderOfRanks(known, scores, relayed, peer, requested, a, b, r, s);
  }

  lemma OrderOfRanks(known: seq<Known>, scores: seq<PathScore>, relayed: Classifier,
                     peer: string, requested: Option<string>, a: string, b: string, r: Rank, s: Rank)
    requires r == DialCandidateRank(known, scores, relayed, peer, a, requested)
    requires s == DialCandidateRank(known, scores, relayed, peer, b, requested)
    ensures DaemonOrder(known, scores, relayed, peer, requested)(a, b) <==>
            Above(r, s) || (r == s && LexLe(a, b))
  {
  }

  method FirstOccurrences(candidates: seq<string>) returns (deduped: seq<string>)
    ensures deduped == DedupOnto([], candidates)
  {
    deduped := [];
    for i := 0 to |candidates|
      invariant deduped == DedupOnto([], candidates[..i])
    {
      DedupSnoc([], candidates[..i], candidates[i]);
      assert candidates[..i + 1] == candidates[..i] + [candidates[i]];
      if candidates[i] !in deduped {
        deduped := deduped + [candidates[i]];
      }
    }
    assert candidates[..|candidates|] == candidates;
  }

  method RankKnownPeerAddresses(known: seq<Known>, scores: seq<PathScore>, relayed: Classifier,
                                peer: Known, requested: Option<string>) returns (ranked: seq<string>)
    ensures ranked == Ranked(known, scores, relayed, peer, requested)
  {
    var candidates := [];
    if requested.Some? { candidates := candidates + [requested.value]; }
    if peer.lastDial.Some? { candidates := candidates + [peer.lastDial.value]; }
    candidates := candidates + peer.addresses;
    assert candidates == Candidates(peer, requested);
    var deduped := FirstOccurrences(candidates);
    ranked := Sort(deduped, DaemonOrder(known, scores, relayed, peer.id, requested));
  }

  // --- the interface's preview ---------------------------------------------------------------

  const CIRCUIT: string := "/p2p-circuit/"

  /** The interface looks for the circuit component with a slash on both sides. */
  function TextClassifier(): Classifier { (address: string) => Text.Contains(address, CIRCUIT) }

  function PreviewOrder(scores: seq<PathScore>, relayed: Classifier, peer: Known): (string, string) -> bool {
    ByRank((address: string) => CandidateRank(scores, relayed, peer, address))
  }

  function RankedFallbackCandidates(scores: seq<PathScore>, relayed: Classifier, peer: Known): seq<string> {
    Sort(DedupOnto([], Just(peer.lastDial) + peer.addresses), PreviewOrder(scores, relayed, peer))
  }

  /** The address book yields this very record for its id; unique ids give that for every entry. */
  predicate Current(known: seq<Known>, peer: Known) {
    Find(known, peer.id) < |known| && known[Find(known, peer.id)] == peer
  }

  lemma UniqueMakesCurrent(known: seq<Known>, i: nat)
    requires UniqueIds(known) && i < |known|
    ensures Current(known, known[i])
  {
    FindIsTheOne(known, i);
  }

  /** On a current record the two keys differ only by the classifier. */
  lemma KeysAgree(known: seq<Known>, scores: seq<PathScore>, relayed: Classifier, peer: Known, address: string)
    requires Current(known, peer)
    ensures DialCandidateRank(known, scores, relayed, peer.id, address, None)
            == CandidateRank(scores, relayed, peer, address)
  {
  }

  predicate Alike(addresses: seq<string>, c: Classifier, d: Classifier) {
    forall a :: a in addresses ==> c(a) == d(a)
  }

  predicate Uniform(addresses: seq<string>, c: Classifier) {
    forall a, b :: a in addresses && b in addresses ==> c(a) == c(b)
  }

  function Saved(peer: Known): seq<string> { Just(peer.lastDial) + peer.addresses }

  /** How two addresses of one path compare: by last dial, then by text. */
  predicate TieBreak(peer: Known, a: string, b: string) {
    || Bit(peer.lastDial == Some(a)) > Bit(peer.lastDial == Some(b))
    || (Bit(peer.lastDial == Some(a)) == Bit(peer.lastDial == Some(b)) && LexLe(a, b))
  }

  lemma OnePathTies(scores: seq<PathScore>, c: Classifier, peer: Known, a: string, b: string)
    requires c(a) == c(b)
    ensures PreviewOrder(scores, c, peer)(a, b) == TieBreak(peer, a, b)
  {
    PreviewOrderMeaning(scores, c, peer, a, b);
  }

  lemma PreviewOrderMeaning(scores: seq<PathScore>, c: Classifier, peer: Known, a: string, b: string)
    ensures var p, q := CandidateRank(scores, c, peer, a), CandidateRank(scores, c, peer, b);
            PreviewOrder(scores, c, peer)(a, b) == (Above(p, q) || (p == q && LexLe(a, b)))
  {
  }

  lemma DaemonOrderIsPreviewOrder(known: seq<Known>, scores: seq<PathScore>, c: Classifier, peer: Known)
    requires Current(known, peer)
    ensures Ranked(known, scores, c, peer, None) == RankedFallbackCandidates(scores, c, peer)
  {
    var s := DedupOnto([], Saved(peer));
    assert Candidates(peer, None) == Saved(peer);
    var le1, le2 := DaemonOrder(known, scores, c, peer.id, None), PreviewOrder(scores, c, peer);
    forall x, y | x in s && y in s ensures le1(x, y) == le2(x, y) {
      KeysAgree(known, scores, c, peer, x);
      KeysAgree(known, scores, c, peer, y);
    }
    SortAgree(s, le1, le2);
  }

  lemma PreviewsAgree(scores: seq<PathScore>, c: Classifier, d: Classifier, peer: Known)
    requires Alike(Saved(peer), c, d) || (Uniform(Saved(peer), c) && Uniform(Saved(peer), d))
    ensures RankedFallbackCandidates(scores, c, peer) == RankedFallbackCandidates(scores, d, peer)
  {
    var s := DedupOnto([], Saved(peer));
    DedupSpec([], Saved(peer));
    var le1, le2 := PreviewOrder(scores, c, peer), PreviewOrder(scores, d, peer);
    forall x, y | x in s && y in s ensures le1(x, y) == le2(x, y) {
      if !Alike(Saved(peer), c, d) {
        OnePathTies(scores, c, peer, x, y);
        OnePathTies(scores, d, peer, x, y);
      }
    }
    SortAgree(s, le1, le2);
  }

  /** One success on one of the two paths. */
  function Favour(relay: bool): seq<PathScore> {
    [PathScore(if relay then RELAY else DIRECT, 1, 0, None)]
  }

  lemma FavouredPathComesFirst(relay: bool, c: Classifier, peer: Known, a: string, b: string)
    requires c(a) != c(b)
    ensures PreviewOrder(Favour(relay), c, peer)(a, b) == (c(a) == relay)
  {
    PreviewOrderMeaning(Favour(relay), c, peer, a, b);
    assert RELAY[7] != DIRECT[7];
    assert CandidateRank(Favour(relay), c, peer, a).score == if c(a) == relay then 1 else 0;
    assert CandidateRank(Favour(relay), c, peer, b).score == if c(b) == relay then 1 else 0;
  }

  lemma OrdersDiffer(scores: seq<PathScore>, c: Classifier, d: Classifier, peer: Known, a: string, b: string)
    requires a in Saved(peer) && b in Saved(peer)
    requires PreviewOrder(scores, c, peer)(a, b) != PreviewOrder(scores, d, peer)(a, b)
    ensures RankedFallbackCandidates(scores, c, peer) != RankedFallbackCandidates(scores, d, peer)
  {
    var s := DedupOnto([], Saved(peer));
    DedupSpec([], Saved(peer));
    var le1, le2 := PreviewOrder(scores, c, peer), PreviewOrder(scores, d, peer);
    RankingIsTotal((address: string) => CandidateRank(scores, c, peer, address));
    RankingIsTotal((address: string) => CandidateRank(scores, d, peer, address));
    SortSpec(s, le1);
    SortSpec(s, le2);
    if Sort(s, le1) == Sort(s, le2) {
      SortedByBoth(Sort(s, le1), le1, le2, a, b);
    }
  }

  /** If the classifiers split the addresses differently, one of two one-line score tables shows it. */
  lemma SplitShows(c: Classifier, d: Classifier, peer: Known, a: string, b: string) returns (scores: seq<PathScore>)
    requires a in Saved(peer) && b in Saved(peer)
    requires (c(a) != c(b) && d(a) == d(b)) || (c(a) != c(b) && d(a) != d(b) && c(a) != d(a))
    ensures RankedFallbackCandidates(scores, c, peer) != RankedFallbackCandidates(scores, d, peer)
  {
    var relay := if d(a) == d(b) && TieBreak(peer, a, b) then !c(a) else c(a);
    scores := Favour(relay);
    FavouredPathComesFirst(relay, c, peer, a, b);
    if d(a) == d(b) {
      OnePathTies(scores, d, peer, a, b);
    } else {
      FavouredPathComesFirst(relay, d, peer, a, b);
    }
    OrdersDiffer(scores, c, d, peer, a, b);
  }

  lemma SplitExists(addresses: seq<string>, c: Classifier, d: Classifier) returns (a: string, b: string, swap: bool)
    requires !Alike(addresses, c, d) && !(Uniform(addresses, c) && Uniform(addresses, d))
    ensures a in addresses && b in addresses
    ensures !swap ==> (c(a) != c(b) && d(a) == d(b)) || (c(a) != c(b) && d(a) != d(b) && c(a) != d(a))
    ensures swap ==> d(a) != d(b) && c(a) == c(b)
  {
    var x :| x in addresses && c(x) != d(x);
    if !Uniform(addresses, c) {
      var p, q :| p in addresses && q in addresses && c(p) != c(q);
      a, b, swap := x, if c(x) != c(p) then p else q, false;
    } else {
      var p, q :| p in addresses && q in addresses && d(p) != d(q);
      a, b, swap := p, q, true;
    }
  }

  /** The preview shows the daemon's order under every score table exactly when both classify every
      saved address alike, or each puts all of them on one path. */
  lemma PreviewMatchesDaemon(known: seq<Known>, i: nat, daemon: Classifier, text: Classifier)
    requires UniqueIds(known) && i < |known|
    ensures var peer := known[i];
            (forall scores: seq<PathScore> ::
               Ranked(known, scores, daemon, peer, None) == RankedFallbackCandidates(scores, text, peer))
            <==> Alike(Saved(peer), daemon, text) || (Uniform(Saved(peer), daemon) && Uniform(Saved(peer), text))
  {
    var peer := known[i];
    UniqueMakesCurrent(known, i);
    if Alike(Saved(peer), daemon, text) || (Uniform(Saved(peer), daemon) && Uniform(Saved(peer), text)) {
      forall scores: seq<PathScore>
        ensures Ranked(known, scores, daemon, peer, None) == RankedFallbackCandidates(scores, text, peer)
      {
        DaemonOrderIsPreviewOrder(known, scores, daemon, peer);
        PreviewsAgree(scores, daemon, text, peer);
      }
    } else {
      var a, b, swap := SplitExists(Saved(peer), daemon, text);
      var scores;
      if swap {
        scores := SplitShows(text, daemon, peer, a, b);
      } else {
        scores := SplitShows(daemon, text, peer, a, b);
      }
      DaemonOrderIsPreviewOrder(known, scores, daemon, peer);
    }
  }

  // --- where the two classifiers of the code differ -----------------------------------------------

  const CIRCUIT_NAME: string := "p2p-circuit"

  function FirstSlash(text: string): (n: nat)
    ensures n <= |text|
    ensures forall i :: 0 <= i < n ==> text[i] != '/'
    ensures n < |text| ==> text[n] == '/'
  {
    if text == "" || text[0] == '/' then 0 else 1 + FirstSlash(text[1..])
  }

  /** A text cut at its slashes. */
  function Parts(text: string): (parts: seq<string>)
    ensures parts != []
  {
    var n := FirstSlash(text);
    [text[..n]] + if n == |text| then [] else Parts(text[n + 1..])
  }

  predicate SlashFree(text: string) { forall i :: 0 <= i < |text| ==> text[i] != '/' }

  lemma FirstPart(c: string, rest: string)
    requires SlashFree(c) && (rest != "" ==> rest[0] == '/')
    ensures FirstSlash(c + rest) == |c|
  {
    var n := FirstSlash(c + rest);
    assert forall i :: 0 <= i < |c| ==> (c + rest)[i] == c[i];
    assert rest != "" ==> (c + rest)[|c|] == '/';
  }

  /** No match begins inside a part: a match begins with a slash. */
  lemma {:induction false} MatchesBeginAtSlashes(c: string, rest: string)
    requires SlashFree(c)
    ensures Text.Contains(c + rest, CIRCUIT) <==> Text.Contains(rest, CIRCUIT)
  {
    if c == "" {
      assert c + rest == rest;
    } else {
      var all := c + rest;
      assert all[0] == c[0] != '/' && all[1..] == c[1..] + rest;
      MatchesBeginAtSlashes(c[1..], rest);
      if |CIRCUIT| <= |all| { assert all[..|CIRCUIT|][0] != CIRCUIT[0]; }
      if Text.Contains(rest, CIRCUIT) { assert |CIRCUIT| <= |rest| <= |all|; }
    }
  }

  lemma WholePart(name: string, c: string, rest: string)
    requires SlashFree(name) && SlashFree(c) && (rest != "" ==> rest[0] == '/')
    ensures name + "/" <= c + rest <==> c == name && rest != ""
  {
    var all := c + rest;
    if name + "/" <= all {
      var tail := all[|name|..];
      assert all[|name|] == (name + "/")[|name|];
      assert all == name + tail;
      FirstPart(c, rest);
      FirstPart(name, tail);
      assert c == all[..|c|];
    }
  }

  /** A match at the slash before a part is that part, followed by another one. */
  lemma MatchAtPart(c: string, rest: string)
    requires SlashFree(c) && (rest != "" ==> rest[0] == '/')
    ensures CIRCUIT <= "/" + c + rest <==> c == CIRCUIT_NAME && rest != ""
  {
    WholePart(CIRCUIT_NAME, c, rest);
    UnderSlash(CIRCUIT, CIRCUIT_NAME + "/", "/" + c + rest, c + rest);
  }

  lemma UnderSlash(a: string, b: string, s: string, t: string)
    requires a == "/" + b && s == "/" + t
    ensures a <= s <==> b <= t
  {
    assert forall k :: 0 <= k < |b| ==> a[k + 1] == b[k];
    assert forall k :: 0 <= k < |t| ==> s[k + 1] == t[k];
    if a <= s {
      assert forall k :: 0 <= k < |b| ==> t[k] == s[k + 1] == a[k + 1];
    }
  }

  lemma ContainsStep(text: string, tail: string, part: string)
    requires text == "/" + tail && |part| > 0
    ensures Text.Contains(text, part) <==> part <= text || (|part| <= |text| && Text.Contains(tail, part))
  {
    assert text[1..] == tail;
  }

  /** A circuit between two slashes. */
  predicate InnerCircuit(parts: seq<string>) {
    exists i :: 1 <= i < |parts| - 1 && parts[i] == CIRCUIT_NAME
  }

  lemma InnerCircuitStep(first: string, parts: seq<string>)
    requires parts != []
    ensures InnerCircuit([first] + parts) <==> (parts[0] == CIRCUIT_NAME && |parts| > 1) || InnerCircuit(parts)
  {
    var all := [first] + parts;
    if i :| 1 <= i < |all| - 1 && all[i] == CIRCUIT_NAME {
      assert parts[i - 1] == all[i];
    }
    if parts[0] == CIRCUIT_NAME && |parts| > 1 {
      assert all[1] == parts[0];
    }
    if i :| 1 <= i < |parts| - 1 && parts[i] == CIRCUIT_NAME {
      assert all[i + 1] == parts[i];
    }
  }

  /** The interface finds exactly the circuits between two slashes, in any text. */
  lemma {:induction false} TextSearchMeaning(text: string)
    ensures TextClassifier()(text) <==> InnerCircuit(Parts(text))
    decreases |text|
  {
    var n := FirstSlash(text);
    var c, rest := text[..n], text[n..];
    assert text == c + rest;
    MatchesBeginAtSlashes(c, rest);
    if n < |text| {
      var tail := text[n + 1..];
      assert rest == "/" + tail;
      TextSearchMeaning(tail);
      InnerCircuitStep(c, Parts(tail));
      ContainsStep(rest, tail, CIRCUIT);
      CircuitHere(tail);
    }
  }

  lemma CircuitHere(tail: string)
    ensures CIRCUIT <= "/" + tail <==> Parts(tail)[0] == CIRCUIT_NAME && |Parts(tail)| > 1
  {
    var n := FirstSlash(tail);
    MatchAtPart(tail[..n], tail[n..]);
    assert "/" + tail[..n] + tail[n..] == "/" + tail;
    FirstOfParts(tail);
  }

  lemma FirstOfParts(text: string)
    ensures Parts(text)[0] == text[..FirstSlash(text)]
    ensures |Parts(text)| > 1 <==> FirstSlash(text) < |text|
  {
  }

  /** What parsing makes of the parts of an address: names of protocols and values that belong to them. */
  datatype Component = Protocol(name: string) | Value(text: string)

  function Written(c: Component): string {
    if c.Protocol? then c.name else c.text
  }

  function Texts(cs: seq<Component>): seq<string> {
    seq(|cs|, i requires 0 <= i < |cs| => Written(cs[i]))
  }

  type MultiaddrParser = string -> Option<seq<Component>>

  /** A parser may refuse a text, but reads it part by part, from a leading slash on, if it does not. */
  predicate ReadsParts(parse: MultiaddrParser, text: string) {
    parse(text).Some? ==> Parts(text) == [""] + Texts(parse(text).value)
  }

  /** The daemon: the text parses and one of its protocols is the circuit. */
  function ParsedClassifier(parse: MultiaddrParser): Classifier {
    (address: string) => parse(address).Some? && Protocol(CIRCUIT_NAME) in parse(address).value
  }

  /** A relayed address whose only circuit comes last. */
  predicate Overlooked(parse: MultiaddrParser, text: string) {
    && parse(text).Some?
    && var cs := parse(text).value;
    && cs != [] && cs[|cs| - 1] == Protocol(CIRCUIT_NAME)
    && forall i :: 0 <= i < |cs| - 1 ==> Written(cs[i]) != CIRCUIT_NAME
  }

  /** A circuit between two slashes in a text that does not parse, or only as a value: a host name, say. */
  predicate Misread(parse: MultiaddrParser, text: string) {
    && InnerCircuit(Parts(text))
    && (parse(text).None? || Protocol(CIRCUIT_NAME) !in parse(text).value)
  }

  lemma InnerComponents(parts: seq<string>, cs: seq<Component>)
    requires parts == [""] + Texts(cs)
    ensures InnerCircuit(parts) <==> exists i :: 0 <= i < |cs| - 1 && Written(cs[i]) == CIRCUIT_NAME
  {
    if i :| 1 <= i < |parts| - 1 && parts[i] == CIRCUIT_NAME {
      assert Written(cs[i - 1]) == parts[i];
    }
    if i :| 0 <= i < |cs| - 1 && Written(cs[i]) == CIRCUIT_NAME {
      assert parts[i + 1] == Written(cs[i]);
    }
  }

  /** On every text the interface and the daemon agree, except on these two kinds. */
  lemma ClassifiersAgree(parse: MultiaddrParser, text: string)
    requires ReadsParts(parse, text)
    ensures TextClassifier()(text) == ParsedClassifier(parse)(text) <==>
            !Overlooked(parse, text) && !Misread(parse, text)
  {
    TextSearchMeaning(text);
    if parse(text).Some? {
      InnerComponents(Parts(text), parse(text).value);
    }
  }

  /** So the preview is right about a record none of whose addresses is of these kinds. */
  lemma PreviewIsRight(known: seq<Known>, i: nat, scores: seq<PathScore>, parse: MultiaddrParser)
    requires UniqueIds(known) && i < |known|
    requires forall a :: a in Saved(known[i]) ==>
               ReadsParts(parse, a) && !Overlooked(parse, a) && !Misread(parse, a)
    ensures Ranked(known, scores, ParsedClassifier(parse), known[i], None)
            == RankedFallbackCandidates(scores, TextClassifier(), known[i])
  {
    var daemon, text := ParsedClassifier(parse), TextClassifier();
    forall a | a in Saved(known[i]) ensures daemon(a) == text(a) {
      ClassifiersAgree(parse, a);
    }
    PreviewMatchesDaemon(known, i, daemon, text);
  }

  // --- addresses of each kind --------------------------------------------------------------------

  function Render(texts: seq<string>): string {
    if texts == [] then "" else "/" + texts[0] + Render(texts[1..])
  }

  lemma PartsStep(c: string, rest: string)
    requires SlashFree(c) && (rest != "" ==> rest[0] == '/')
    ensures Parts(c + rest) == [c] + if rest == "" then [] else Parts(rest[1..])
  {
    var all := c + rest;
    FirstPart(c, rest);
    assert all[..|c|] == c;
    if rest != "" { assert all[|c| + 1..] == rest[1..]; }
  }

  lemma RenderStep(texts: seq<string>) returns (rest: string)
    ensures rest == Render(texts) && (rest == "" <==> texts == [])
    ensures texts != [] ==> rest[0] == '/' && rest[1..] == texts[0] + Render(texts[1..])
  {
    rest := Render(texts);
    if texts != [] {
      var more := texts[0] + Render(texts[1..]);
      assert rest == "/" + more;
    }
  }

  lemma {:induction false} PartsOfRender(first: string, texts: seq<string>, all: string)
    requires SlashFree(first) && forall i :: 0 <= i < |texts| ==> SlashFree(texts[i])
    requires all == first + Render(texts)
    ensures Parts(all) == [first] + texts
    decreases |texts|
  {
    var rest := RenderStep(texts);
    PartsStep(first, rest);
    if texts != [] {
      PartsOfRender(texts[0], texts[1..], rest[1..]);
      assert texts == [texts[0]] + texts[1..];
    }
  }

  predicate Writable(cs: seq<Component>) {
    forall i :: 0 <= i < |cs| ==> SlashFree(Written(cs[i]))
  }

  function Address(cs: seq<Component>): string { Render(Texts(cs)) }

  lemma PartsOfAddress(cs: seq<Component>)
    requires Writable(cs)
    ensures Parts(Address(cs)) == [""] + Texts(cs)
  {
    assert "" + Address(cs) == Address(cs);
    PartsOfRender("", Texts(cs), Address(cs));
  }

  /** The way through a relay, as the relay's own address with the circuit appended: relayed for the
      daemon, direct for the interface. */
  lemma FinalCircuitIsOverlooked(parse: MultiaddrParser, hop: seq<Component>)
    requires Writable(hop) && forall i :: 0 <= i < |hop| ==> Written(hop[i]) != CIRCUIT_NAME
    requires var cs := hop + [Protocol(CIRCUIT_NAME)]; parse(Address(cs)) == Some(cs)
    ensures var text := Address(hop + [Protocol(CIRCUIT_NAME)]);
            Overlooked(parse, text) && ParsedClassifier(parse)(text) && !TextClassifier()(text)
  {
    var cs := hop + [Protocol(CIRCUIT_NAME)];
    assert cs[|hop|] == Protocol(CIRCUIT_NAME);
    PartsOfAddress(cs);
    ClassifiersAgree(parse, Address(cs));
  }

  /** An invite hint is stored unparsed.  One with a circuit inside that does not parse, for a port out
      of range, say, is relayed for the interface and direct for the daemon. */
  lemma UnparsableHintIsMisread(parse: MultiaddrParser, cs: seq<Component>, i: nat)
    requires Writable(cs) && i + 1 < |cs| && Written(cs[i]) == CIRCUIT_NAME && parse(Address(cs)).None?
    ensures Misread(parse, Address(cs)) && TextClassifier()(Address(cs)) && !ParsedClassifier(parse)(Address(cs))
  {
    PartsOfAddress(cs);
    InnerComponents(Parts(Address(cs)), cs);
    TextSearchMeaning(Address(cs));
  }

  /** So is an address that parses, when a host in it is called like the protocol. */
  lemma HostNameIsMisread(parse: MultiaddrParser, cs: seq<Component>, i: nat)
    requires Writable(cs) && i + 1 < |cs| && cs[i] == Value(CIRCUIT_NAME) && Protocol(CIRCUIT_NAME) !in cs
    requires parse(Address(cs)) == Some(cs)
    ensures Misread(parse, Address(cs)) && TextClassifier()(Address(cs)) && !ParsedClassifier(parse)(Address(cs))
  {
    PartsOfAddress(cs);
    InnerComponents(Parts(Address(cs)), cs);
    TextSearchMeaning(Address(cs));
  }
}
