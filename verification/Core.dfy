/** The data types of crates/voicers-core/src/lib.rs that several parts of the daemon share. */
module Core {

  datatype Option<+T> = None | Some(value: T)

  function Just<T>(o: Option<T>): seq<T> { if o.Some? then [o.value] else [] }

  /** An entry of the address book. */
  datatype Known = Known(
    id: string,
    name: string,
    addresses: seq<string>,
    lastDial: Option<string>,
    connected: bool,
    pinned: bool,
    seen: bool,
    whitelisted: bool,
    trusted: bool)

  datatype PathScore = PathScore(path: string, successes: nat, failures: nat, lastPeer: Option<string>)

  /** Index of the first entry with this id, or the length of the list. */
  function Find(known: seq<Known>, id: string): (i: nat)
    ensures i <= |known|
    ensures i < |known| ==> known[i].id == id
    ensures forall k :: 0 <= k < i ==> known[k].id != id
  {
    if known == [] || known[0].id == id then 0 else 1 + Find(known[1..], id)
  }

  ghost predicate UniqueIds(known: seq<Known>) {
    forall i, k :: 0 <= i < k < |known| ==> known[i].id != known[k].id
  }

  lemma FindIsTheOne(known: seq<Known>, i: nat)
    requires UniqueIds(known) && i < |known|
    ensures Find(known, known[i].id) == i
  {
  }

  function FindPath(scores: seq<PathScore>, path: string): (i: nat)
    ensures i <= |scores|
    ensures i < |scores| ==> scores[i].path == path
    ensures forall k :: 0 <= k < i ==> scores[k].path != path
  {
    if scores == [] || scores[0].path == path then 0 else 1 + FindPath(scores[1..], path)
  }
}
