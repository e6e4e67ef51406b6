/** The address book and its three derived views: crates/voicersd/src/app/peer_book.rs,
    `update_known_peer` of crates/voicersd/src/network.rs, `seed_rendezvous_invite` of
    network/invite.rs and `refresh_user_views` of crates/voicers-core/src/lib.rs. */
module Contacts {
  import opened Core
  import Text

  const UNKNOWN_ADDRESS: string := "<unknown>"

  /** What the networking library and the display helpers contribute. */
  datatype Env = Env(
    shareable: (string, string) -> Option<string>,   // address, peer id -> address to advertise
    defaultName: string -> string)

  datatype Book = Book(
    known: seq<Known>,
    ignored: seq<string>,
    friends: seq<Known>,
    seenUsers: seq<Known>,
    discovered: seq<Known>)

  /** The part of a live peer the address book copies. */
  datatype LivePeer = LivePeer(id: string, name: string, address: string, connected: bool, inSession: bool)

  // --- the list ------------------------------------------------------------------------------

  function Lookup(known: seq<Known>, id: string): Option<Known> {
    var i := Find(known, id);
    if i < |known| then Some(known[i]) else None
  }

  /** Replace the first entry with this id, or append it. */
  function Put(known: seq<Known>, e: Known): seq<Known> {
    var i := Find(known, e.id);
    if i < |known| then known[i := e] else known + [e]
  }

  lemma FoundFirst(known: seq<Known>, id: string, i: nat)
    requires i <= |known| && forall k :: 0 <= k < i ==> known[k].id != id
    requires i < |known| ==> known[i].id == id
    ensures Find(known, id) == i
  {
  }

  lemma PutSpec(known: seq<Known>, e: Known, id: string)
    ensures Lookup(Put(known, e), id) == if id == e.id then Some(e) else Lookup(known, id)
    ensures UniqueIds(known) ==> UniqueIds(Put(known, e))
  {
    var i, k := Find(known, e.id), Find(known, id);
    var after := Put(known, e);
    if id == e.id {
      FoundFirst(after, id, i);
    } else {
      FoundFirst(after, id, if k < |known| then k else |after|);
    }
  }

  predicate Pinned(known: seq<Known>, id: string) {
    Lookup(known, id).Some? && Lookup(known, id).value.pinned
  }

  predicate Seen(known: seq<Known>, id: string) {
    Lookup(known, id).Some? && Lookup(known, id).value.seen
  }

  predicate Whitelisted(known: seq<Known>, id: string) {
    Lookup(known, id).Some? && Lookup(known, id).value.whitelisted
  }

  // --- the views -----------------------------------------------------------------------------

  datatype Kind = Friend | SeenUser | Discovered

  function KindOf(k: Known): Kind {
    if k.pinned then Friend else if k.seen then SeenUser else Discovered
  }

  function OfKind(known: seq<Known>, kind: Kind): seq<Known> {
    if known == [] then []
    else (if KindOf(known[0]) == kind then [known[0]] else []) + OfKind(known[1..], kind)
  }

  function Ids(known: seq<Known>): seq<string> {
    seq(|known|, i requires 0 <= i < |known| => known[i].id)
  }

  function Refresh(b: Book): Book {
    b.(friends := OfKind(b.known, Friend),
       seenUsers := OfKind(b.known, SeenUser),
       discovered := OfKind(b.known, Discovered))
  }

  lemma {:induction false} OfKindSnoc(known: seq<Known>, k: Known, kind: Kind)
    ensures OfKind(known + [k], kind) == OfKind(known, kind) + if KindOf(k) == kind then [k] else []
  {
    if known == [] {
      assert known + [k] == [k] && [k][1..] == [];
    } else {
      var tail := known[1..];
      assert (known + [k])[1..] == tail + [k] && (known + [k])[0] == known[0];
      OfKindSnoc(tail, k, kind);
      var head := if KindOf(known[0]) == kind then [known[0]] else [];
      var last := if KindOf(k) == kind then [k] else [];
      assert OfKind(known + [k], kind) == head + OfKind(tail + [k], kind);
      assert head + (OfKind(tail, kind) + last) == (head + OfKind(tail, kind)) + last;
    }
  }

  lemma {:induction false} OfKindMembers(known: seq<Known>, kind: Kind)
    ensures forall k :: k in OfKind(known, kind) <==> k in known && KindOf(k) == kind
  {
    if known != [] {
      OfKindMembers(known[1..], kind);
      assert known == [known[0]] + known[1..];
    }
  }

  /** Changing an entry without moving it to another kind leaves the ids of every view alone. */
  lemma {:induction false} SameKindSameIds(known: seq<Known>, i: nat, e: Known, kind: Kind)
    requires i < |known| && e.id == known[i].id && KindOf(e) == KindOf(known[i])
    ensures Ids(OfKind(known[i := e], kind)) == Ids(OfKind(known, kind))
  {
    var after := known[i := e];
    if i == 0 {
      assert after[1..] == known[1..];
      IdsConcat(if KindOf(e) == kind then [e] else [], OfKind(known[1..], kind));
      IdsConcat(if KindOf(e) == kind then [known[0]] else [], OfKind(known[1..], kind));
    } else {
      assert after[1..] == known[1..][i - 1 := e];
      SameKindSameIds(known[1..], i - 1, e, kind);
      var head := if KindOf(known[0]) == kind then [known[0]] else [];
      IdsConcat(head, OfKind(known[1..], kind));
      IdsConcat(head, OfKind(after[1..], kind));
    }
  }

  lemma IdsConcat(a: seq<Known>, b: seq<Known>)
    ensures Ids(a + b) == Ids(a) + Ids(b)
  {
  }

  /** Each view lists, in address-book order, exactly the ids of its kind. */
  predicate ViewsCurrent(b: Book) {
    && Ids(b.friends) == Ids(OfKind(b.known, Friend))
    && Ids(b.seenUsers) == Ids(OfKind(b.known, SeenUser))
    && Ids(b.discovered) == Ids(OfKind(b.known, Discovered))
  }

  /** What every operation keeps. */
  ghost predicate Tidy(b: Book) {
    && UniqueIds(b.known)
    && (forall id :: id in b.ignored ==> Lookup(b.known, id).Some?)
    && ViewsCurrent(b)
  }

  // --- operations ----------------------------------------------------------------------------

  function AddUnique(addresses: seq<string>, a: string): seq<string> {
    if a in addresses then addresses else addresses + [a]
  }

  function Without(ids: seq<string>, id: string): (r: seq<string>)
    ensures forall x :: x in r <==> x in ids && x != id
  {
    if ids == [] then []
    else
      assert forall x :: x in ids <==> x == ids[0] || x in ids[1..];
      (if ids[0] == id then [] else [ids[0]]) + Without(ids[1..], id)
  }

  lemma WithoutStep(ids: seq<string>, i: nat, id: string)
    requires i < |ids|
    ensures Without(ids[i..], id) == (if ids[i] == id then [] else [ids[i]]) + Without(ids[i + 1..], id)
  {
    assert ids[i..][1..] == ids[i + 1..];
  }

  /** A record brought up to date with what is now known about the peer. */
  function Touched(k: Known, name: Option<string>, shared: Option<string>, connected: bool, seen: bool): Known {
    var named := if name.Some? then k.(name := name.value) else k;
    var reached := if shared.Some?
                   then named.(addresses := AddUnique(named.addresses, shared.value), lastDial := shared)
                   else named;
    reached.(connected := connected, seen := reached.seen || seen)
  }

  function Newcomer(env: Env, id: string, name: Option<string>, connected: bool, seen: bool): Known {
    Known(id, if name.Some? then name.value else env.defaultName(id), [], None,
          connected, false, seen, false, false)
  }

  /** The record an update leaves: what was found, or a new one, brought up to date. */
  function UpdatedEntry(found: Option<Known>, env: Env, id: string, address: Option<string>,
                        name: Option<string>, connected: bool, seen: bool): Known
  {
    var base := if found.Some? then found.value else Newcomer(env, id, name, connected, seen);
    Touched(base, name, if address.Some? then env.shareable(address.value, id) else None, connected, seen)
  }

  lemma TouchedKeepsId(k: Known, name: Option<string>, shared: Option<string>, connected: bool, seen: bool)
    ensures Touched(k, name, shared, connected, seen).id == k.id
  {
  }

  function UpdateKnown(b: Book, env: Env, id: string, address: Option<string>, name: Option<string>,
                       connected: bool, seen: bool): Book
  {
    if id in b.ignored then b
    else Refresh(b.(known := Put(b.known, UpdatedEntry(Lookup(b.known, id), env, id, address, name, connected, seen))))
  }

  function FromLive(p: LivePeer): Known {
    var addresses := if p.address != UNKNOWN_ADDRESS then [p.address] else [];
    Known(p.id, p.name, addresses, if p.address != UNKNOWN_ADDRESS then Some(p.address) else None,
          p.connected, true, p.inSession, false, false)
  }

  function ApplyLive(k: Known, p: LivePeer): Known {
    var n := k.(name := p.name, seen := k.seen || p.inSession, connected := p.connected);
    if p.address != "" && p.address != UNKNOWN_ADDRESS
    then n.(addresses := AddUnique(n.addresses, p.address), lastDial := Some(p.address)) else n
  }

  /** The list of ignored ids changes even when there is nothing to save. */
  function Save(b: Book, id: string, live: Option<LivePeer>): (Book, bool)
    requires live.Some? ==> live.value.id == id
  {
    var c := b.(ignored := Without(b.ignored, id));
    var found := Lookup(b.known, id);
    if found.Some? then
      var pinned := found.value.(pinned := true);
      (Refresh(c.(known := Put(c.known, if live.Some? then ApplyLive(pinned, live.value) else pinned))), true)
    else if live.Some? then (Refresh(c.(known := c.known + [FromLive(live.value)])), true)
    else (c, false)
  }

  function Rename(b: Book, id: string, name: string, live: bool): (Book, bool) {
    var found := Lookup(b.known, id);
    var c := if found.Some? then b.(known := Put(b.known, found.value.(name := name, pinned := true))) else b;
    if found.Some? || live then (Refresh(c), true) else (b, false)
  }

  function Forget(b: Book, id: string): (Book, bool) {
    var found := Lookup(b.known, id);
    if found.None? then (b, false)
    else
      var c := Refresh(b.(known := Put(b.known, found.value.(pinned := false))));
      (c.(ignored := AddUnique(c.ignored, id)), true)
  }

  function SetTrusted(b: Book, id: string, trusted: bool): (Book, bool) {
    var found := Lookup(b.known, id);
    if found.None? then (b, false)
    else (Refresh(b.(known := Put(b.known, found.value.(trusted := trusted)))), true)
  }

  function SetWhitelisted(b: Book, id: string): Book {
    var found := Lookup(b.known, id);
    Refresh(if found.Some? then b.(known := Put(b.known, found.value.(whitelisted := true))) else b)
  }

  /** The one update that does not refresh the views: it touches only the connection flag. */
  function SetConnected(b: Book, id: string, connected: bool): Book {
    var found := Lookup(b.known, id);
    if found.Some? then b.(known := Put(b.known, found.value.(connected := connected))) else b
  }

  function WithHints(k: Known, addresses: seq<string>): Known
    decreases |addresses|
  {
    if addresses == [] then k
    else
      var a := Text.Trim(addresses[0]);
      var next := if a == "" then k
                  else k.(addresses := AddUnique(k.addresses, a),
                          lastDial := if k.lastDial.None? then Some(a) else k.lastDial);
      WithHints(next, addresses[1..])
  }

  function SeedInvite(b: Book, env: Env, id: string, addresses: seq<string>): Book {
    var found := Lookup(b.known, id);
    var base := if found.Some? then found.value
                else Known(id, env.defaultName(id), [], None, false, false, false, false, false);
    Refresh(b.(ignored := Without(b.ignored, id), known := Put(b.known, WithHints(base, addresses))))
  }

  function WithRendezvous(k: Known, env: Env, addresses: seq<string>): Known
    decreases |addresses|
  {
    if addresses == [] then k
    else
      var shared := env.shareable(addresses[0], k.id);
      var a := if shared.Some? then shared.value else Text.Trim(addresses[0]);
      var next := if a == "" then k else k.(addresses := AddUnique(k.addresses, a), lastDial := Some(a));
      WithRendezvous(next, env, addresses[1..])
  }

  /** Lookups on the DHT: the views are refreshed before the addresses go in, not after. */
  function SeedRendezvous(b: Book, env: Env, id: string, addresses: seq<string>): Book {
    var c := UpdateKnown(b.(ignored := Without(b.ignored, id)), env, id, None, None, false, false);
    var found := Lookup(c.known, id);
    if found.Some? then c.(known := Put(c.known, WithRendezvous(found.value, env, addresses))) else c
  }

  // --- what every operation keeps --------------------------------------------------------------

  /** `after` extends `before`: nobody is dropped, unseen or taken off the whitelist. */
  predicate Grows(before: Book, after: Book, id: string) {
    && (Lookup(before.known, id).Some? ==> Lookup(after.known, id).Some?)
    && (Seen(before.known, id) ==> Seen(after.known, id))
    && (Whitelisted(before.known, id) ==> Whitelisted(after.known, id))
  }

  /** Putting back an improved version of the record found under its id. */
  lemma PutGrows(b: Book, e: Known, ignored: seq<string>, id: string)
    requires Tidy(b) && forall x :: x in ignored ==> x in b.ignored || x == e.id
    requires var was := Lookup(b.known, e.id);
             was.Some? ==> (was.value.seen ==> e.seen) && (was.value.whitelisted ==> e.whitelisted)
    ensures var c := b.(known := Put(b.known, e), ignored := ignored);
            Tidy(Refresh(c)) && Grows(b, Refresh(c), id)
    ensures id != e.id ==> Lookup(Put(b.known, e), id) == Lookup(b.known, id)
    ensures Lookup(Put(b.known, e), e.id) == Some(e)
  {
    PutSpec(b.known, e, id);
    PutSpec(b.known, e, e.id);
    forall x | x in ignored ensures Lookup(Put(b.known, e), x).Some? { PutSpec(b.known, e, x); }
  }

  /** The same without a refresh, for a record that stays of its kind. */
  lemma PutInPlace(b: Book, e: Known, id: string)
    requires Tidy(b) && Lookup(b.known, e.id).Some?
    requires var was := Lookup(b.known, e.id).value;
             KindOf(e) == KindOf(was) && e.pinned == was.pinned && e.seen == was.seen
             && e.whitelisted == was.whitelisted
    ensures var c := b.(known := Put(b.known, e));
            Tidy(c) && Grows(b, c, id) && (Pinned(c.known, id) <==> Pinned(b.known, id))
  {
    PutSpec(b.known, e, id);
    forall x | x in b.ignored ensures Lookup(Put(b.known, e), x).Some? { PutSpec(b.known, e, x); }
    var i := Find(b.known, e.id);
    SameKindSameIds(b.known, i, e, Friend);
    SameKindSameIds(b.known, i, e, SeenUser);
    SameKindSameIds(b.known, i, e, Discovered);
  }

  datatype Operation =
    | Update(address: Option<string>, name: Option<string>, connected: bool, seen: bool)
    | SavePeer(live: Option<LivePeer>)
    | RenamePeer(newName: string, isLive: bool)
    | ForgetPeer
    | Trust(trusted: bool)
    | Whitelist
    | Connection(up: bool)
    | Invite(addresses: seq<string>)
    | Rendezvous(hints: seq<string>)

  predicate Fits(op: Operation, id: string) {
    op.SavePeer? && op.live.Some? ==> op.live.value.id == id
  }

  function Apply(b: Book, env: Env, id: string, op: Operation): Book
    requires Fits(op, id)
  {
    match op
    case Update(address, name, connected, seen) => UpdateKnown(b, env, id, address, name, connected, seen)
    case SavePeer(live) => Save(b, id, live).0
    case RenamePeer(name, live) => Rename(b, id, name, live).0
    case ForgetPeer => Forget(b, id).0
    case Trust(trusted) => SetTrusted(b, id, trusted).0
    case Whitelist => SetWhitelisted(b, id)
    case Connection(up) => SetConnected(b, id, up)
    case Invite(addresses) => SeedInvite(b, env, id, addresses)
    case Rendezvous(hints) => SeedRendezvous(b, env, id, hints)
  }

  /** Only these three may change who is a friend. */
  predicate ChangesFriends(op: Operation) {
    op.SavePeer? || op.RenamePeer? || op.ForgetPeer?
  }

  /** `after` is tidy, has lost nothing, and has the same friends except possibly `id`. */
  ghost predicate Kept(b: Book, after: Book, id: string, op: Operation) {
    && Tidy(after)
    && (forall x :: Grows(b, after, x))
    && (forall x :: x != id || !ChangesFriends(op) ==> (Pinned(after.known, x) <==> Pinned(b.known, x)))
  }

  lemma PutKept(b: Book, e: Known, ignored: seq<string>, op: Operation)
    requires Tidy(b) && forall x :: x in ignored ==> x in b.ignored || x == e.id
    requires var was := Lookup(b.known, e.id);
             if was.Some?
             then (was.value.seen ==> e.seen) && (was.value.whitelisted ==> e.whitelisted)
                  && (ChangesFriends(op) || e.pinned == was.value.pinned)
             else ChangesFriends(op) || !e.pinned
    ensures Kept(b, Refresh(b.(known := Put(b.known, e), ignored := ignored)), e.id, op)
  {
    var after := Refresh(b.(known := Put(b.known, e), ignored := ignored));
    PutGrows(b, e, ignored, e.id);
    forall x ensures Grows(b, after, x)
             ensures x != e.id || !ChangesFriends(op) ==> (Pinned(after.known, x) <==> Pinned(b.known, x))
    {
      PutGrows(b, e, ignored, x);
    }
  }

  lemma UpdateKept(b: Book, env: Env, id: string, op: Operation)
    requires Tidy(b) && op.Update?
    ensures Kept(b, Apply(b, env, id, op), id, op)
  {
    if id !in b.ignored {
      var found := Lookup(b.known, id);
      var after := UpdateKnown(b, env, id, op.address, op.name, op.connected, op.seen);
      var e := Lookup(after.known, id);
      UpdatedRecord(b, env, id, op.address, op.name, op.connected, op.seen);
      PutKept(b, e.value, b.ignored, op);
    }
  }

  /** The record an update leaves behind. */
  lemma UpdatedRecord(b: Book, env: Env, id: string, address: Option<string>, name: Option<string>,
                      connected: bool, seen: bool)
    requires id !in b.ignored
    ensures var after := UpdateKnown(b, env, id, address, name, connected, seen);
            var found := Lookup(b.known, id);
            var e := Lookup(after.known, id);
            && e.Some? && e.value.id == id && e.value.connected == connected
            && after == Refresh(b.(known := Put(b.known, e.value)))
            && (name.Some? ==> e.value.name == name.value)
            && (if found.Some?
                then e.value.pinned == found.value.pinned && e.value.whitelisted == found.value.whitelisted
                     && e.value.seen == (found.value.seen || seen)
                else !e.value.pinned && !e.value.whitelisted && e.value.seen == seen)
  {
    var found := Lookup(b.known, id);
    EntryFlags(found, env, id, address, name, connected, seen);
    PutSpec(b.known, UpdatedEntry(found, env, id, address, name, connected, seen), id);
  }

  lemma EntryFlags(found: Option<Known>, env: Env, id: string, address: Option<string>,
                   name: Option<string>, connected: bool, seen: bool)
    requires found.Some? ==> found.value.id == id
    ensures var e := UpdatedEntry(found, env, id, address, name, connected, seen);
            && e.id == id && e.connected == connected
            && (name.Some? ==> e.name == name.value)
            && (if found.Some?
                then e.pinned == found.value.pinned && e.whitelisted == found.value.whitelisted
                     && e.seen == (found.value.seen || seen)
                else !e.pinned && !e.whitelisted && e.seen == seen)
  {
  }

  lemma {:induction false} HintsKeepFlags(k: Known, addresses: seq<string>)
    ensures var r := WithHints(k, addresses);
            && r.id == k.id && r.pinned == k.pinned && r.seen == k.seen && r.whitelisted == k.whitelisted
    decreases |addresses|
  {
    if addresses != [] {
      var a := Text.Trim(addresses[0]);
      HintsKeepFlags(if a == "" then k
                     else k.(addresses := AddUnique(k.addresses, a),
                             lastDial := if k.lastDial.None? then Some(a) else k.lastDial), addresses[1..]);
    }
  }

  lemma {:induction false} RendezvousKeepsFlags(k: Known, env: Env, addresses: seq<string>)
    ensures var r := WithRendezvous(k, env, addresses);
            && r.id == k.id && r.pinned == k.pinned && r.seen == k.seen && r.whitelisted == k.whitelisted
    decreases |addresses|
  {
    if addresses != [] {
      var shared := env.shareable(addresses[0], k.id);
      var a := if shared.Some? then shared.value else Text.Trim(addresses[0]);
      RendezvousKeepsFlags(if a == "" then k else k.(addresses := AddUnique(k.addresses, a), lastDial := Some(a)),
                           env, addresses[1..]);
    }
  }

  lemma SeedInviteKept(b: Book, env: Env, id: string, op: Operation)
    requires Tidy(b) && op.Invite?
    ensures Kept(b, Apply(b, env, id, op), id, op)
    ensures Lookup(Apply(b, env, id, op).known, id).Some?
  {
    var found := Lookup(b.known, id);
    var base := if found.Some? then found.value
                else Known(id, env.defaultName(id), [], None, false, false, false, false, false);
    HintsKeepFlags(base, op.addresses);
    PutKept(b, WithHints(base, op.addresses), Without(b.ignored, id), op);
    PutSpec(b.known, WithHints(base, op.addresses), id);
  }

  lemma SeedRendezvousKept(b: Book, env: Env, id: string, op: Operation)
    requires Tidy(b) && op.Rendezvous?
    ensures Kept(b, Apply(b, env, id, op), id, op)
    ensures Lookup(Apply(b, env, id, op).known, id).Some?
  {
    var a := b.(ignored := Without(b.ignored, id));
    assert Tidy(a);
    var c := UpdateKnown(a, env, id, None, None, false, false);
    UpdateKept(a, env, id, Update(None, None, false, false));
    UpdatedRecord(a, env, id, None, None, false, false);
    var e := WithRendezvous(Lookup(c.known, id).value, env, op.hints);
    RendezvousKeepsFlags(Lookup(c.known, id).value, env, op.hints);
    PutSpec(c.known, e, id);
    forall x ensures Grows(b, Apply(b, env, id, op), x)
             ensures Pinned(Apply(b, env, id, op).known, x) <==> Pinned(b.known, x)
    {
      PutInPlace(c, e, x);
      assert Grows(a, c, x);
    }
    PutInPlace(c, e, id);
  }

  lemma ConnectionKept(b: Book, env: Env, id: string, op: Operation)
    requires Tidy(b) && op.Connection?
    ensures Kept(b, Apply(b, env, id, op), id, op)
  {
    var found := Lookup(b.known, id);
    if found.Some? {
      var e := found.value.(connected := op.up);
      forall x ensures Grows(b, Apply(b, env, id, op), x)
               ensures Pinned(Apply(b, env, id, op).known, x) <==> Pinned(b.known, x)
      {
        PutInPlace(b, e, x);
      }
      PutInPlace(b, e, id);
    }
  }

  lemma FlagsKept(b: Book, env: Env, id: string, op: Operation)
    requires Tidy(b) && (op.Trust? || op.Whitelist? || op.ForgetPeer?)
    ensures Kept(b, Apply(b, env, id, op), id, op)
  {
    var found := Lookup(b.known, id);
    if found.None? {
    } else if op.Trust? {
      PutKept(b, found.value.(trusted := op.trusted), b.ignored, op);
    } else if op.Whitelist? {
      PutKept(b, found.value.(whitelisted := true), b.ignored, op);
    } else {
      PutKept(b, found.value.(pinned := false), AddUnique(b.ignored, id), op);
    }
  }

  lemma RenameKept(b: Book, env: Env, id: string, op: Operation)
    requires Tidy(b) && op.RenamePeer?
    ensures Kept(b, Apply(b, env, id, op), id, op)
  {
    var found := Lookup(b.known, id);
    if found.Some? {
      PutKept(b, found.value.(name := op.newName, pinned := true), b.ignored, op);
    }
  }

  lemma SaveKept(b: Book, env: Env, id: string, op: Operation)
    requires Tidy(b) && Fits(op, id) && op.SavePeer?
    ensures Kept(b, Apply(b, env, id, op), id, op)
  {
    var found := Lookup(b.known, id);
    if found.Some? {
      var pinned := found.value.(pinned := true);
      PutKept(b, if op.live.Some? then ApplyLive(pinned, op.live.value) else pinned, Without(b.ignored, id), op);
    } else if op.live.Some? {
      assert Put(b.known, FromLive(op.live.value)) == b.known + [FromLive(op.live.value)];
      PutKept(b, FromLive(op.live.value), Without(b.ignored, id), op);
    }
  }

  /** One operation, whichever it is: ids stay unique, ignored peers stay known, the views stay the
      partition of the book, nobody is dropped or unseen or loses the whitelist, and only saving,
      renaming and forgetting touch the set of friends -- and then only the peer they name. */
  lemma OperationKeeps(b: Book, env: Env, id: string, op: Operation)
    requires Tidy(b) && Fits(op, id)
    ensures Kept(b, Apply(b, env, id, op), id, op)
  {
    match op
    case Update(_, _, _, _) => UpdateKept(b, env, id, op);
    case SavePeer(_) => SaveKept(b, env, id, op);
    case RenamePeer(_, _) => RenameKept(b, env, id, op);
    case Connection(_) => ConnectionKept(b, env, id, op);
    case Invite(_) => SeedInviteKept(b, env, id, op);
    case Rendezvous(_) => SeedRendezvousKept(b, env, id, op);
    case _ => FlagsKept(b, env, id, op);
  }

  /** An operation leaves every other record exactly as it was. */
  lemma OperationIsLocal(b: Book, env: Env, id: string, op: Operation, other: string)
    requires Fits(op, id) && other != id
    ensures Lookup(Apply(b, env, id, op).known, other) == Lookup(b.known, other)
  {
    var found := Lookup(b.known, id);
    match op
    case Update(address, name, connected, seen) =>
      EntryFlags(found, env, id, address, name, connected, seen);
      PutSpec(b.known, UpdatedEntry(found, env, id, address, name, connected, seen), other);
    case SavePeer(live) => SaveIsLocal(b, id, live, other);
    case Invite(addresses) =>
      var base := if found.Some? then found.value
                  else Known(id, env.defaultName(id), [], None, false, false, false, false, false);
      HintsKeepFlags(base, addresses);
      PutSpec(b.known, WithHints(base, addresses), other);
    case Rendezvous(hints) => RendezvousIsLocal(b, env, id, hints, other);
    case _ => FlagsAreLocal(b, env, id, op, other);
  }

  lemma SaveIsLocal(b: Book, id: string, live: Option<LivePeer>, other: string)
    requires (live.Some? ==> live.value.id == id) && other != id
    ensures Lookup(Save(b, id, live).0.known, other) == Lookup(b.known, other)
  {
    var found := Lookup(b.known, id);
    if found.Some? {
      var pinned := found.value.(pinned := true);
      PutSpec(b.known, if live.Some? then ApplyLive(pinned, live.value) else pinned, other);
    } else if live.Some? {
      assert Put(b.known, FromLive(live.value)) == b.known + [FromLive(live.value)];
      PutSpec(b.known, FromLive(live.value), other);
    }
  }

  lemma RendezvousIsLocal(b: Book, env: Env, id: string, hints: seq<string>, other: string)
    requires other != id
    ensures Lookup(SeedRendezvous(b, env, id, hints).known, other) == Lookup(b.known, other)
  {
    var a := b.(ignored := Without(b.ignored, id));
    UpdatedRecord(a, env, id, None, None, false, false);
    var c := UpdateKnown(a, env, id, None, None, false, false);
    PutSpec(a.known, Lookup(c.known, id).value, other);
    var e := WithRendezvous(Lookup(c.known, id).value, env, hints);
    RendezvousKeepsFlags(Lookup(c.known, id).value, env, hints);
    PutSpec(c.known, e, other);
  }

  lemma FlagsAreLocal(b: Book, env: Env, id: string, op: Operation, other: string)
    requires other != id && (op.RenamePeer? || op.Trust? || op.Whitelist? || op.Connection? || op.ForgetPeer?)
    ensures Lookup(Apply(b, env, id, op).known, other) == Lookup(b.known, other)
  {
    var found := Lookup(b.known, id);
    if found.Some? {
      var k := found.value;
      match op
      case RenamePeer(name, _) => PutSpec(b.known, k.(name := name, pinned := true), other);
      case Trust(trusted) => PutSpec(b.known, k.(trusted := trusted), other);
      case Whitelist => PutSpec(b.known, k.(whitelisted := true), other);
      case Connection(up) => PutSpec(b.known, k.(connected := up), other);
      case _ => PutSpec(b.known, k.(pinned := false), other);
    }
  }

  function ApplyAll(b: Book, env: Env, ops: seq<(string, Operation)>): Book
    requires forall i :: 0 <= i < |ops| ==> Fits(ops[i].1, ops[i].0)
    decreases |ops|
  {
    if ops == [] then b else ApplyAll(Apply(b, env, ops[0].0, ops[0].1), env, ops[1..])
  }

  /** The address book over every run. */
  lemma {:induction false} BookOverRuns(b: Book, env: Env, ops: seq<(string, Operation)>, id: string)
    requires Tidy(b) && forall i :: 0 <= i < |ops| ==> Fits(ops[i].1, ops[i].0)
    ensures var after := ApplyAll(b, env, ops);
            && Tidy(after) && Grows(b, after, id)
            && ((forall i :: 0 <= i < |ops| && ChangesFriends(ops[i].1) ==> ops[i].0 != id)
                ==> (Pinned(after.known, id) <==> Pinned(b.known, id)))
    decreases |ops|
  {
    if ops != [] {
      OperationKeeps(b, env, ops[0].0, ops[0].1);
      var next := Apply(b, env, ops[0].0, ops[0].1);
      assert Grows(b, next, id);
      BookOverRuns(next, env, ops[1..], id);
    }
  }

  /** The three views partition the book: an id is in exactly one of them, the one of its kind. */
  lemma ViewsPartition(b: Book, k: Known)
    requires Tidy(b) && k in b.known
    ensures k.id in Ids(b.friends) <==> k.pinned
    ensures k.id in Ids(b.seenUsers) <==> !k.pinned && k.seen
    ensures k.id in Ids(b.discovered) <==> !k.pinned && !k.seen
  {
    KindIsUnique(b, k, Friend);
    KindIsUnique(b, k, SeenUser);
    KindIsUnique(b, k, Discovered);
  }

  lemma KindIsUnique(b: Book, k: Known, kind: Kind)
    requires UniqueIds(b.known) && k in b.known
    ensures k.id in Ids(OfKind(b.known, kind)) <==> KindOf(k) == kind
  {
    OfKindMembers(b.known, kind);
    var view := OfKind(b.known, kind);
    if k.id in Ids(view) {
      var i :| 0 <= i < |view| && Ids(view)[i] == k.id;
      assert view[i] in view;
    }
    if k in view {
      var i :| 0 <= i < |view| && view[i] == k;
      assert Ids(view)[i] == k.id;
    }
  }
}
