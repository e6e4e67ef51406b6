/** What each operation on the address book leaves in the record it names, field by field, and on the list
    of ignored peers.  `OperationIsLocal` says that every other record stays as it was, `OperationKeeps`
    that the views follow. */
module ContactsSpec {
  import opened Core
  import opened Contacts
  import opened Ordering
  import Text

  /** Ignored afterwards are the peers ignored before, without this one. */
  ghost predicate Welcomes(before: Book, after: Book, id: string) {
    forall x :: x in after.ignored <==> x in before.ignored && x != id
  }

  // --- commands --------------------------------------------------------------------------------

  /** Saving makes the peer a friend and ends its being ignored.  A live peer lends the record its name,
      connection, session and address, which becomes the address to dial unless it is none. */
  lemma SavingPins(b: Book, id: string, live: Option<LivePeer>)
    requires live.Some? ==> live.value.id == id
    ensures var (after, ok) := Save(b, id, live);
            var e := Lookup(after.known, id);
            && Welcomes(b, after, id)
            && match (Lookup(b.known, id), live)
               case (None, None) => !ok && after.known == b.known
               case (Some(k), None) => ok && e == Some(k.(pinned := true))
               case (None, Some(p)) =>
                 ok && e == Some(Known(id, p.name, if p.address == "<unknown>" then [] else [p.address],
                                       if p.address == "<unknown>" then None else Some(p.address),
                                       p.connected, true, p.inSession, false, false))
               case (Some(k), Some(p)) =>
                 var none := p.address == "" || p.address == "<unknown>";
                 ok && e == Some(Known(id, p.name,
                                       if none || p.address in k.addresses then k.addresses
                                       else k.addresses + [p.address],
                                       if none then k.lastDial else Some(p.address),
                                       p.connected, true, k.seen || p.inSession, k.whitelisted, k.trusted))
  {
    var was := Lookup(b.known, id);
    if was.Some? {
      var pinned := was.value.(pinned := true);
      PutSpec(b.known, if live.Some? then ApplyLive(pinned, live.value) else pinned, id);
    } else if live.Some? {
      PutSpec(b.known, FromLive(live.value), id);
    }
  }

  /** Renaming makes a known peer a friend under the new name; it stays ignored if it was. */
  lemma RenamingPins(b: Book, id: string, name: string, live: bool)
    ensures var (after, ok) := Rename(b, id, name, live);
            && after.ignored == b.ignored
            && match Lookup(b.known, id)
               case None => ok == live && after.known == b.known
               case Some(k) => ok && Lookup(after.known, id) == Some(k.(name := name, pinned := true))
  {
    var was := Lookup(b.known, id);
    if was.Some? { PutSpec(b.known, was.value.(name := name, pinned := true), id); }
  }

  /** Forgetting keeps the record, but the peer is no friend any more and is ignored from now on. */
  lemma ForgettingIgnores(b: Book, id: string)
    ensures var (after, ok) := Forget(b, id);
            match Lookup(b.known, id)
            case None => !ok && after == b
            case Some(k) =>
              && ok && Lookup(after.known, id) == Some(k.(pinned := false))
              && (forall x :: x in after.ignored <==> x in b.ignored || x == id)
  {
    var was := Lookup(b.known, id);
    if was.Some? { PutSpec(b.known, was.value.(pinned := false), id); }
  }

  /** Trust, the whitelist and the connection are one flag each of a known peer. */
  lemma FlagsAreSet(b: Book, id: string, on: bool)
    ensures var (trusting, ok) := SetTrusted(b, id, on);
            var listing, linking := SetWhitelisted(b, id), SetConnected(b, id, on);
            && trusting.ignored == b.ignored && listing.ignored == b.ignored && linking.ignored == b.ignored
            && match Lookup(b.known, id)
               case None => !ok && trusting == b && listing.known == b.known && linking == b
               case Some(k) =>
                 && ok && Lookup(trusting.known, id) == Some(k.(trusted := on))
                 && Lookup(listing.known, id) == Some(k.(whitelisted := true))
                 && Lookup(linking.known, id) == Some(k.(connected := on))
  {
    var was := Lookup(b.known, id);
    if was.Some? {
      PutSpec(b.known, was.value.(trusted := on), id);
      PutSpec(b.known, was.value.(whitelisted := true), id);
      PutSpec(b.known, was.value.(connected := on), id);
    }
  }

  // --- what is learned from the network --------------------------------------------------------

  /** What is learned about an ignored peer is dropped.  Otherwise a peer met for the first time gets a
      record of its own, and an address that may be published is added to it and dialed first from now on. */
  lemma MeetingRecords(b: Book, env: Env, id: string, address: Option<string>, name: Option<string>,
                       connected: bool, seen: bool)
    ensures var after := UpdateKnown(b, env, id, address, name, connected, seen);
            var k := match Lookup(b.known, id)
                     case Some(k) => k
                     case None => Known(id, env.defaultName(id), [], None, false, false, false, false, false);
            var shared := if address.Some? then env.shareable(address.value, id) else None;
            && after.ignored == b.ignored
            && if id in b.ignored then after == b
               else Lookup(after.known, id) ==
                    Some(Known(id,
                               if name.Some? then name.value else k.name,
                               if shared.None? || shared.value in k.addresses then k.addresses
                               else k.addresses + [shared.value],
                               if shared.Some? then shared else k.lastDial,
                               connected, k.pinned, k.seen || seen, k.whitelisted, k.trusted))
  {
    PutSpec(b.known, UpdatedEntry(Lookup(b.known, id), env, id, address, name, connected, seen), id);
  }

  /** The hints of an invite that are not blank, trimmed. */
  function Hints(addresses: seq<string>): seq<string> {
    if addresses == [] then []
    else (if Text.Trim(addresses[0]) == "" then [] else [Text.Trim(addresses[0])]) + Hints(addresses[1..])
  }

  /** The addresses found by a lookup: published ones in full, others trimmed, blank ones left out. */
  function Found(env: Env, id: string, addresses: seq<string>): seq<string> {
    if addresses == [] then []
    else
      var a := match env.shareable(addresses[0], id) case Some(s) => s case None => Text.Trim(addresses[0]);
      (if a == "" then [] else [a]) + Found(env, id, addresses[1..])
  }

  lemma {:induction false} HintsAdded(k: Known, addresses: seq<string>)
    ensures var hints := Hints(addresses);
            WithHints(k, addresses) ==
            k.(addresses := DedupOnto(k.addresses, hints),
               lastDial := if k.lastDial.None? && hints != [] then Some(hints[0]) else k.lastDial)
    decreases |addresses|
  {
    if addresses != [] {
      var a := Text.Trim(addresses[0]);
      var rest := Hints(addresses[1..]);
      if a == "" {
        assert Hints(addresses) == rest;
        HintsAdded(k, addresses[1..]);
      } else {
        assert Hints(addresses) == [a] + rest && ([a] + rest)[1..] == rest;
        HintsAdded(k.(addresses := AddUnique(k.addresses, a),
                      lastDial := if k.lastDial.None? then Some(a) else k.lastDial), addresses[1..]);
      }
    }
  }

  lemma DedupStep(acc: seq<string>, a: string, rest: seq<string>)
    ensures DedupOnto(acc, [a] + rest) == DedupOnto(AddUnique(acc, a), rest)
  {
    assert ([a] + rest)[1..] == rest;
  }

  function Dialing(found: seq<string>, lastDial: Option<string>): Option<string> {
    if found != [] then Some(found[|found| - 1]) else lastDial
  }

  lemma {:induction false} FoundAdded(k: Known, env: Env, addresses: seq<string>)
    ensures var found := Found(env, k.id, addresses);
            WithRendezvous(k, env, addresses) ==
            k.(addresses := DedupOnto(k.addresses, found), lastDial := Dialing(found, k.lastDial))
    decreases |addresses|
  {
    if addresses != [] {
      var shared := env.shareable(addresses[0], k.id);
      var a := if shared.Some? then shared.value else Text.Trim(addresses[0]);
      var rest := Found(env, k.id, addresses[1..]);
      if a == "" {
        assert Found(env, k.id, addresses) == rest;
        FoundAdded(k, env, addresses[1..]);
      } else {
        DedupStep(k.addresses, a, rest);
        assert Dialing([a] + rest, k.lastDial) == Dialing(rest, Some(a));
        FoundAdded(k.(addresses := AddUnique(k.addresses, a), lastDial := Some(a)), env, addresses[1..]);
      }
    }
  }

  /** An invite makes its peer known and ends its being ignored.  The hints are added behind what was known,
      each once and in their order; the first one is dialed if there was nothing to dial. */
  lemma InviteAddsItsHints(b: Book, env: Env, id: string, addresses: seq<string>)
    ensures var after := SeedInvite(b, env, id, addresses);
            var k := match Lookup(b.known, id)
                     case Some(k) => k
                     case None => Known(id, env.defaultName(id), [], None, false, false, false, false, false);
            var hints := Hints(addresses);
            && Welcomes(b, after, id)
            && Lookup(after.known, id) ==
               Some(k.(addresses := DedupOnto(k.addresses, hints),
                       lastDial := if k.lastDial.None? && hints != [] then Some(hints[0]) else k.lastDial))
  {
    var k := match Lookup(b.known, id)
             case Some(k) => k
             case None => Known(id, env.defaultName(id), [], None, false, false, false, false, false);
    HintsAdded(k, addresses);
    PutSpec(b.known, WithHints(k, addresses), id);
  }

  /** A lookup does the same with the addresses it found, except that the last of them is dialed from now on
      whatever was dialed before, and that the record is marked as not connected. */
  lemma LookupAddsWhatItFound(b: Book, env: Env, id: string, addresses: seq<string>)
    ensures var after := SeedRendezvous(b, env, id, addresses);
            var k := match Lookup(b.known, id)
                     case Some(k) => k
                     case None => Known(id, env.defaultName(id), [], None, false, false, false, false, false);
            var found := Found(env, id, addresses);
            && Welcomes(b, after, id)
            && Lookup(after.known, id) ==
               Some(k.(addresses := DedupOnto(k.addresses, found), connected := false,
                       lastDial := if found != [] then Some(found[|found| - 1]) else k.lastDial))
  {
    var a := b.(ignored := Without(b.ignored, id));
    MeetingRecords(a, env, id, None, None, false, false);
    var c := UpdateKnown(a, env, id, None, None, false, false);
    var k := Lookup(c.known, id).value;
    FoundAdded(k, env, addresses);
    PutSpec(c.known, WithRendezvous(k, env, addresses), id);
  }

  /** So saving and forgetting undo each other, but for the name, address and flags a live peer lends. */
  lemma ForgettingUndoesSaving(b: Book, id: string)
    requires Lookup(b.known, id).Some?
    ensures var forgotten := Forget(b, id).0;
            var saved := Save(forgotten, id, None).0;
            && Lookup(saved.known, id) == Some(Lookup(b.known, id).value.(pinned := true))
            && id in forgotten.ignored && id !in saved.ignored
            && (id !in b.ignored ==> forall x :: x in saved.ignored <==> x in b.ignored)
  {
    ForgettingIgnores(b, id);
    SavingPins(Forget(b, id).0, id, None);
  }

  // --- the views -------------------------------------------------------------------------------

  /** The views show the records as they are: friends, then seen users, then everybody else. */
  ghost predicate Shown(b: Book) {
    && (forall k :: k in b.friends <==> k in b.known && k.pinned)
    && (forall k :: k in b.seenUsers <==> k in b.known && !k.pinned && k.seen)
    && (forall k :: k in b.discovered <==> k in b.known && !k.pinned && !k.seen)
  }

  lemma RefreshShows(b: Book)
    ensures Shown(Refresh(b))
  {
    OfKindMembers(b.known, Friend);
    OfKindMembers(b.known, SeenUser);
    OfKindMembers(b.known, Discovered);
  }

  /** Whatever changes the records shows it, except for connections that come and go and lookups. */
  lemma ChangesAreShown(b: Book, env: Env, id: string, op: Operation)
    requires Fits(op, id) && !op.Connection? && !op.Rendezvous?
    ensures var after := Apply(b, env, id, op);
            after.known != b.known ==> Shown(after)
  {
    var after := Apply(b, env, id, op);
    RefreshShows(after);
  }
}
