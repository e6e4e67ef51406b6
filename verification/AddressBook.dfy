/** The address book as the daemon holds it: five lists edited in place. */
module AddressBook {
  import opened Core
  import opened Contacts
  import Text

  class KnownPeers {
    var known: seq<Known>
    var ignored: seq<string>
    var friends: seq<Known>
    var seenUsers: seq<Known>
    var discovered: seq<Known>

    ghost function View(): Book
      reads this
    {
      Book(known, ignored, friends, seenUsers, discovered)
    }

    constructor (knownPeers: seq<Known>, ignoredIds: seq<string>)
      ensures View() == Refresh(Book(knownPeers, ignoredIds, [], [], []))
    {
      known, ignored := knownPeers, ignoredIds;
      friends, seenUsers, discovered := [], [], [];
      new;
      RefreshUserViews();
    }

    method RefreshUserViews()
      modifies this`friends, this`seenUsers, this`discovered
      ensures View() == Refresh(old(View()))
    {
      friends, seenUsers, discovered := [], [], [];
      for i := 0 to |known|
        invariant friends == OfKind(known[..i], Friend)
        invariant seenUsers == OfKind(known[..i], SeenUser)
        invariant discovered == OfKind(known[..i], Discovered)
      {
        var peer := known[i];
        OfKindSnoc(known[..i], peer, Friend);
        OfKindSnoc(known[..i], peer, SeenUser);
        OfKindSnoc(known[..i], peer, Discovered);
        assert known[..i + 1] == known[..i] + [peer];
        if peer.pinned {
          friends := friends + [peer];
        } else if peer.seen {
          seenUsers := seenUsers + [peer];
        } else {
          discovered := discovered + [peer];
        }
      }
      assert known[..|known|] == known;
    }

    method Position(id: string) returns (i: nat)
      ensures i == Find(known, id)
    {
      i := 0;
      while i < |known| && known[i].id != id
        invariant i <= |known|
        invariant forall k :: 0 <= k < i ==> known[k].id != id
      {
        i := i + 1;
      }
      FoundFirst(known, id, i);
    }

    method Unignore(id: string)
      modifies this`ignored
      ensures ignored == Without(old(ignored), id)
    {
      var ids, kept := ignored, [];
      for i := 0 to |ids|
        invariant kept + Without(ids[i..], id) == Without(ids, id)
      {
        WithoutStep(ids, i, id);
        if ids[i] != id {
          kept := kept + [ids[i]];
        }
      }
      assert ids[|ids|..] == [];
      ignored := kept;
    }

    /** The index of the entry with this id, appended if there was none. */
    method EntryFor(id: string, newcomer: Known) returns (i: nat)
      requires newcomer.id == id
      modifies this`known
      ensures i == Find(old(known), id) < |known|
      ensures known == if i < |old(known)| then old(known) else old(known) + [newcomer]
    {
      i := Position(id);
      if i == |known| {
        known := known + [newcomer];
      }
    }

    method Touch(i: nat, name: Option<string>, shared: Option<string>, connected: bool, seen: bool)
      requires i < |known|
      modifies this`known
      ensures known == old(known)[i := Touched(old(known[i]), name, shared, connected, seen)]
    {
      var entry := known[i];
      if name.Some? {
        entry := entry.(name := name.value);
      }
      if shared.Some? {
        if shared.value !in entry.addresses {
          entry := entry.(addresses := entry.addresses + [shared.value]);
        }
        entry := entry.(lastDial := shared);
      }
      known := known[i := entry.(connected := connected, seen := entry.seen || seen)];
    }

    method UpdateEntry(env: Env, id: string, address: Option<string>, name: Option<string>,
                       connected: bool, seen: bool)
      modifies this`known
      ensures known ==
              Put(old(known), UpdatedEntry(Lookup(old(known), id), env, id, address, name, connected, seen))
    {
      var shared := if address.Some? then env.shareable(address.value, id) else None;
      var title := if name.Some? then name.value else env.defaultName(id);
      var newcomer := Known(id, title, [], None, connected, false, seen, false, false);
      var i := EntryFor(id, newcomer);
      ghost var base := known[i];
      Touch(i, name, shared, connected, seen);
      TouchedKeepsId(base, name, shared, connected, seen);
      assert known == Put(old(known), Touched(base, name, shared, connected, seen));
    }

    method UpdateKnownPeer(env: Env, id: string, address: Option<string>, name: Option<string>,
                           connected: bool, seen: bool)
      modifies this
      ensures View() == UpdateKnown(old(View()), env, id, address, name, connected, seen)
    {
      if id in ignored {
        return;
      }
      UpdateEntry(env, id, address, name, connected, seen);
      RefreshUserViews();
    }

    method PinEntry(id: string, live: Option<LivePeer>) returns (ok: bool)
      requires live.Some? ==> live.value.id == id
      modifies this`known
      ensures var found := Lookup(old(known), id);
              && (ok <==> found.Some? || live.Some?)
              && known == if found.Some? then
                            var pinned := found.value.(pinned := true);
                            Put(old(known), if live.Some? then ApplyLive(pinned, live.value) else pinned)
                          else if live.Some? then old(known) + [FromLive(live.value)] else old(known)
    {
      var i := Position(id);
      if i < |known| {
        var entry := known[i].(pinned := true);
        if live.Some? {
          entry := ApplyLive(entry, live.value);
        }
        known := known[i := entry];
        return true;
      }
      if live.Some? {
        known := known + [FromLive(live.value)];
        return true;
      }
      return false;
    }

    method SaveKnownPeer(id: string, live: Option<LivePeer>) returns (ok: bool)
      requires live.Some? ==> live.value.id == id
      modifies this
      ensures (View(), ok) == Save(old(View()), id, live)
    {
      Unignore(id);
      ok := PinEntry(id, live);
      if ok {
        RefreshUserViews();
      }
    }

    method RenameKnownPeer(id: string, name: string, live: bool) returns (ok: bool)
      modifies this
      ensures (View(), ok) == Rename(old(View()), id, name, live)
    {
      var renamed := live;
      var i := Position(id);
      if i < |known| {
        known := known[i := known[i].(name := name, pinned := true)];
        renamed := true;
      }
      if !renamed {
        return false;
      }
      RefreshUserViews();
      return true;
    }

    method ForgetKnownPeer(id: string) returns (ok: bool)
      modifies this
      ensures (View(), ok) == Forget(old(View()), id)
    {
      var i := Position(id);
      if i == |known| {
        return false;
      }
      known := known[i := known[i].(pinned := false)];
      RefreshUserViews();
      if id !in ignored {
        ignored := ignored + [id];
      }
      return true;
    }

    method SetTrustedContact(id: string, trusted: bool) returns (ok: bool)
      modifies this
      ensures (View(), ok) == SetTrusted(old(View()), id, trusted)
    {
      var i := Position(id);
      if i == |known| {
        return false;
      }
      known := known[i := known[i].(trusted := trusted)];
      RefreshUserViews();
      return true;
    }

    method SetWhitelistedPeer(id: string)
      modifies this
      ensures View() == SetWhitelisted(old(View()), id)
    {
      var i := Position(id);
      if i < |known| {
        known := known[i := known[i].(whitelisted := true)];
      }
      RefreshUserViews();
    }

    method SetPeerConnected(id: string, connected: bool)
      modifies this`known
      ensures View() == SetConnected(old(View()), id, connected)
    {
      var i := Position(id);
      if i < |known| {
        known := known[i := known[i].(connected := connected)];
      }
    }

    method AddHints(i: nat, addresses: seq<string>)
      requires i < |known|
      modifies this`known
      ensures known == old(known)[i := WithHints(old(known)[i], addresses)]
    {
      ghost var before := known;
      for k := 0 to |addresses|
        invariant i < |known| && known == before[i := known[i]]
        invariant WithHints(known[i], addresses[k..]) == WithHints(before[i], addresses)
      {
        assert addresses[k..][1..] == addresses[k + 1..];
        var address := Text.Trim(addresses[k]);
        if address != "" {
          var entry := known[i];
          entry := entry.(addresses := AddUnique(entry.addresses, address));
          if entry.lastDial.None? {
            entry := entry.(lastDial := Some(address));
          }
          known := known[i := entry];
        }
      }
      assert addresses[|addresses|..] == [];
    }

    method SeedInviteHints(env: Env, id: string, addresses: seq<string>)
      modifies this
      ensures View() == SeedInvite(old(View()), env, id, addresses)
    {
      Unignore(id);
      var newcomer := Known(id, env.defaultName(id), [], None, false, false, false, false, false);
      var i := EntryFor(id, newcomer);
      ghost var base := known[i];
      HintsKeepFlags(base, addresses);
      AddHints(i, addresses);
      assert known == Put(old(known), WithHints(base, addresses));
      RefreshUserViews();
    }

    method AddRendezvousAddresses(env: Env, i: nat, addresses: seq<string>)
      requires i < |known|
      modifies this`known
      ensures known == old(known)[i := WithRendezvous(old(known)[i], env, addresses)]
    {
      ghost var before := known;
      for k := 0 to |addresses|
        invariant i < |known| && known == before[i := known[i]] && known[i].id == before[i].id
        invariant WithRendezvous(known[i], env, addresses[k..]) == WithRendezvous(before[i], env, addresses)
      {
        assert addresses[k..][1..] == addresses[k + 1..];
        var shared := env.shareable(addresses[k], known[i].id);
        var address := if shared.Some? then shared.value else Text.Trim(addresses[k]);
        if address != "" {
          var entry := known[i];
          known := known[i := entry.(addresses := AddUnique(entry.addresses, address), lastDial := Some(address))];
        }
      }
      assert addresses[|addresses|..] == [];
    }

    method SeedRendezvousInvite(env: Env, id: string, addresses: seq<string>)
      modifies this
      ensures View() == SeedRendezvous(old(View()), env, id, addresses)
    {
      Unignore(id);
      UpdateKnownPeer(env, id, None, None, false, false);
      var i := Position(id);
      if i < |known| {
        RendezvousKeepsFlags(known[i], env, addresses);
        AddRendezvousAddresses(env, i, addresses);
      }
    }
  }
}
