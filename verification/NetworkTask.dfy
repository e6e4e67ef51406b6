/** The network task of the daemon: the handlers of `Session` as they run, on state edited in place. */
module NetworkTask {
  import opened Core
  import opened Contacts
  import opened Session
  import AddressBook
  import Routing

  class NetworkState {
    const book: AddressBook.KnownPeers
    const world: World
    var peers: seq<Peer>
    var queued: seq<string>
    var channels: map<string, Hello>
    var active: set<string>
    var dials: set<string>
    var offers: Routing.Offers
    var ticks: multiset<string>
    var finishing: multiset<(string, Token)>

    ghost function View(): Daemon
      reads this, book
    {
      Daemon(peers, book.View(), queued, channels, active, dials, offers, ticks, finishing)
    }

    constructor (w: World, known: seq<Known>, ignored: seq<string>)
      ensures world == w && fresh(book)
      ensures View() == Booted(known, ignored)
    {
      world := w;
      book := new AddressBook.KnownPeers(known, ignored);
      peers, queued, channels, active, dials, offers := [], [], map[], {}, {}, map[];
      ticks, finishing := multiset{}, multiset{};
    }

    method PeerPosition(id: string) returns (i: nat)
      ensures i == FindPeer(peers, id)
    {
      i := 0;
      while i < |peers| && peers[i].id != id
        invariant i <= |peers|
        invariant forall k :: 0 <= k < i ==> peers[k].id != id
      {
        i := i + 1;
      }
      PeerFirst(peers, id, i);
    }

    method GetOrInsertPeer(id: string, address: string) returns (i: nat)
      modifies this`peers
      ensures peers == GetOrInsert(world, old(peers), id, address)
      ensures i == FindPeer(peers, id) < |peers|
    {
      i := PeerPosition(id);
      if i < |peers| {
        peers := peers[i := peers[i].(address := address)];
      } else {
        peers := peers + [Peer(id, world.numbered(|peers| + 1), address, Connecting, NoSession)];
      }
      PeerFirst(peers, id, i);
    }

    method UpsertPeer(id: string, address: string)
      modifies this`peers, book
      ensures var p := ThePeer(GetOrInsert(world, old(peers), id, address), id);
              && peers == SetPeer(GetOrInsert(world, old(peers), id, address),
                                  p.(transport := Connected,
                                     session := if p.session.NoSession? then Handshaking else p.session))
              && book.View() == UpdateKnown(old(book.View()), world.env, id, Some(address), Some(p.name), true, false)
    {
      var i := GetOrInsertPeer(id, address);
      var peer := peers[i].(transport := Connected);
      if peer.session.NoSession? {
        peer := peer.(session := Handshaking);
      }
      peers := peers[i := peer];
      InsertedAddress(world, old(peers), id, address);
      book.UpdateKnownPeer(world.env, id, Some(peer.address), Some(peer.name), true, false);
    }

    method ShouldSurface(id: string) returns (surfaces: bool)
      ensures surfaces == SurfacesOnConnect(View(), id)
    {
      var i := PeerPosition(id);
      var k := book.Position(id);
      return id in dials || i < |peers| || k < |book.known| || id in queued;
    }

    method ConnectionEstablished(id: string, address: string, dialer: bool)
      modifies this`peers, this`dials, book
      ensures View() == OnEstablished(world, old(View()), id, address, dialer)
    {
      var surfaces := ShouldSurface(id);
      dials := dials - {id};
      if surfaces {
        UpsertPeer(id, if dialer then address else "");
      }
    }

    method CloseTransport(id: string, remaining: nat)
      modifies this`peers
      ensures peers == PeersAfterClose(old(View()), id, remaining)
    {
      var i := PeerPosition(id);
      if i < |peers| {
        var k := book.Position(id);
        if remaining == 0 && peers[i].session.NoSession? && k == |book.known| && id !in queued {
          peers := peers[..i] + peers[i + 1..];
        } else {
          peers := peers[i := peers[i].(transport := if remaining == 0 then Disconnected else Connected)];
        }
      }
    }

    method ConnectionClosed(id: string, remaining: nat)
      modifies this`peers, this`active, this`offers, book
      ensures View() == OnClosed(world, old(View()), id, remaining)
    {
      CloseTransport(id, remaining);
      book.SetPeerConnected(id, remaining > 0);
      active := active - {id};
      if remaining == 0 {
        offers := offers - {id};
      }
    }

    method PeerIdentified(id: string, remote: string, agent: string)
      modifies this`peers, book
      ensures View() == OnIdentified(world, old(View()), id, remote, agent)
    {
      var k := PeerPosition(id);
      var n := book.Position(id);
      if k < |peers| || n < |book.known| {
        var i := GetOrInsertPeer(id, remote);
        var name := if agent == "" then world.env.defaultName(id) else agent;
        peers := peers[i := peers[i].(name := name, transport := Connected)];
        book.UpdateKnownPeer(world.env, id, None, Some(name), true, false);
      }
    }

    method PingReceived(id: string)
      modifies this`peers
      ensures View() == OnPinged(old(View()), id)
    {
      var i := PeerPosition(id);
      if i < |peers| {
        peers := peers[i := peers[i].(transport := Connected)];
      }
    }

    method ApplySessionHello(id: string, hello: Hello)
      modifies this`peers, book
      ensures View() == ApplyHello(world, old(View()), id, hello)
    {
      var i := PeerPosition(id);
      if i == |peers| {
        i := GetOrInsertPeer(id, UNKNOWN_ADDRESS);
      }
      var peer := peers[i];
      peers := peers[i := peer.(name := hello.name, session := Active(hello.room, hello.name), transport := Connected)];
      book.UpdateKnownPeer(world.env, id, Some(peer.address), Some(hello.name), true, true);
    }

    method ApplyApprovedSessionHello(id: string, hello: Hello)
      modifies this`peers, this`active, this`ticks, this`queued, book
      ensures View() == ApplyApproved(world, old(View()), id, hello)
    {
      ApplySessionHello(id, hello);
      if id !in active {
        active := active + {id};
        queued := Without(queued, id);
        ticks := ticks + multiset{id};
      }
    }

    method HelloReceived(id: string, hello: Hello)
      modifies this, book
      ensures View() == OnHello(world, old(View()), id, hello)
    {
      var recognized := IsRecognized(id);
      if recognized {
        offers := offers[id := hello.trusted];
        ApplyApprovedSessionHello(id, hello);
      } else {
        channels := channels[id := hello];
        if id !in queued {
          queued := queued + [id];
        }
      }
    }

    method IsConnectedHere(id: string) returns (b: bool)
      ensures b == IsConnected(View(), id)
    {
      b := false;
      for i := 0 to |peers|
        invariant b <==> exists k :: 0 <= k < i && peers[k].id == id && peers[k].transport == Connected
      {
        b := b || (peers[i].id == id && peers[i].transport == Connected);
      }
    }

    method IsRecognized(id: string) returns (b: bool)
      ensures b == (IsConnected(View(), id) || Whitelisted(book.known, id))
    {
      b := IsConnectedHere(id);
      var k := book.Position(id);
      b := b || (k < |book.known| && book.known[k].whitelisted);
    }

    method HelloAcked(id: string, hello: Hello)
      modifies this, book
      ensures View() == OnHelloAck(world, old(View()), id, hello)
    {
      offers := offers[id := hello.trusted];
      ApplySessionHello(id, hello);
      if id !in active {
        active := active + {id};
        ticks := ticks + multiset{id};
      }
    }

    method SendMediaFrame(id: string, scores: seq<PathScore>)
      modifies this`active, this`ticks
      ensures View() == OnTick(world, old(View()), id, scores)
    {
      ticks := ticks - multiset{id};
      if id in active {
        var route := Routing.ResolveRouteByScan(book.known, scores, offers, world.isPeerId, id);
        if route.Unreachable? {
          active := active - {id};
        } else {
          ticks := ticks + multiset{id};
        }
      }
    }

    method ApprovePendingPeer(id: string, whitelist: bool) returns (ok: bool)
      modifies this, book
      ensures ok <==> id in old(channels)
      ensures View() == OnApprove(world, old(View()), id, whitelist)
    {
      if id !in channels {
        return false;
      }
      var hello := channels[id];
      channels := channels - {id};
      ApplyApprovedSessionHello(id, hello);
      finishing := finishing + multiset{(id, if whitelist then Whitelisting else Admitting)};
      return true;
    }

    method RejectPendingPeer(id: string) returns (ok: bool)
      modifies this`channels, this`queued, this`finishing
      ensures ok <==> id in old(channels)
      ensures View() == OnReject(old(View()), id)
    {
      if id !in channels {
        return false;
      }
      channels := channels - {id};
      queued := Without(queued, id);
      finishing := finishing + multiset{(id, Rejecting)};
      return true;
    }

    method Dequeue(id: string, token: Token)
      modifies this`queued, this`finishing
      ensures queued == Without(old(queued), id) && finishing == old(finishing) - multiset{(id, token)}
    {
      finishing := finishing - multiset{(id, token)};
      queued := Without(queued, id);
    }

    method FinishCommand(id: string, token: Token)
      modifies this`queued, this`finishing, book
      ensures View() == OnFinish(world, old(View()), id, token)
    {
      Dequeue(id, token);
      if token.Whitelisting? {
        book.SetWhitelistedPeer(id);
      }
      FinishedFields(world, old(View()), id, token);
    }
  }

  lemma FinishedFields(w: World, d: Daemon, id: string, token: Token)
    ensures OnFinish(w, d, id, token) ==
            d.(queued := Without(d.queued, id), finishing := d.finishing - multiset{(id, token)},
               book := if token.Whitelisting? then SetWhitelisted(d.book, id) else d.book)
  {
  }

  lemma InsertedAddress(w: World, peers: seq<Peer>, id: string, address: string)
    ensures ThePeer(GetOrInsert(w, peers, id, address), id).address == address
  {
    var r := GetOrInsert(w, peers, id, address);
    PeerFirst(r, id, FindPeer(peers, id));
  }
}
