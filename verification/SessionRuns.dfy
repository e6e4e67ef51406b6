/** What admission, whitelisting and media ticks guarantee over every run of the daemon. */
module SessionRuns {
  import opened Core
  import opened Contacts
  import opened Session
  import opened SessionSpec

  // --- the approval gate -----------------------------------------------------------------------

  /** Not admitted: no entry as a peer, not in the address book, not being dialed, no media flow. */
  predicate Gated(d: Daemon, id: string) {
    !InPeers(d.peers, id) && !KnownTo(d, id) && id !in d.dials && id !in d.active
  }

  /** The local user, an invite or the DHT lets this peer in, or it answers a hello of ours. */
  predicate Admits(e: Event) {
    e.Approve? || e.DialStarted? || e.InviteSeeded? || e.RendezvousFound? || e.HelloAcked?
  }

  /** A new connection while the peer's hello is still waiting for approval. */
  predicate ReconnectsWhileQueued(d: Daemon, id: string, e: Event) {
    e.Established? && id in d.queued
  }

  /** Editing one entry of the peer list, inserted first if need be, leaves the others in place. */
  lemma EditIsLocal(w: World, peers: seq<Peer>, other: string, address: string, p: Peer, id: string)
    requires other != id && p.id == other
    ensures InPeers(SetPeer(GetOrInsert(w, peers, other, address), p), id) <==> InPeers(peers, id)
    ensures InPeers(peers, other) ==> (InPeers(SetPeer(peers, p), id) <==> InPeers(peers, id))
  {
    GetOrInsertSpec(w, peers, other, address, id);
    SetPeerSpec(GetOrInsert(w, peers, other, address), p, id);
    if InPeers(peers, other) { SetPeerSpec(peers, p, id); }
  }

  /** The peer is listed after the step if and only if it was before. */
  predicate SameListing(d: Daemon, a: Daemon, id: string) {
    InPeers(a.peers, id) <==> InPeers(d.peers, id)
  }

  lemma EstablishedIsLocal(w: World, d: Daemon, other: string, address: string, dialer: bool, id: string)
    requires other != id
    ensures SameListing(d, OnEstablished(w, d, other, address, dialer), id)
  {
    var at := if dialer then address else "";
    var p := ThePeer(GetOrInsert(w, d.peers, other, at), other);
    EditIsLocal(w, d.peers, other, at,
                p.(transport := Connected, session := if p.session.NoSession? then Handshaking else p.session), id);
  }

  lemma ClosedIsLocal(w: World, d: Daemon, other: string, remaining: nat, id: string)
    requires other != id
    ensures SameListing(d, OnClosed(w, d, other, remaining), id)
  {
    if InPeers(d.peers, other) {
      DropPeerSpec(d.peers, other, id);
      var p := ThePeer(d.peers, other);
      SetPeerSpec(d.peers, p.(transport := if remaining == 0 then Disconnected else Connected), id);
    }
  }

  lemma IdentifiedIsLocal(w: World, d: Daemon, other: string, remote: string, agent: string, id: string)
    requires other != id
    ensures SameListing(d, OnIdentified(w, d, other, remote, agent), id)
  {
    var name := if agent == "" then w.env.defaultName(other) else agent;
    var p := ThePeer(GetOrInsert(w, d.peers, other, remote), other);
    EditIsLocal(w, d.peers, other, remote, p.(name := name, transport := Connected), id);
  }

  lemma HelloIsLocal(w: World, d: Daemon, other: string, hello: Hello, id: string)
    requires other != id
    ensures SameListing(d, ApplyHello(w, d, other, hello), id)
    ensures ApplyApproved(w, d, other, hello).peers == ApplyHello(w, d, other, hello).peers
    ensures ApplyHello(w, d, other, hello).(peers := d.peers, book := d.book) == d
  {
    var peers := if InPeers(d.peers, other) then d.peers else GetOrInsert(w, d.peers, other, UNKNOWN_ADDRESS);
    var p := ThePeer(peers, other);
    EditIsLocal(w, d.peers, other, UNKNOWN_ADDRESS,
                p.(name := hello.name, session := Active(hello.room, hello.name), transport := Connected), id);
  }

  lemma HelloReceivedIsLocal(w: World, d: Daemon, other: string, hello: Hello, id: string)
    requires other != id
    ensures SameListing(d, Step(w, d, other, HelloReceived(hello)), id)
  {
    HelloIsLocal(w, d.(offers := d.offers[other := hello.trusted]), other, hello, id);
  }

  lemma HelloAckedIsLocal(w: World, d: Daemon, other: string, hello: Hello, id: string)
    requires other != id
    ensures SameListing(d, Step(w, d, other, HelloAcked(hello)), id)
  {
    HelloIsLocal(w, d.(offers := d.offers[other := hello.trusted]), other, hello, id);
  }

  lemma ApprovalIsLocal(w: World, d: Daemon, other: string, whitelist: bool, id: string)
    requires other != id
    ensures SameListing(d, Step(w, d, other, Approve(whitelist)), id)
  {
    if other in d.channels {
      HelloIsLocal(w, d.(channels := d.channels - {other}), other, d.channels[other], id);
    }
  }

  predicate IsHandshake(e: Event) { e.HelloReceived? || e.HelloAcked? || e.Approve? }

  predicate IsConnection(e: Event) { e.Established? || e.Closed? || e.Identified? }

  /** Handlers touch only the list entry of the peer they are about. */
  lemma OtherPeersUntouched(w: World, d: Daemon, id: string, other: string, e: Event)
    requires other != id
    ensures SameListing(d, Step(w, d, other, e), id)
  {
    if IsHandshake(e) {
      HandshakeIsLocal(w, d, other, e, id);
    } else if IsConnection(e) {
      ConnectionIsLocal(w, d, other, e, id);
    } else {
      PlainEventIsLocal(w, d, other, e, id);
    }
  }

  lemma HandshakeIsLocal(w: World, d: Daemon, other: string, e: Event, id: string)
    requires other != id && IsHandshake(e)
    ensures SameListing(d, Step(w, d, other, e), id)
  {
    if e.HelloReceived? {
      HelloReceivedIsLocal(w, d, other, e.hello, id);
    } else if e.HelloAcked? {
      HelloAckedIsLocal(w, d, other, e.ack, id);
    } else {
      ApprovalIsLocal(w, d, other, e.whitelist, id);
    }
  }

  lemma ConnectionIsLocal(w: World, d: Daemon, other: string, e: Event, id: string)
    requires other != id && IsConnection(e)
    ensures SameListing(d, Step(w, d, other, e), id)
  {
    if e.Established? {
      EstablishedIsLocal(w, d, other, e.address, e.dialer, id);
    } else if e.Closed? {
      ClosedIsLocal(w, d, other, e.remaining, id);
    } else {
      IdentifiedIsLocal(w, d, other, e.remote, e.agent, id);
    }
  }

  lemma PlainEventIsLocal(w: World, d: Daemon, other: string, e: Event, id: string)
    requires other != id
    requires !IsHandshake(e) && !IsConnection(e)
    ensures SameListing(d, Step(w, d, other, e), id)
  {
    if InPeers(d.peers, other) {
      var p := ThePeer(d.peers, other);
      SetPeerSpec(d.peers, if e.RenameCommand? then p.(name := e.newName) else p.(transport := Connected), id);
    }
  }

  /** Nor do they touch another peer's flow, dial, or place in the queue. */
  predicate SameStanding(d: Daemon, a: Daemon, id: string) {
    && (id in a.active <==> id in d.active) && (id in a.dials <==> id in d.dials)
    && (id in a.queued <==> id in d.queued)
  }

  lemma OtherFlowUntouched(w: World, d: Daemon, id: string, other: string, e: Event)
    requires other != id
    ensures SameStanding(d, Step(w, d, other, e), id)
  {
    if IsHandshake(e) {
      HelloStanding(w, d, id, other, e);
    } else {
      PlainStanding(w, d, id, other, e);
    }
  }

  /** Everything an accepted hello does besides the peer's own records. */
  lemma ApprovedFields(w: World, d: Daemon, other: string, hello: Hello)
    ensures var a := ApplyApproved(w, d, other, hello);
            && a.active == d.active + {other} && a.dials == d.dials && a.channels == d.channels
            && a.queued == (if other in d.active then d.queued else Without(d.queued, other))
            && a.ticks == (if other in d.active then d.ticks else d.ticks + multiset{other})
            && a.finishing == d.finishing && a.offers == d.offers
  {
  }

  lemma AckedFields(w: World, d: Daemon, other: string, hello: Hello)
    ensures var a := OnHelloAck(w, d, other, hello);
            && a.active == d.active + {other} && a.dials == d.dials && a.channels == d.channels
            && a.queued == d.queued && a.finishing == d.finishing
            && a.ticks == (if other in d.active then d.ticks else d.ticks + multiset{other})
  {
  }

  lemma HelloStanding(w: World, d: Daemon, id: string, other: string, e: Event)
    requires other != id && IsHandshake(e)
    ensures SameStanding(d, Step(w, d, other, e), id)
  {
    if e.HelloReceived? {
      ReceivedStanding(w, d, id, other, e.hello);
    } else if e.HelloAcked? {
      AckedStanding(w, d, id, other, e.ack);
    } else {
      ApproveStanding(w, d, id, other, e.whitelist);
    }
  }

  lemma ReceivedStanding(w: World, d: Daemon, id: string, other: string, hello: Hello)
    requires other != id
    ensures SameStanding(d, Step(w, d, other, HelloReceived(hello)), id)
  {
    if IsConnected(d, other) || Whitelisted(d.book.known, other) {
      var e := d.(offers := d.offers[other := hello.trusted]);
      assert Step(w, d, other, HelloReceived(hello)) == ApplyApproved(w, e, other, hello);
      ApprovedFields(w, e, other, hello);
    }
  }

  lemma AckedStanding(w: World, d: Daemon, id: string, other: string, hello: Hello)
    requires other != id
    ensures SameStanding(d, Step(w, d, other, HelloAcked(hello)), id)
  {
    AckedFields(w, d, other, hello);
  }

  lemma ApproveStanding(w: World, d: Daemon, id: string, other: string, whitelist: bool)
    requires other != id
    ensures SameStanding(d, Step(w, d, other, Approve(whitelist)), id)
  {
    if other in d.channels {
      ApprovedFields(w, d.(channels := d.channels - {other}), other, d.channels[other]);
    }
  }

  lemma PlainStanding(w: World, d: Daemon, id: string, other: string, e: Event)
    requires other != id && !IsHandshake(e)
    ensures SameStanding(d, Step(w, d, other, e), id)
  {
    if IsConnection(e) {
      ConnectionStanding(w, d, id, other, e);
    } else if e.Tick? || e.Reject? || e.Finish? || e.DialStarted? {
      QueueStanding(w, d, id, other, e);
    } else {
      CommandStanding(w, d, id, other, e);
    }
  }

  lemma ConnectionStanding(w: World, d: Daemon, id: string, other: string, e: Event)
    requires other != id && IsConnection(e)
    ensures SameStanding(d, Step(w, d, other, e), id)
  {
  }

  lemma QueueStanding(w: World, d: Daemon, id: string, other: string, e: Event)
    requires other != id && (e.Tick? || e.Reject? || e.Finish? || e.DialStarted?)
    ensures SameStanding(d, Step(w, d, other, e), id)
  {
  }

  lemma CommandStanding(w: World, d: Daemon, id: string, other: string, e: Event)
    requires other != id && (e.Pinged? || e.MediaReceived? || IsLocalCommand(e))
    ensures SameStanding(d, Step(w, d, other, e), id)
  {
  }

  lemma OtherBookUntouched(w: World, d: Daemon, id: string, other: string, e: Event)
    requires other != id
    ensures KnownTo(Step(w, d, other, e), id) <==> KnownTo(d, id)
  {
    BookAfterStep(w, d, other, e);
    var op := BookOperation(w, d, other, e);
    if op.Some? {
      OperationIsLocal(d.book, w.env, other, op.value, id);
    }
  }

  lemma OtherStaysGated(w: World, d: Daemon, id: string, other: string, e: Event)
    requires Gated(d, id) && other != id
    ensures Gated(Step(w, d, other, e), id)
    ensures id in Step(w, d, other, e).queued <==> id in d.queued
  {
    OtherPeersUntouched(w, d, id, other, e);
    OtherBookUntouched(w, d, id, other, e);
    OtherFlowUntouched(w, d, id, other, e);
  }

  /** A connection surfaces a peer that is still waiting in the queue, and only that one. */
  lemma EstablishedGate(w: World, d: Daemon, id: string, address: string, dialer: bool)
    requires Gated(d, id) && Tidy(d.book)
    ensures Gated(OnEstablished(w, d, id, address, dialer), id) <==> id !in d.queued
    ensures id in d.queued ==> KnownTo(OnEstablished(w, d, id, address, dialer), id)
  {
    if id in d.queued {
      var at := if dialer then address else "";
      assert id !in d.book.ignored;
      UpdatedRecord(d.book, w.env, id, Some(at), Some(ThePeer(GetOrInsert(w, d.peers, id, at), id).name), true, false);
    }
  }

  lemma OwnEventsGate(w: World, d: Daemon, id: string, e: Event)
    requires Gated(d, id) && Tidy(d.book) && !Admits(e) && !e.Established?
    ensures Gated(Step(w, d, id, e), id)
  {
    if e.HelloReceived? {
      HelloIsQueued(w, d, id, e.hello);
    } else if IsLocalCommand(e) {
      CommandsGate(w, d, id, e);
    } else if e.Closed? {
      ClosingGate(w, d, id, e.remaining);
    } else {
      OtherEventsGate(w, d, id, e);
    }
  }

  lemma CommandsGate(w: World, d: Daemon, id: string, e: Event)
    requires Gated(d, id) && !Admits(e) && IsLocalCommand(e)
    ensures Gated(Step(w, d, id, e), id)
  {
    if e.SaveCommand? {
      assert LiveOf(d, id) == None;
    } else {
      FlagCommandsGate(w, d, id, e);
    }
  }

  lemma FlagCommandsGate(w: World, d: Daemon, id: string, e: Event)
    requires Gated(d, id) && (e.RenameCommand? || e.ForgetCommand? || e.TrustCommand?)
    ensures Step(w, d, id, e) == d
  {
  }

  lemma ClosingGate(w: World, d: Daemon, id: string, remaining: nat)
    requires Gated(d, id)
    ensures Gated(OnClosed(w, d, id, remaining), id)
  {
  }

  lemma OtherEventsGate(w: World, d: Daemon, id: string, e: Event)
    requires Gated(d, id) && !Admits(e) && !IsLocalCommand(e)
    requires !(e.Established? || e.Closed? || e.HelloReceived?)
    ensures Gated(Step(w, d, id, e), id)
  {
    if e.Identified? || e.Pinged? || e.MediaReceived? {
      SightingsGate(w, d, id, e);
    } else {
      QueueGate(w, d, id, e);
    }
  }

  lemma SightingsGate(w: World, d: Daemon, id: string, e: Event)
    requires Gated(d, id) && (e.Identified? || e.Pinged? || e.MediaReceived?)
    ensures Step(w, d, id, e) == d
  {
  }

  lemma QueueGate(w: World, d: Daemon, id: string, e: Event)
    requires Gated(d, id) && (e.Tick? || e.Reject? || e.Finish?)
    ensures Gated(Step(w, d, id, e), id)
  {
  }

  lemma StepGate(w: World, d: Daemon, id: string, who: string, e: Event)
    requires Gated(d, id) && Tidy(d.book) && (who == id ==> !Admits(e))
    ensures Gated(Step(w, d, who, e), id) <==> !(who == id && ReconnectsWhileQueued(d, id, e))
    ensures who == id && ReconnectsWhileQueued(d, id, e) ==> KnownTo(Step(w, d, who, e), id)
  {
    if who != id {
      OtherStaysGated(w, d, id, who, e);
    } else if e.Established? {
      EstablishedGate(w, d, id, e.address, e.dialer);
    } else {
      OwnEventsGate(w, d, id, e);
    }
  }

  /** Some step of the run is a reconnection while queued. */
  predicate Reconnects(w: World, d: Daemon, es: seq<Happening>, id: string)
    decreases |es|
  {
    es != [] &&
    ((es[0].0 == id && ReconnectsWhileQueued(d, id, es[0].1))
     || Reconnects(w, Step(w, d, es[0].0, es[0].1), es[1..], id))
  }

  /** Through any interleaving of events in which nobody lets the peer in, it stays without a peer
      entry and without a media flow if and only if it never opens another connection while its hello
      is waiting for approval. */
  lemma {:induction false} GateOverRuns(w: World, d: Daemon, es: seq<Happening>, id: string)
    requires Gated(d, id) && Tidy(d.book)
    requires forall i :: 0 <= i < |es| && es[i].0 == id ==> !Admits(es[i].1)
    ensures Gated(Run(w, d, es), id) <==> !Reconnects(w, d, es, id)
    decreases |es|
  {
    if es != [] {
      var (who, e) := es[0];
      var next := Step(w, d, who, e);
      StepGate(w, d, id, who, e);
      StepKeepsBook(w, d, who, e);
      if Gated(next, id) {
        GateOverRuns(w, next, es[1..], id);
      } else {
        BookThroughRuns(w, next, es[1..], id);
      }
    }
  }

  lemma {:induction false} NoConnectionNoReconnection(w: World, d: Daemon, es: seq<Happening>, id: string)
    requires forall i :: 0 <= i < |es| && es[i].0 == id ==> !es[i].1.Established?
    ensures !Reconnects(w, d, es, id)
    decreases |es|
  {
    if es != [] {
      NoConnectionNoReconnection(w, Step(w, d, es[0].0, es[0].1), es[1..], id);
    }
  }

  /** A stranger with a single connection is kept out whatever it sends on it and whatever else happens. */
  lemma StrangerNeedsApproval(w: World, d: Daemon, id: string, address: string, dialer: bool, es: seq<Happening>)
    requires Gated(d, id) && Tidy(d.book) && id !in d.queued
    requires forall i :: 0 <= i < |es| && es[i].0 == id ==> !Admits(es[i].1) && !es[i].1.Established?
    ensures Gated(Run(w, d, [(id, Established(address, dialer))] + es), id)
  {
    var first := (id, Established(address, dialer));
    var all := [first] + es;
    assert all[1..] == es;
    NoConnectionNoReconnection(w, Step(w, d, id, first.1), es, id);
    GateOverRuns(w, d, all, id);
  }

  lemma HelloIsQueued(w: World, d: Daemon, id: string, hello: Hello)
    requires Gated(d, id)
    ensures var a := OnHello(w, d, id, hello);
            a == d.(channels := d.channels[id := hello], queued := AddUnique(d.queued, id)) && Gated(a, id)
  {
  }

  lemma ReconnectingSurfaces(w: World, d: Daemon, id: string, address: string, dialer: bool)
    requires id in d.queued
    ensures IsConnected(OnEstablished(w, d, id, address, dialer), id)
  {
    var at := if dialer then address else "";
    var peers := GetOrInsert(w, d.peers, id, at);
    var p := ThePeer(peers, id);
    var up := p.(transport := Connected, session := if p.session.NoSession? then Handshaking else p.session);
    SetPeerSpec(peers, up, id);
    assert SetPeer(peers, up)[FindPeer(peers, id)] == up;
  }

  lemma FirstGreetingIsQueued(w: World, d: Daemon, id: string, address: string, hello: Hello)
    requires Gated(d, id) && id !in d.queued
    ensures id in OnHello(w, OnEstablished(w, d, id, address, false), id, hello).queued
  {
    assert OnEstablished(w, d, id, address, false) == d;
    HelloIsQueued(w, d, id, hello);
  }

  lemma SecondGreetingIsAccepted(w: World, d: Daemon, id: string, address: string, hello: Hello)
    requires id in d.queued
    ensures id in OnHello(w, OnEstablished(w, d, id, address, false), id, hello).active
  {
    ReconnectingSurfaces(w, d, id, address, false);
    RecognizedHelloIsAccepted(w, OnEstablished(w, d, id, address, false), id, hello);
  }

  /** The hypothesis is needed: after a second connection the repeated hello is taken for an approved one. */
  lemma SecondConnectionSkipsApproval(w: World, d: Daemon, id: string, address: string, hello: Hello)
    requires Gated(d, id) && id !in d.queued
    ensures var connect, greet := (id, Established(address, false)), (id, HelloReceived(hello));
            id in Run(w, d, [connect, greet] + [connect, greet]).active
  {
    var connect, greet := (id, Established(address, false)), (id, HelloReceived(hello));
    FirstGreetingIsQueued(w, d, id, address, hello);
    var once := Step(w, Step(w, d, id, connect.1), id, greet.1);
    SecondGreetingIsAccepted(w, once, id, address, hello);
    RunTwo(w, d, connect, greet, [connect, greet]);
    RunTwo(w, once, connect, greet, []);
    assert [connect, greet] + [] == [connect, greet];
  }

  lemma RunTwo(w: World, d: Daemon, a: Happening, b: Happening, es: seq<Happening>)
    ensures Run(w, d, [a, b] + es) == Run(w, Step(w, Step(w, d, a.0, a.1), b.0, b.1), es)
  {
    var all := [a, b] + es;
    assert all[1..] == [b] + es;
    assert ([b] + es)[1..] == es;
    assert Run(w, d, all) == Run(w, Step(w, d, a.0, a.1), [b] + es);
  }

  /** A hello from a peer that counts as connected, or is whitelisted, starts its flow and queues nobody. */
  lemma RecognizedHelloIsAccepted(w: World, d: Daemon, id: string, hello: Hello)
    requires IsConnected(d, id) || Whitelisted(d.book.known, id)
    ensures var a := OnHello(w, d, id, hello);
            && id in a.active && a.channels == d.channels
            && (forall x :: x in a.queued ==> x in d.queued)
  {
    ApprovedFields(w, d.(offers := d.offers[id := hello.trusted]), id, hello);
  }

  // --- the address book ------------------------------------------------------------------------

  /** The address book over every run of the daemon: it stays tidy, loses nobody, forgets no sighting
      and no whitelisting, and `id` becomes or ceases to be a friend only by a save, rename or forget
      command about it -- never by a network event, an invite or a lookup. */
  lemma {:induction false} BookThroughRuns(w: World, d: Daemon, es: seq<Happening>, id: string)
    requires Tidy(d.book)
    ensures Tidy(Run(w, d, es).book) && Grows(d.book, Run(w, d, es).book, id)
    ensures (forall i :: 0 <= i < |es| && EditsFriends(es[i].1) ==> es[i].0 != id) ==>
              (Pinned(Run(w, d, es).book.known, id) <==> Pinned(d.book.known, id))
    decreases |es|
  {
    if es != [] {
      var next := Step(w, d, es[0].0, es[0].1);
      StepKeepsBook(w, d, es[0].0, es[0].1);
      assert Grows(d.book, next.book, id);
      BookThroughRuns(w, next, es[1..], id);
    }
  }

  // --- whitelisting ----------------------------------------------------------------------------

  lemma AcceptedIsKnown(w: World, d: Daemon, id: string, hello: Hello)
    requires Tidy(d.book)
    ensures KnownTo(ApplyApproved(w, d, id, hello), id)
  {
    HelloUpdates(w, d, id, hello);
    var op := HelloUpdate(w, d, id, hello);
    if id !in d.book.ignored {
      UpdatedRecord(d.book, w.env, id, op.address, op.name, true, true);
    }
  }

  lemma ApprovedIsKnown(w: World, d: Daemon, id: string, whitelist: bool)
    requires Tidy(d.book) && id in d.channels
    ensures KnownTo(OnApprove(w, d, id, whitelist), id)
  {
    AcceptedIsKnown(w, d.(channels := d.channels - {id}), id, d.channels[id]);
  }

  lemma FinishWhitelists(w: World, d: Daemon, id: string)
    requires KnownTo(d, id)
    ensures Whitelisted(OnFinish(w, d, id, Whitelisting).book.known, id)
  {
    PutSpec(d.book.known, Lookup(d.book.known, id).value.(whitelisted := true), id);
  }

  /** Nothing is running yet; the address book comes from disk. */
  ghost predicate Fresh(d: Daemon) {
    && Tidy(d.book) && d.peers == [] && d.queued == [] && d.channels == map[] && d.active == {} && d.dials == {}
    && d.ticks == multiset{} && d.finishing == multiset{}
  }

  /** A daemon that has run and is started again keeps its known and ignored peers, and nothing else. */
  function Restarted(w: World, d: Daemon, lives: seq<seq<Happening>>): Daemon
    decreases |lives|
  {
    if lives == [] then d
    else
      var n := |lives| - 1;
      var before := Run(w, Restarted(w, d, lives[..n]), lives[n]);
      Booted(before.book.known, before.book.ignored)
  }

  lemma BootedIsFresh(b: Book)
    requires Tidy(b)
    ensures Fresh(Booted(b.known, b.ignored))
  {
  }

  /** Every start since the first, which found no address book, is a fresh one: the theorems about runs
      speak of every state the daemon can be in. */
  lemma {:induction false} EveryStartIsFresh(w: World, lives: seq<seq<Happening>>)
    ensures Fresh(Restarted(w, Booted([], []), lives))
    decreases |lives|
  {
    if lives == [] {
      BootedIsFresh(Book([], [], [], [], []));
    } else {
      var n := |lives| - 1;
      EveryStartIsFresh(w, lives[..n]);
      var d := Restarted(w, Booted([], []), lives[..n]);
      BookThroughRuns(w, d, lives[n], "");
      BootedIsFresh(Run(w, d, lives[n]).book);
    }
  }

  /** What is permanent survives restarts: known peers, sightings and whitelistings. */
  lemma {:induction false} RestartsLoseNothing(w: World, d: Daemon, lives: seq<seq<Happening>>, id: string)
    requires Fresh(d)
    ensures Fresh(Restarted(w, d, lives)) && Grows(d.book, Restarted(w, d, lives).book, id)
    decreases |lives|
  {
    if lives != [] {
      var n := |lives| - 1;
      RestartsLoseNothing(w, d, lives[..n], id);
      var e := Restarted(w, d, lives[..n]);
      BookThroughRuns(w, e, lives[n], id);
      BootedIsFresh(Run(w, e, lives[n]).book);
    }
  }

  /** Approving with whitelisting always takes effect and for good: whatever happened before the
      approval (`before`), between it and its completion (`between`) and afterwards (`after`), the peer
      is whitelisted at the end, and its next hello is accepted without being queued. */
  lemma WhitelistingIsPermanent(w: World, d: Daemon, before: seq<Happening>, id: string,
                                between: seq<Happening>, after: seq<Happening>, hello: Hello)
    requires Fresh(d)
    requires id in Run(w, d, before).channels
    ensures var approved := OnApprove(w, Run(w, d, before), id, true);
            var finished := OnFinish(w, Run(w, approved, between), id, Whitelisting);
            var last := Run(w, finished, after);
            && Whitelisted(last.book.known, id)
            && var greeted := OnHello(w, last, id, hello);
            && id in greeted.active && greeted.channels == last.channels
            && (forall x :: x in greeted.queued ==> x in last.queued)
  {
    var ready := Run(w, d, before);
    BookThroughRuns(w, d, before, id);
    ApprovalTakesHold(w, ready, id);
    var approved := OnApprove(w, ready, id, true);
    BookThroughRuns(w, approved, between, id);
    var done := Run(w, approved, between);
    CompletionTakesHold(w, done, id);
    var finished := OnFinish(w, done, id, Whitelisting);
    BookThroughRuns(w, finished, after, id);
    RecognizedHelloIsAccepted(w, Run(w, finished, after), id, hello);
  }

  lemma ApprovalTakesHold(w: World, d: Daemon, id: string)
    requires Tidy(d.book) && id in d.channels
    ensures Tidy(OnApprove(w, d, id, true).book) && KnownTo(OnApprove(w, d, id, true), id)
  {
    ApprovedIsKnown(w, d, id, true);
    StaysTidy(w, d, id, Approve(true), OnApprove(w, d, id, true));
  }

  lemma CompletionTakesHold(w: World, d: Daemon, id: string)
    requires Tidy(d.book) && KnownTo(d, id)
    ensures Tidy(OnFinish(w, d, id, Whitelisting).book)
    ensures Whitelisted(OnFinish(w, d, id, Whitelisting).book.known, id)
  {
    FinishWhitelists(w, d, id);
    StaysTidy(w, d, id, Finish(Whitelisting), OnFinish(w, d, id, Whitelisting));
  }

  lemma StaysTidy(w: World, d: Daemon, id: string, e: Event, a: Daemon)
    requires Tidy(d.book) && a == Step(w, d, id, e)
    ensures Tidy(a.book)
  {
    StepKeepsBook(w, d, id, e);
  }

  // --- media ticks -----------------------------------------------------------------------------

  /** An observer counts the closes of active flows and the ticks that found no flow. */
  datatype Watch = Watch(d: Daemon, closes: multiset<string>, idle: multiset<string>)

  function Observe(w: World, o: Watch, id: string, e: Event): Watch {
    Watch(Step(w, o.d, id, e),
          if e.Closed? && id in o.d.active then o.closes + multiset{id} else o.closes,
          if e.Tick? && id !in o.d.active then o.idle + multiset{id} else o.idle)
  }

  function Flow(d: Daemon, id: string): nat { if id in d.active then 1 else 0 }

  /** The law of ticks for one peer. */
  predicate Balanced(o: Watch, id: string) {
    && o.d.ticks[id] + o.idle[id] == Flow(o.d, id) + o.closes[id]
    && o.idle[id] <= o.closes[id]
  }

  lemma HelloBalances(w: World, o: Watch, who: string, e: Event, id: string)
    requires Balanced(o, id) && IsHandshake(e)
    ensures Balanced(Observe(w, o, who, e), id)
  {
    HelloTicks(w, o.d, who, e, id);
  }

  /** Accepting a hello schedules a tick exactly when it starts a flow. */
  predicate OneTickPerFlow(d: Daemon, a: Daemon, id: string) {
    a.ticks[id] + Flow(d, id) == d.ticks[id] + Flow(a, id)
  }

  lemma HelloTicks(w: World, d: Daemon, who: string, e: Event, id: string)
    requires IsHandshake(e)
    ensures OneTickPerFlow(d, Step(w, d, who, e), id)
  {
    if e.HelloReceived? {
      ReceivedTicks(w, d, who, e.hello, id);
    } else if e.HelloAcked? {
      AckedTicks(w, d, who, e.ack, id);
    } else {
      ApprovedTicks(w, d, who, e.whitelist, id);
    }
  }

  lemma AckedTicks(w: World, d: Daemon, who: string, hello: Hello, id: string)
    ensures OneTickPerFlow(d, Step(w, d, who, HelloAcked(hello)), id)
  {
    AckedFields(w, d, who, hello);
  }

  lemma ApprovedTicks(w: World, d: Daemon, who: string, whitelist: bool, id: string)
    ensures OneTickPerFlow(d, Step(w, d, who, Approve(whitelist)), id)
  {
    if who in d.channels {
      ApprovedFields(w, d.(channels := d.channels - {who}), who, d.channels[who]);
    }
  }

  lemma ReceivedTicks(w: World, d: Daemon, who: string, hello: Hello, id: string)
    ensures OneTickPerFlow(d, Step(w, d, who, HelloReceived(hello)), id)
  {
    ApprovedFields(w, d.(offers := d.offers[who := hello.trusted]), who, hello);
  }

  /** A tick is spent; an active flow either schedules the next one or, without a route, ends. */
  predicate Ticked(d: Daemon, a: Daemon, who: string) {
    || (a.ticks == d.ticks - multiset{who} && a.active == d.active - {who})
    || (who in d.active && a.ticks == d.ticks - multiset{who} + multiset{who} && a.active == d.active)
  }

  lemma TickFields(w: World, d: Daemon, who: string, scores: seq<PathScore>)
    ensures Ticked(d, OnTick(w, d, who, scores), who)
  {
  }

  lemma TickKeepsBalance(o: Watch, a: Daemon, who: string, id: string)
    requires Balanced(o, id) && who in o.d.ticks && Ticked(o.d, a, who)
    ensures Balanced(Watch(a, o.closes, if who !in o.d.active then o.idle + multiset{who} else o.idle), id)
  {
  }

  lemma TickBalances(w: World, o: Watch, who: string, scores: seq<PathScore>, id: string)
    requires Balanced(o, id) && who in o.d.ticks
    ensures Balanced(Observe(w, o, who, Tick(scores)), id)
  {
    TickFields(w, o.d, who, scores);
    TickKeepsBalance(o, OnTick(w, o.d, who, scores), who, id);
    TickObserved(w, o, who, scores);
  }

  lemma TickObserved(w: World, o: Watch, who: string, scores: seq<PathScore>)
    ensures Observe(w, o, who, Tick(scores)) ==
            Watch(OnTick(w, o.d, who, scores), o.closes, if who !in o.d.active then o.idle + multiset{who} else o.idle)
  {
  }

  lemma CloseBalances(w: World, o: Watch, who: string, remaining: nat, id: string)
    requires Balanced(o, id)
    ensures Balanced(Observe(w, o, who, Closed(remaining)), id)
  {
  }

  lemma FlowsStay(w: World, d: Daemon, who: string, e: Event)
    requires !IsHandshake(e) && !e.Tick? && !e.Closed?
    ensures Step(w, d, who, e).active == d.active && Step(w, d, who, e).ticks == d.ticks
  {
  }

  lemma StepBalances(w: World, o: Watch, who: string, e: Event, id: string)
    requires Balanced(o, id) && Possible(o.d, who, e)
    ensures Balanced(Observe(w, o, who, e), id)
  {
    if IsHandshake(e) {
      HelloBalances(w, o, who, e, id);
    } else if e.Tick? {
      TickBalances(w, o, who, e.scores, id);
    } else if e.Closed? {
      CloseBalances(w, o, who, e.remaining, id);
    } else {
      FlowsStay(w, o.d, who, e);
    }
  }

  function ObserveAll(w: World, o: Watch, es: seq<Happening>): Watch
    decreases |es|
  {
    if es == [] then o else ObserveAll(w, Observe(w, o, es[0].0, es[0].1), es[1..])
  }

  lemma {:induction false} RunBalances(w: World, o: Watch, es: seq<Happening>, id: string)
    requires Balanced(o, id) && Happens(w, o.d, es)
    ensures Balanced(ObserveAll(w, o, es), id)
    decreases |es|
  {
    if es != [] {
      var (who, e) := es[0];
      StepBalances(w, o, who, e, id);
      RunBalances(w, Observe(w, o, who, e), es[1..], id);
    }
  }

  /** Conservation of ticks over every run, for every peer: scheduled ticks are one per active flow,
      plus one for every close of an active flow, less those spent without a flow.  Hence an active
      flow always has a tick coming, and it has just one exactly when every close has been paid for. */
  lemma TicksAreConserved(w: World, d: Daemon, es: seq<Happening>, id: string)
    requires Fresh(d) && Happens(w, d, es)
    ensures var o := ObserveAll(w, Watch(d, multiset{}, multiset{}), es);
            && o.d.ticks[id] + o.idle[id] == Flow(o.d, id) + o.closes[id]
            && (id in o.d.active ==> id in o.d.ticks)
            && (id in o.d.active ==> (o.d.ticks[id] == 1 <==> o.idle[id] == o.closes[id]))
  {
    RunBalances(w, Watch(d, multiset{}, multiset{}), es, id);
  }

  /** A flow that is closed and reopened before its tick comes in keeps both ticks. */
  lemma ReopeningDoublesTheTicks(w: World, d: Daemon, id: string, ack: Hello)
    requires id in d.active && d.ticks[id] == 1
    ensures var reopened := Run(w, d, [(id, Closed(0)), (id, HelloAcked(ack))]);
            id in reopened.active && reopened.ticks[id] == 2
  {
    var closed := Step(w, d, id, Closed(0));
    AckedFields(w, closed, id, ack);
    RunTwo(w, d, (id, Closed(0)), (id, HelloAcked(ack)), []);
    var es := [(id, Closed(0)), (id, HelloAcked(ack))];
    assert es + [] == es;
  }

  // --- how flows end ---------------------------------------------------------------------------

  /** The two reasons for a flow to end: a connection closed, or a tick found no route. */
  ghost predicate EndsFlow(w: World, d: Daemon, id: string, who: string, e: Event) {
    who == id && (e.Closed? || (e.Tick? && !Routed(w, d, id, e.scores)))
  }

  /** An active flow ends in a step exactly for one of these reasons. */
  lemma FlowEndsForAReason(w: World, d: Daemon, id: string, who: string, e: Event)
    requires id in d.active && Possible(d, who, e)
    ensures id !in Step(w, d, who, e).active <==> EndsFlow(w, d, id, who, e)
  {
    if e.Tick? {
      TickGoesOnWithARoute(w, d, who, e.scores);
    } else if e.Closed? {
      CloseEndsTheFlow(w, d, who, e.remaining);
    } else if IsHandshake(e) {
      HandshakeKeepsFlows(w, d, id, who, e);
    } else {
      FlowsStay(w, d, who, e);
    }
  }

  lemma HandshakeKeepsFlows(w: World, d: Daemon, id: string, who: string, e: Event)
    requires id in d.active && IsHandshake(e)
    ensures id in Step(w, d, who, e).active
  {
    if who != id {
      HelloStanding(w, d, id, who, e);
    } else {
      HelloTicks(w, d, who, e, id);
      OwnHandshake(w, d, id, e);
    }
  }

  lemma OwnHandshake(w: World, d: Daemon, id: string, e: Event)
    requires id in d.active && IsHandshake(e)
    ensures id in Step(w, d, id, e).active
  {
    if e.HelloReceived? {
      if Recognized(d, id) { GreetingIsTaken(w, d, id, e.hello); } else { GreetingIsHeldBack(w, d, id, e.hello); }
    } else if e.HelloAcked? {
      AnswerIsTaken(w, d, id, e.ack);
    } else {
      ApprovalTakesTheGreeting(w, d, id, e.whitelist);
    }
  }

  ghost predicate FlowEnds(w: World, d: Daemon, es: seq<Happening>, id: string)
    decreases |es|
  {
    es != [] && (EndsFlow(w, d, id, es[0].0, es[0].1) || FlowEnds(w, Step(w, d, es[0].0, es[0].1), es[1..], id))
  }

  /** Over every run: a flow lasts until its connection closes or a tick
      finds no route. */
  lemma {:induction false} FlowsLast(w: World, d: Daemon, es: seq<Happening>, id: string)
    requires id in d.active && Happens(w, d, es) && !FlowEnds(w, d, es, id)
    ensures id in Run(w, d, es).active
    decreases |es|
  {
    if es != [] {
      FlowEndsForAReason(w, d, id, es[0].0, es[0].1);
      FlowsLast(w, Step(w, d, es[0].0, es[0].1), es[1..], id);
    }
  }

  // --- offers ----------------------------------------------------------------------------------

  /** The offers of a peer after one more event, from what they were: those of a greeting taken or of an
      answer, until its last connection closes. */
  function OffersAfter(d: Daemon, id: string, was: Option<seq<string>>, who: string, e: Event): Option<seq<string>> {
    if who != id then was
    else if e.HelloReceived? && Recognized(d, id) then Some(e.hello.trusted)
    else if e.HelloAcked? then Some(e.ack.trusted)
    else if e.Closed? && e.remaining == 0 then None
    else was
  }

  function OffersOf(d: Daemon, id: string): Option<seq<string>> {
    if id in d.offers then Some(d.offers[id]) else None
  }

  function OffersSince(w: World, d: Daemon, es: seq<Happening>, id: string,
                       was: Option<seq<string>>): Option<seq<string>>
    decreases |es|
  {
    if es == [] then was
    else OffersSince(w, Step(w, d, es[0].0, es[0].1), es[1..], id, OffersAfter(d, id, was, es[0].0, es[0].1))
  }

  predicate OffersFollow(d: Daemon, a: Daemon, id: string, who: string, e: Event) {
    OffersOf(a, id) == OffersAfter(d, id, OffersOf(d, id), who, e)
  }

  lemma StepKeepsOffers(w: World, d: Daemon, id: string, who: string, e: Event)
    ensures OffersFollow(d, Step(w, d, who, e), id, who, e)
  {
    if e.HelloReceived? {
      GreetingOffers(w, d, id, who, e.hello);
    } else if e.HelloAcked? {
      AnswerOffers(w, d, id, who, e.ack);
    } else if e.Approve? {
      ApprovalTakesTheGreeting(w, d, who, e.whitelist);
    } else if e.Closed? {
      CloseOffers(w, d, id, who, e.remaining);
    } else {
      OffersStay(w, d, who, e);
    }
  }

  lemma GreetingOffers(w: World, d: Daemon, id: string, who: string, hello: Hello)
    ensures OffersFollow(d, Step(w, d, who, HelloReceived(hello)), id, who, HelloReceived(hello))
  {
    if Recognized(d, who) { GreetingIsTaken(w, d, who, hello); } else { GreetingIsHeldBack(w, d, who, hello); }
  }

  lemma AnswerOffers(w: World, d: Daemon, id: string, who: string, hello: Hello)
    ensures OffersFollow(d, Step(w, d, who, HelloAcked(hello)), id, who, HelloAcked(hello))
  {
    AnswerIsTaken(w, d, who, hello);
  }

  lemma CloseOffers(w: World, d: Daemon, id: string, who: string, remaining: nat)
    ensures OffersFollow(d, Step(w, d, who, Closed(remaining)), id, who, Closed(remaining))
  {
    CloseEndsTheFlow(w, d, who, remaining);
  }

  lemma OffersStay(w: World, d: Daemon, who: string, e: Event)
    requires !IsHandshake(e) && !e.Closed?
    ensures Step(w, d, who, e).offers == d.offers
  {
    if e.Established? || e.Identified? || e.Pinged? {
      SightingOffers(w, d, who, e);
    } else if IsLocalCommand(e) {
      CommandOffers(w, d, who, e);
    } else {
      QueueOffers(w, d, who, e);
    }
  }

  lemma SightingOffers(w: World, d: Daemon, who: string, e: Event)
    requires e.Established? || e.Identified? || e.Pinged?
    ensures Step(w, d, who, e).offers == d.offers
  {
  }

  lemma CommandOffers(w: World, d: Daemon, who: string, e: Event)
    requires IsLocalCommand(e)
    ensures Step(w, d, who, e).offers == d.offers
  {
  }

  lemma QueueOffers(w: World, d: Daemon, who: string, e: Event)
    requires e.MediaReceived? || e.Tick? || e.DialStarted? || e.Reject? || e.Finish?
    ensures Step(w, d, who, e).offers == d.offers
  {
  }

  /** Over every run the offers relays are chosen by are those of each peer's last greeting taken or answer
      since it was last connected -- not those of a greeting that was approved by hand. */
  lemma {:induction false} OffersAreTheLastGreeting(w: World, d: Daemon, es: seq<Happening>, id: string)
    ensures OffersOf(Run(w, d, es), id) == OffersSince(w, d, es, id, OffersOf(d, id))
    decreases |es|
  {
    if es != [] {
      StepKeepsOffers(w, d, id, es[0].0, es[0].1);
      OffersAreTheLastGreeting(w, Step(w, d, es[0].0, es[0].1), es[1..], id);
    }
  }
}
