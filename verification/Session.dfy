/** Admission of peers, media flows and their ticks: the handlers of
    crates/voicersd/src/network/swarm_events.rs and network/session.rs, the commands of network.rs and
    app.rs that touch the same state, as steps of one daemon. */
module Session {
  import opened Core
  import opened Contacts
  import Routing

  datatype Transport = Planned | Connecting | Connected | Disconnected
  datatype SessionState = NoSession | Handshaking | Active(room: Option<string>, as_: string)

  datatype Peer = Peer(id: string, name: string, address: string, transport: Transport, session: SessionState)

  datatype Hello = Hello(name: string, room: Option<string>, trusted: seq<string>)

  /** What a command still has to do once the network task has answered it. */
  datatype Token = Whitelisting | Admitting | Rejecting

  datatype Daemon = Daemon(
    peers: seq<Peer>,
    book: Book,
    queued: seq<string>,               // peers shown as waiting for approval
    channels: map<string, Hello>,      // their last hello, still to be answered
    active: set<string>,               // media flows
    dials: set<string>,                // peers with a pending dial
    offers: Routing.Offers,
    ticks: multiset<string>,           // scheduled media ticks
    finishing: multiset<(string, Token)>)

  datatype Event =
    | Established(address: string, dialer: bool)
    | Closed(remaining: nat)
    | Identified(remote: string, agent: string)
    | Pinged
    | HelloReceived(hello: Hello)
    | HelloAcked(ack: Hello)
    | MediaReceived
    | Tick(scores: seq<PathScore>)
    | DialStarted
    | Approve(whitelist: bool)
    | Reject
    | Finish(token: Token)
    | SaveCommand
    | RenameCommand(newName: string)
    | ForgetCommand
    | TrustCommand(trusted: bool)
    | InviteSeeded(addresses: seq<string>)
    | RendezvousFound(hints: seq<string>)

  /** The daemon as it starts, with the address book read from disk. */
  function Booted(known: seq<Known>, ignored: seq<string>): Daemon {
    Daemon([], Refresh(Book(known, ignored, [], [], [])), [], map[], {}, {}, map[], multiset{}, multiset{})
  }

  /** The outside world: address and name rendering, and which strings are peer ids. */
  datatype World = World(env: Env, numbered: nat -> string, isPeerId: string -> bool)

  // --- the list of peers -----------------------------------------------------------------------

  function FindPeer(peers: seq<Peer>, id: string): (i: nat)
    ensures i <= |peers|
    ensures i < |peers| ==> peers[i].id == id
    ensures forall k :: 0 <= k < i ==> peers[k].id != id
  {
    if peers == [] || peers[0].id == id then 0 else 1 + FindPeer(peers[1..], id)
  }

  predicate InPeers(peers: seq<Peer>, id: string) { FindPeer(peers, id) < |peers| }

  function GetOrInsert(w: World, peers: seq<Peer>, id: string, address: string): (r: seq<Peer>)
    ensures InPeers(r, id)
  {
    var i := FindPeer(peers, id);
    if i < |peers| then
      PeerFirst(peers[i := peers[i].(address := address)], id, i);
      peers[i := peers[i].(address := address)]
    else
      var r := peers + [Peer(id, w.numbered(|peers| + 1), address, Connecting, NoSession)];
      PeerFirst(r, id, i);
      r
  }

  lemma PeerFirst(peers: seq<Peer>, id: string, i: nat)
    requires i <= |peers| && forall k :: 0 <= k < i ==> peers[k].id != id
    requires i < |peers| ==> peers[i].id == id
    ensures FindPeer(peers, id) == i
  {
  }

  /** Replace the record of a peer that is there. */
  function SetPeer(peers: seq<Peer>, p: Peer): (r: seq<Peer>)
    requires InPeers(peers, p.id)
  {
    peers[FindPeer(peers, p.id) := p]
  }

  function ThePeer(peers: seq<Peer>, id: string): (p: Peer)
    requires InPeers(peers, id)
    ensures p.id == id
  {
    peers[FindPeer(peers, id)]
  }

  lemma SetPeerSpec(peers: seq<Peer>, p: Peer, id: string)
    requires InPeers(peers, p.id)
    ensures InPeers(SetPeer(peers, p), id) <==> InPeers(peers, id)
    ensures id == p.id ==> ThePeer(SetPeer(peers, p), id) == p
  {
    var i := FindPeer(peers, id);
    PeerFirst(SetPeer(peers, p), id, i);
  }

  lemma GetOrInsertSpec(w: World, peers: seq<Peer>, id: string, address: string, other: string)
    ensures InPeers(GetOrInsert(w, peers, id, address), other) <==> InPeers(peers, other) || other == id
  {
    var r := GetOrInsert(w, peers, id, address);
    var k := FindPeer(peers, other);
    if other != id {
      PeerFirst(r, other, if k < |peers| then k else |r|);
    }
  }

  function DropPeer(peers: seq<Peer>, id: string): seq<Peer>
    requires InPeers(peers, id)
  {
    var i := FindPeer(peers, id);
    peers[..i] + peers[i + 1..]
  }

  lemma DropPeerSpec(peers: seq<Peer>, id: string, other: string)
    requires InPeers(peers, id) && other != id
    ensures InPeers(DropPeer(peers, id), other) <==> InPeers(peers, other)
  {
    var i, k := FindPeer(peers, id), FindPeer(peers, other);
    var r := DropPeer(peers, id);
    PeerFirst(r, other, if k == |peers| then |r| else if k < i then k else k - 1);
  }

  // --- handlers --------------------------------------------------------------------------------

  predicate KnownTo(d: Daemon, id: string) { Lookup(d.book.known, id).Some? }

  predicate SurfacesOnConnect(d: Daemon, id: string) {
    id in d.dials || InPeers(d.peers, id) || KnownTo(d, id) || id in d.queued
  }

  predicate SurfacesApproved(d: Daemon, id: string) {
    InPeers(d.peers, id) || KnownTo(d, id)
  }

  function OnEstablished(w: World, d: Daemon, id: string, address: string, dialer: bool): Daemon {
    var surfaces := SurfacesOnConnect(d, id);
    var e := d.(dials := d.dials - {id});
    if !surfaces then e
    else
      var at := if dialer then address else "";
      var peers := GetOrInsert(w, e.peers, id, at);
      var p := ThePeer(peers, id);
      var up := p.(transport := Connected, session := if p.session.NoSession? then Handshaking else p.session);
      e.(peers := SetPeer(peers, up),
         book := Apply(e.book, w.env, id, Update(Some(at), Some(p.name), true, false)))
  }

  /** Strangers that leave nothing behind are dropped; everybody else is marked. */
  function PeersAfterClose(d: Daemon, id: string, remaining: nat): seq<Peer> {
    if !InPeers(d.peers, id) then d.peers
    else if remaining == 0 && ThePeer(d.peers, id).session.NoSession? && !KnownTo(d, id) && id !in d.queued
    then DropPeer(d.peers, id)
    else SetPeer(d.peers, ThePeer(d.peers, id).(transport := if remaining == 0 then Disconnected else Connected))
  }

  function OnClosed(w: World, d: Daemon, id: string, remaining: nat): Daemon {
    d.(peers := PeersAfterClose(d, id, remaining),
       book := Apply(d.book, w.env, id, Connection(remaining > 0)),
       active := d.active - {id},
       offers := if remaining == 0 then d.offers - {id} else d.offers)
  }

  function OnIdentified(w: World, d: Daemon, id: string, remote: string, agent: string): Daemon {
    if !SurfacesApproved(d, id) then d
    else
      var peers := GetOrInsert(w, d.peers, id, remote);
      var name := if agent == "" then w.env.defaultName(id) else agent;
      d.(peers := SetPeer(peers, ThePeer(peers, id).(name := name, transport := Connected)),
         book := Apply(d.book, w.env, id, Update(None, Some(name), true, false)))
  }

  function OnPinged(d: Daemon, id: string): Daemon {
    if InPeers(d.peers, id)
    then d.(peers := SetPeer(d.peers, ThePeer(d.peers, id).(transport := Connected))) else d
  }

  /** A session hello that is accepted makes the peer known and its session active. */
  function ApplyHello(w: World, d: Daemon, id: string, hello: Hello): Daemon {
    var peers := if InPeers(d.peers, id) then d.peers else GetOrInsert(w, d.peers, id, UNKNOWN_ADDRESS);
    var p := ThePeer(peers, id);
    var up := p.(name := hello.name, session := Active(hello.room, hello.name), transport := Connected);
    d.(peers := SetPeer(peers, up),
       book := Apply(d.book, w.env, id, Update(Some(p.address), Some(hello.name), true, true)))
  }

  function StartFlow(d: Daemon, id: string): Daemon {
    if id in d.active then d else d.(active := d.active + {id}, ticks := d.ticks + multiset{id})
  }

  function ApplyApproved(w: World, d: Daemon, id: string, hello: Hello): Daemon {
    var e := StartFlow(ApplyHello(w, d, id, hello), id);
    if id in d.active then e else e.(queued := Without(e.queued, id))
  }

  predicate IsConnected(d: Daemon, id: string) {
    exists i :: 0 <= i < |d.peers| && d.peers[i].id == id && d.peers[i].transport == Connected
  }

  function OnHello(w: World, d: Daemon, id: string, hello: Hello): Daemon {
    if IsConnected(d, id) || Whitelisted(d.book.known, id) then
      ApplyApproved(w, d.(offers := d.offers[id := hello.trusted]), id, hello)
    else
      d.(channels := d.channels[id := hello], queued := AddUnique(d.queued, id))
  }

  function OnHelloAck(w: World, d: Daemon, id: string, hello: Hello): Daemon {
    StartFlow(ApplyHello(w, d.(offers := d.offers[id := hello.trusted]), id, hello), id)
  }

  function OnTick(w: World, d: Daemon, id: string, scores: seq<PathScore>): Daemon {
    var e := d.(ticks := d.ticks - multiset{id});
    if id !in d.active then e
    else if Routing.ResolveRoute(d.book.known, scores, d.offers, w.isPeerId, id).Unreachable? then
      e.(active := e.active - {id})
    else e.(ticks := e.ticks + multiset{id})
  }

  function OnApprove(w: World, d: Daemon, id: string, whitelist: bool): Daemon {
    if id !in d.channels then d
    else
      var e := ApplyApproved(w, d.(channels := d.channels - {id}), id, d.channels[id]);
      e.(finishing := e.finishing + multiset{(id, if whitelist then Whitelisting else Admitting)})
  }

  function OnReject(d: Daemon, id: string): Daemon {
    if id !in d.channels then d
    else d.(channels := d.channels - {id}, queued := Without(d.queued, id),
            finishing := d.finishing + multiset{(id, Rejecting)})
  }

  function OnFinish(w: World, d: Daemon, id: string, token: Token): Daemon {
    var e := d.(finishing := d.finishing - multiset{(id, token)}, queued := Without(d.queued, id));
    if token.Whitelisting? then e.(book := Apply(e.book, w.env, id, Whitelist)) else e
  }

  function LiveOf(d: Daemon, id: string): Option<LivePeer> {
    if InPeers(d.peers, id) then
      var p := ThePeer(d.peers, id);
      Some(LivePeer(id, p.name, p.address, p.transport == Connected, p.session.Active?))
    else None
  }

  function OnRename(w: World, d: Daemon, id: string, name: string): Daemon {
    var live := InPeers(d.peers, id);
    d.(book := Apply(d.book, w.env, id, RenamePeer(name, live)),
       peers := if live then SetPeer(d.peers, ThePeer(d.peers, id).(name := name)) else d.peers)
  }

  function Step(w: World, d: Daemon, id: string, e: Event): Daemon {
    match e
    case Established(address, dialer) => OnEstablished(w, d, id, address, dialer)
    case Closed(remaining) => OnClosed(w, d, id, remaining)
    case Identified(remote, agent) => OnIdentified(w, d, id, remote, agent)
    case Pinged => OnPinged(d, id)
    case HelloReceived(hello) => OnHello(w, d, id, hello)
    case HelloAcked(hello) => OnHelloAck(w, d, id, hello)
    case MediaReceived => d
    case Tick(scores) => OnTick(w, d, id, scores)
    case DialStarted => d.(dials := d.dials + {id})
    case Approve(whitelist) => OnApprove(w, d, id, whitelist)
    case Reject => OnReject(d, id)
    case Finish(token) => OnFinish(w, d, id, token)
    case SaveCommand => d.(book := Apply(d.book, w.env, id, SavePeer(LiveOf(d, id))))
    case RenameCommand(name) => OnRename(w, d, id, name)
    case ForgetCommand => d.(book := Apply(d.book, w.env, id, ForgetPeer))
    case TrustCommand(trusted) => d.(book := Apply(d.book, w.env, id, Trust(trusted)))
    case InviteSeeded(addresses) => d.(book := Apply(d.book, w.env, id, Invite(addresses)))
    case RendezvousFound(hints) => d.(book := Apply(d.book, w.env, id, Rendezvous(hints)))
  }

  /** A tick arrives only if one was scheduled, and a command finishes only what was begun. */
  predicate Possible(d: Daemon, id: string, e: Event) {
    && (e.Tick? ==> id in d.ticks)
    && (e.Finish? ==> (id, e.token) in d.finishing)
  }

  type Happening = (string, Event)

  ghost predicate Happens(w: World, d: Daemon, es: seq<Happening>)
    decreases |es|
  {
    es == [] || (Possible(d, es[0].0, es[0].1) && Happens(w, Step(w, d, es[0].0, es[0].1), es[1..]))
  }

  function Run(w: World, d: Daemon, es: seq<Happening>): Daemon
    decreases |es|
  {
    if es == [] then d else Run(w, Step(w, d, es[0].0, es[0].1), es[1..])
  }

  // --- the address book under events -----------------------------------------------------------

  /** Every event acts on the address book as at most one of its operations. */
  function BookOperation(w: World, d: Daemon, id: string, e: Event): Option<Operation> {
    match e
    case Established(address, dialer) =>
      if !SurfacesOnConnect(d, id) then None
      else
        var at := if dialer then address else "";
        Some(Update(Some(at), Some(ThePeer(GetOrInsert(w, d.peers, id, at), id).name), true, false))
    case Closed(remaining) => Some(Connection(remaining > 0))
    case Identified(_, agent) =>
      if SurfacesApproved(d, id)
      then Some(Update(None, Some(if agent == "" then w.env.defaultName(id) else agent), true, false)) else None
    case HelloReceived(hello) =>
      if IsConnected(d, id) || Whitelisted(d.book.known, id) then Some(HelloUpdate(w, d, id, hello)) else None
    case HelloAcked(hello) => Some(HelloUpdate(w, d, id, hello))
    case Approve(_) => if id in d.channels then Some(HelloUpdate(w, d, id, d.channels[id])) else None
    case Finish(token) => if token.Whitelisting? then Some(Whitelist) else None
    case SaveCommand => Some(SavePeer(LiveOf(d, id)))
    case RenameCommand(name) => Some(RenamePeer(name, InPeers(d.peers, id)))
    case ForgetCommand => Some(ForgetPeer)
    case TrustCommand(trusted) => Some(Trust(trusted))
    case InviteSeeded(addresses) => Some(Invite(addresses))
    case RendezvousFound(hints) => Some(Rendezvous(hints))
    case _ => None
  }

  function HelloUpdate(w: World, d: Daemon, id: string, hello: Hello): Operation {
    var peers := if InPeers(d.peers, id) then d.peers else GetOrInsert(w, d.peers, id, UNKNOWN_ADDRESS);
    Update(Some(ThePeer(peers, id).address), Some(hello.name), true, true)
  }

  lemma HelloUpdates(w: World, d: Daemon, id: string, hello: Hello)
    ensures ApplyHello(w, d, id, hello).book == Apply(d.book, w.env, id, HelloUpdate(w, d, id, hello))
    ensures ApplyApproved(w, d, id, hello).book == ApplyHello(w, d, id, hello).book
    ensures StartFlow(ApplyHello(w, d, id, hello), id).book == ApplyHello(w, d, id, hello).book
  {
  }

  /** The event acts on the address book as its operation, if it has one, and not otherwise. */
  predicate ActsOnBook(w: World, d: Daemon, id: string, op: Option<Operation>, after: Book) {
    if op.Some? then Fits(op.value, id) && after == Apply(d.book, w.env, id, op.value) else after == d.book
  }

  lemma BookAfterStep(w: World, d: Daemon, id: string, e: Event)
    ensures ActsOnBook(w, d, id, BookOperation(w, d, id, e), Step(w, d, id, e).book)
  {
    if e.HelloReceived? {
      BookAfterHello(w, d, id, e.hello);
    } else if e.HelloAcked? {
      BookAfterAck(w, d, id, e.ack);
    } else if e.Approve? {
      BookAfterApproval(w, d, id, e.whitelist);
    } else if IsLocalCommand(e) {
      CommandBookAfterStep(w, d, id, e);
    } else if e.Established? || e.Closed? || e.Identified? {
      ConnectionBookAfterStep(w, d, id, e);
    } else {
      EventBookAfterStep(w, d, id, e);
    }
  }

  lemma BookAfterHello(w: World, d: Daemon, id: string, hello: Hello)
    ensures ActsOnBook(w, d, id, BookOperation(w, d, id, HelloReceived(hello)),
                       Step(w, d, id, HelloReceived(hello)).book)
  {
    HelloUpdates(w, d.(offers := d.offers[id := hello.trusted]), id, hello);
  }

  lemma BookAfterAck(w: World, d: Daemon, id: string, hello: Hello)
    ensures ActsOnBook(w, d, id, BookOperation(w, d, id, HelloAcked(hello)), Step(w, d, id, HelloAcked(hello)).book)
  {
    HelloUpdates(w, d.(offers := d.offers[id := hello.trusted]), id, hello);
  }

  lemma BookAfterApproval(w: World, d: Daemon, id: string, whitelist: bool)
    ensures ActsOnBook(w, d, id, BookOperation(w, d, id, Approve(whitelist)),
                       Step(w, d, id, Approve(whitelist)).book)
  {
    if id in d.channels {
      HelloUpdates(w, d.(channels := d.channels - {id}), id, d.channels[id]);
    }
  }

  predicate IsLocalCommand(e: Event) {
    e.SaveCommand? || e.RenameCommand? || e.ForgetCommand? || e.TrustCommand? || e.InviteSeeded? || e.RendezvousFound?
  }

  lemma ConnectionBookAfterStep(w: World, d: Daemon, id: string, e: Event)
    requires e.Established? || e.Closed? || e.Identified?
    ensures ActsOnBook(w, d, id, BookOperation(w, d, id, e), Step(w, d, id, e).book)
  {
  }

  lemma EventBookAfterStep(w: World, d: Daemon, id: string, e: Event)
    requires !(e.HelloReceived? || e.HelloAcked? || e.Approve? || IsLocalCommand(e))
    requires !(e.Established? || e.Closed? || e.Identified?)
    ensures ActsOnBook(w, d, id, BookOperation(w, d, id, e), Step(w, d, id, e).book)
  {
  }

  lemma CommandBookAfterStep(w: World, d: Daemon, id: string, e: Event)
    requires IsLocalCommand(e)
    ensures ActsOnBook(w, d, id, BookOperation(w, d, id, e), Step(w, d, id, e).book)
  {
  }

  predicate EditsFriends(e: Event) { e.SaveCommand? || e.RenameCommand? || e.ForgetCommand? }

  /** `after` is what one event about `id` may make of the address book. */
  ghost predicate BookKept(b: Book, after: Book, id: string, e: Event) {
    && Tidy(after)
    && (forall x :: Grows(b, after, x))
    && (forall x :: x != id || !EditsFriends(e) ==> (Pinned(after.known, x) <==> Pinned(b.known, x)))
  }

  lemma KeptByEvent(w: World, d: Daemon, id: string, e: Event, after: Book)
    requires Tidy(d.book) && ActsOnBook(w, d, id, BookOperation(w, d, id, e), after)
    ensures BookKept(d.book, after, id, e)
  {
    var op := BookOperation(w, d, id, e);
    if op.Some? {
      OperationKeeps(d.book, w.env, id, op.value);
      FriendEdits(w, d, id, e);
    }
  }

  lemma FriendEdits(w: World, d: Daemon, id: string, e: Event)
    ensures var op := BookOperation(w, d, id, e);
            op.Some? && ChangesFriends(op.value) ==> EditsFriends(e)
  {
  }

  lemma StepKeepsBook(w: World, d: Daemon, id: string, e: Event)
    requires Tidy(d.book)
    ensures BookKept(d.book, Step(w, d, id, e).book, id, e)
  {
    BookAfterStep(w, d, id, e);
    KeptByEvent(w, d, id, e, Step(w, d, id, e).book);
  }
}
