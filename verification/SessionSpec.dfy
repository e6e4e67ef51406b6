/** What each handler of the daemon does, said of the first list entry and the first record of the peer it
    is about, and of the flows, queues and offers beside them. */
module SessionSpec {
  import opened Core
  import opened Contacts
  import opened Session
  import Routing

  /** The first entry of a peer, if it is listed. */
  function Entry(peers: seq<Peer>, id: string): Option<Peer> {
    if peers == [] then None else if peers[0].id == id then Some(peers[0]) else Entry(peers[1..], id)
  }

  predicate OnePerId(peers: seq<Peer>) {
    forall i, k :: 0 <= i < k < |peers| ==> peers[i].id != peers[k].id
  }

  lemma {:induction false} EntryMeaning(peers: seq<Peer>, id: string)
    ensures Entry(peers, id).Some? <==> InPeers(peers, id)
    ensures InPeers(peers, id) ==> Entry(peers, id) == Some(peers[FindPeer(peers, id)])
  {
    if peers != [] && peers[0].id != id {
      EntryMeaning(peers[1..], id);
      PeerFirst(peers, id, 1 + FindPeer(peers[1..], id));
    }
  }

  /** The peer's entry is `p`, in its place or at the end; all other entries are as they were. */
  predicate Lists(before: seq<Peer>, after: seq<Peer>, p: Peer) {
    && Entry(after, p.id) == Some(p)
    && |after| == |before| + (if Entry(before, p.id).Some? then 0 else 1)
    && forall i :: 0 <= i < |before| && before[i].id != p.id ==> after[i] == before[i]
  }

  lemma SetListing(peers: seq<Peer>, p: Peer)
    requires InPeers(peers, p.id)
    ensures Lists(peers, SetPeer(peers, p), p)
  {
    var i := FindPeer(peers, p.id);
    PeerFirst(SetPeer(peers, p), p.id, i);
    EntryMeaning(SetPeer(peers, p), p.id);
    EntryMeaning(peers, p.id);
  }

  /** Inserting and then setting an entry. */
  lemma InsertListing(w: World, peers: seq<Peer>, id: string, address: string, p: Peer)
    requires p.id == id
    ensures Lists(peers, SetPeer(GetOrInsert(w, peers, id, address), p), p)
    ensures var q := ThePeer(GetOrInsert(w, peers, id, address), id);
            q == if Entry(peers, id).Some? then Entry(peers, id).value.(address := address)
                 else Peer(id, w.numbered(|peers| + 1), address, Connecting, NoSession)
  {
    var r := GetOrInsert(w, peers, id, address);
    PeerFirst(r, id, FindPeer(peers, id));
    EntryMeaning(peers, id);
    SetListing(r, p);
    EntryMeaning(r, id);
  }

  // --- connections -----------------------------------------------------------------------------

  /** A connection shows up in the list if it was dialed, or the peer is listed, known or waiting: with the
      dialed address or none, and a handshake begun unless there is a session. */
  lemma ConnectionIsListed(w: World, d: Daemon, id: string, address: string, dialer: bool)
    ensures var a := Step(w, d, id, Established(address, dialer));
            var shown := id in d.dials || Entry(d.peers, id).Some? || Lookup(d.book.known, id).Some? || id in d.queued;
            && a == d.(dials := d.dials - {id}, peers := a.peers, book := a.book)
            && (!shown ==> a.peers == d.peers && a.book == d.book)
            && (shown ==>
                  var at := if dialer then address else "";
                  var was := Entry(d.peers, id);
                  var name := if was.Some? then was.value.name else w.numbered(|d.peers| + 1);
                  var session := if was.Some? && !was.value.session.NoSession? then was.value.session else Handshaking;
                  && Lists(d.peers, a.peers, Peer(id, name, at, Connected, session))
                  && a.book == UpdateKnown(d.book, w.env, id, Some(at), Some(name), true, false))
  {
    EntryMeaning(d.peers, id);
    var at := if dialer then address else "";
    var p := ThePeer(GetOrInsert(w, d.peers, id, at), id);
    InsertListing(w, d.peers, id, at,
                  p.(transport := Connected, session := if p.session.NoSession? then Handshaking else p.session));
  }

  /** A closed connection ends the media flow at once.  The last one takes the offers along, and drops the
      entry of a peer without session that is neither known nor waiting. */
  lemma CloseEndsTheFlow(w: World, d: Daemon, id: string, remaining: nat)
    ensures var a := Step(w, d, id, Closed(remaining));
            && id !in a.active && a.active == d.active - {id}
            && (if remaining == 0 then a.offers == d.offers - {id} else a.offers == d.offers)
            && a == d.(peers := a.peers, book := a.book, active := a.active, offers := a.offers)
            && a.book == SetConnected(d.book, id, remaining > 0)
            && match Entry(d.peers, id)
               case None => a.peers == d.peers
               case Some(p) =>
                 if remaining == 0 && p.session.NoSession? && Lookup(d.book.known, id).None? && id !in d.queued
                 then (OnePerId(d.peers) ==> Entry(a.peers, id).None?) && |a.peers| == |d.peers| - 1
                 else Lists(d.peers, a.peers, p.(transport := if remaining == 0 then Disconnected else Connected))
  {
    EntryMeaning(d.peers, id);
    if InPeers(d.peers, id) {
      var p := ThePeer(d.peers, id);
      SetListing(d.peers, p.(transport := if remaining == 0 then Disconnected else Connected));
      DroppedIsGone(d.peers, id);
    }
  }

  lemma DroppedIsGone(peers: seq<Peer>, id: string)
    requires InPeers(peers, id)
    ensures OnePerId(peers) ==> Entry(DropPeer(peers, id), id).None?
  {
    if OnePerId(peers) {
      var r := DropPeer(peers, id);
      EntryMeaning(r, id);
      PeerFirst(r, id, |r|);
    }
  }

  /** An identified peer that is listed or known gets its address, name and connection. */
  lemma IdentityIsRecorded(w: World, d: Daemon, id: string, remote: string, agent: string)
    ensures var a := Step(w, d, id, Identified(remote, agent));
            var was := Entry(d.peers, id);
            if was.None? && Lookup(d.book.known, id).None? then a == d
            else
              var name := if agent == "" then w.env.defaultName(id) else agent;
              var session := if was.Some? then was.value.session else NoSession;
              && a == d.(peers := a.peers, book := a.book)
              && Lists(d.peers, a.peers, Peer(id, name, remote, Connected, session))
              && a.book == UpdateKnown(d.book, w.env, id, None, Some(name), true, false)
  {
    EntryMeaning(d.peers, id);
    var name := if agent == "" then w.env.defaultName(id) else agent;
    var p := ThePeer(GetOrInsert(w, d.peers, id, remote), id);
    InsertListing(w, d.peers, id, remote, p.(name := name, transport := Connected));
  }

  lemma PingMarksConnected(w: World, d: Daemon, id: string)
    ensures var a := Step(w, d, id, Pinged);
            match Entry(d.peers, id)
            case None => a == d
            case Some(p) => a == d.(peers := a.peers) && Lists(d.peers, a.peers, p.(transport := Connected))
  {
    EntryMeaning(d.peers, id);
    if InPeers(d.peers, id) { SetListing(d.peers, ThePeer(d.peers, id).(transport := Connected)); }
  }

  // --- greetings -------------------------------------------------------------------------------

  /** The greeting is taken: the peer has a session under its name and room, and is known and seen; its
      flow is active, and has one tick more if it was not. */
  predicate Admitted(w: World, d: Daemon, a: Daemon, id: string, hello: Hello) {
    var was := Entry(d.peers, id);
    var address := if was.Some? then was.value.address else "<unknown>";
    && Lists(d.peers, a.peers, Peer(id, hello.name, address, Connected, Active(hello.room, hello.name)))
    && a.book == UpdateKnown(d.book, w.env, id, Some(address), Some(hello.name), true, true)
    && a.active == d.active + {id}
    && a.ticks == (if id in d.active then d.ticks else d.ticks + multiset{id})
    && a.dials == d.dials
  }

  lemma AppliedHello(w: World, d: Daemon, id: string, hello: Hello)
    ensures var a := ApplyHello(w, d, id, hello);
            var was := Entry(d.peers, id);
            var address := if was.Some? then was.value.address else "<unknown>";
            && a == d.(peers := a.peers, book := a.book)
            && Lists(d.peers, a.peers, Peer(id, hello.name, address, Connected, Active(hello.room, hello.name)))
            && a.book == UpdateKnown(d.book, w.env, id, Some(address), Some(hello.name), true, true)
  {
    EntryMeaning(d.peers, id);
    var address := if InPeers(d.peers, id) then ThePeer(d.peers, id).address else UNKNOWN_ADDRESS;
    var up := Peer(id, hello.name, address, Connected, Active(hello.room, hello.name));
    if InPeers(d.peers, id) { SetListing(d.peers, up); } else { InsertListing(w, d.peers, id, UNKNOWN_ADDRESS, up); }
  }

  predicate SomeEntryConnected(peers: seq<Peer>, id: string) {
    exists i :: 0 <= i < |peers| && peers[i].id == id && peers[i].transport.Connected?
  }

  /** The list shows a connection, or the record is whitelisted. */
  predicate Recognized(d: Daemon, id: string) {
    || SomeEntryConnected(d.peers, id)
    || (Lookup(d.book.known, id).Some? && Lookup(d.book.known, id).value.whitelisted)
  }

  /** A recognized peer's greeting is taken: its offers are kept, and it leaves the queue if its flow begins
      now. */
  lemma GreetingIsTaken(w: World, d: Daemon, id: string, hello: Hello)
    requires Recognized(d, id)
    ensures var a := Step(w, d, id, HelloReceived(hello));
            && Admitted(w, d, a, id, hello)
            && a.offers == d.offers[id := hello.trusted]
            && (forall x :: x in a.queued <==> x in d.queued && (x != id || id in d.active))
            && a.channels == d.channels && a.finishing == d.finishing
  {
    var e := d.(offers := d.offers[id := hello.trusted]);
    assert Step(w, d, id, HelloReceived(hello)) == ApplyApproved(w, e, id, hello);
    TakenFields(w, e, id, hello);
  }

  lemma TakenFields(w: World, d: Daemon, id: string, hello: Hello)
    ensures var a := ApplyApproved(w, d, id, hello);
            && Admitted(w, d, a, id, hello)
            && (forall x :: x in a.queued <==> x in d.queued && (x != id || id in d.active))
            && a.offers == d.offers && a.channels == d.channels && a.finishing == d.finishing
  {
    AppliedHello(w, d, id, hello);
  }

  /** Anybody else's is held back for approval, in place of an earlier one, and nothing else changes. */
  lemma GreetingIsHeldBack(w: World, d: Daemon, id: string, hello: Hello)
    requires !Recognized(d, id)
    ensures Step(w, d, id, HelloReceived(hello)) ==
            d.(channels := d.channels[id := hello], queued := if id in d.queued then d.queued else d.queued + [id])
  {
  }

  lemma AnsweredFields(w: World, d: Daemon, id: string, hello: Hello)
    ensures var a := StartFlow(ApplyHello(w, d, id, hello), id);
            && Admitted(w, d, a, id, hello) && a.queued == d.queued
            && a.offers == d.offers && a.channels == d.channels && a.finishing == d.finishing
  {
    AppliedHello(w, d, id, hello);
  }

  /** An answer to a greeting of ours is always taken, and its offers are kept; the queue is not looked at. */
  lemma AnswerIsTaken(w: World, d: Daemon, id: string, hello: Hello)
    ensures var a := Step(w, d, id, HelloAcked(hello));
            && Admitted(w, d, a, id, hello)
            && a.offers == d.offers[id := hello.trusted]
            && a.queued == d.queued && a.channels == d.channels && a.finishing == d.finishing
  {
    var e := d.(offers := d.offers[id := hello.trusted]);
    assert Step(w, d, id, HelloAcked(hello)) == StartFlow(ApplyHello(w, e, id, hello), id);
    AnsweredFields(w, e, id, hello);
  }

  /** Approval takes the greeting held back, once.  Its offers are not kept: until the peer greets again it
      is no relay. */
  lemma ApprovalTakesTheGreeting(w: World, d: Daemon, id: string, whitelist: bool)
    ensures var a := Step(w, d, id, Approve(whitelist));
            if id !in d.channels then a == d
            else
              && Admitted(w, d, a, id, d.channels[id])
              && a.offers == d.offers
              && a.channels == d.channels - {id}
              && (forall x :: x in a.queued <==> x in d.queued && (x != id || id in d.active))
              && a.finishing == d.finishing + multiset{(id, if whitelist then Whitelisting else Admitting)}
  {
    if id in d.channels {
      var e := d.(channels := d.channels - {id});
      var t := ApplyApproved(w, e, id, d.channels[id]);
      TakenFields(w, e, id, d.channels[id]);
      var token := (id, if whitelist then Whitelisting else Admitting);
      assert Step(w, d, id, Approve(whitelist)) == t.(finishing := t.finishing + multiset{token});
    }
  }

  /** Rejection forgets the greeting held back and takes the peer off the queue; it admits nobody. */
  lemma RejectionForgetsTheGreeting(w: World, d: Daemon, id: string)
    ensures var a := Step(w, d, id, Reject);
            if id !in d.channels then a == d
            else
              && a == d.(channels := d.channels - {id}, queued := a.queued,
                         finishing := d.finishing + multiset{(id, Rejecting)})
              && (forall x :: x in a.queued <==> x in d.queued && x != id)
  {
  }

  lemma CompletionWhitelists(w: World, d: Daemon, id: string, token: Token)
    ensures var a := Step(w, d, id, Finish(token));
            && a == d.(finishing := d.finishing - multiset{(id, token)}, queued := a.queued, book := a.book)
            && (forall x :: x in a.queued <==> x in d.queued && x != id)
            && a.book == if token.Whitelisting? then SetWhitelisted(d.book, id) else d.book
  {
  }

  // --- commands --------------------------------------------------------------------------------

  /** Saving copies what the list shows of the peer. */
  lemma SavingCopiesTheEntry(w: World, d: Daemon, id: string)
    ensures var live := match Entry(d.peers, id)
                        case None => None
                        case Some(p) =>
                          Some(LivePeer(id, p.name, p.address, p.transport.Connected?, p.session.Active?));
            Step(w, d, id, SaveCommand) == d.(book := Save(d.book, id, live).0)
  {
    EntryMeaning(d.peers, id);
  }

  /** Renaming reaches the list and the book. */
  lemma RenamingReachesBoth(w: World, d: Daemon, id: string, name: string)
    ensures var a := Step(w, d, id, RenameCommand(name));
            var was := Entry(d.peers, id);
            && a == d.(book := Rename(d.book, id, name, was.Some?).0, peers := a.peers)
            && if was.Some? then Lists(d.peers, a.peers, was.value.(name := name)) else a.peers == d.peers
  {
    EntryMeaning(d.peers, id);
    if InPeers(d.peers, id) { SetListing(d.peers, ThePeer(d.peers, id).(name := name)); }
  }

  /** The other commands reach the book only, and a dial only the dials under way. */
  lemma CommandsReachTheBook(w: World, d: Daemon, id: string, e: Event)
    requires e.ForgetCommand? || e.TrustCommand? || e.InviteSeeded? || e.RendezvousFound? || e.DialStarted?
    ensures var a := Step(w, d, id, e);
            match e
            case ForgetCommand => a == d.(book := Apply(d.book, w.env, id, ForgetPeer))
            case TrustCommand(trusted) => a == d.(book := Apply(d.book, w.env, id, Trust(trusted)))
            case InviteSeeded(addresses) => a == d.(book := Apply(d.book, w.env, id, Invite(addresses)))
            case RendezvousFound(addresses) => a == d.(book := Apply(d.book, w.env, id, Rendezvous(addresses)))
            case _ => a == d.(dials := d.dials + {id})
  {
  }

  // --- ticks -----------------------------------------------------------------------------------

  /** With what the daemon knows now, a frame for the peer finds a way: a link to it, or a trusted,
      connected contact that offers it. */
  ghost predicate Routed(w: World, d: Daemon, id: string, scores: seq<PathScore>) {
    Routing.HasRoute(d.book.known, scores, d.offers, w.isPeerId, id)
  }

  /** A tick of an active flow comes again if there is a route, and ends the flow if there is none; a tick
      without a flow is spent. */
  lemma TickGoesOnWithARoute(w: World, d: Daemon, id: string, scores: seq<PathScore>)
    requires id in d.ticks
    ensures var a := Step(w, d, id, Tick(scores));
            if id in d.active && Routed(w, d, id, scores) then a == d
            else a == d.(active := d.active - {id}, ticks := d.ticks - multiset{id})
  {
    Routing.RouteExists(d.book.known, scores, d.offers, w.isPeerId, id);
    assert d.ticks - multiset{id} + multiset{id} == d.ticks;
    if id !in d.active { assert d.active - {id} == d.active; }
  }
}
