/** A network of daemons relaying voice frames for each other (crates/voicersd/src/network.rs and
    network/swarm_events.rs).  Every node follows the code; what it knows, trusts, has been offered and
    is connected to changes at will between any two steps. */
module Relay {
  import opened Core
  import opened Routing

  datatype Node = Node(known: seq<Known>, scores: seq<PathScore>, offers: Offers, links: set<string>)

  datatype FrameId = FrameId(origin: string, destination: string, number: nat)

  /** A media request under way to `to`: a plain frame, or one to be passed on to `destination`.
      `hops` counts the transmissions so far; no node looks at it. */
  datatype Message = Message(to: string, relayed: bool, destination: string, frame: FrameId, hops: nat)

  datatype Net = Net(
    nodes: map<string, Node>,
    flight: multiset<Message>,
    delivered: multiset<(string, FrameId)>,
    next: nat)

  datatype Action =
    | Send(origin: string, target: string)
    | Receive(message: Message)
    | Lose(lost: Message)
    | Reconfigure(who: string, node: Node)

  ghost predicate Enabled(n: Net, a: Action) {
    match a
    case Send(origin, _) => origin in n.nodes
    case Receive(m) => m in n.flight && m.to in n.nodes
    case Lose(m) => m in n.flight
    case Reconfigure(_, node) => UniqueIds(node.known)
  }

  /** One media tick towards `target`. */
  function Transmit(n: Net, isPeerId: string -> bool, origin: string, target: string): Net
    requires origin in n.nodes
  {
    var o := n.nodes[origin];
    var id := FrameId(origin, target, n.next);
    match ResolveRoute(o.known, o.scores, o.offers, isPeerId, target)
    case Direct => n.(flight := n.flight + multiset{Message(target, false, target, id, 1)}, next := n.next + 1)
    case Relayed(via, destination) =>
      if destination == origin then n
      else n.(flight := n.flight + multiset{Message(via, true, destination, id, 1)}, next := n.next + 1)
    case Unreachable => n
  }

  predicate Trusts(node: Node, id: string) {
    exists i :: 0 <= i < |node.known| && node.known[i].id == id && node.known[i].trusted
  }

  predicate Forwards(node: Node, isPeerId: string -> bool, m: Message) {
    isPeerId(m.destination) && m.destination in node.links && Trusts(node, m.destination)
  }

  /** What the node a message reaches does with it. */
  function Handle(n: Net, isPeerId: string -> bool, m: Message): Net
    requires m in n.flight && m.to in n.nodes
  {
    var rest := n.(flight := n.flight - multiset{m});
    if !m.relayed || m.destination == m.to then
      rest.(delivered := rest.delivered + multiset{(m.to, m.frame)})
    else if Forwards(n.nodes[m.to], isPeerId, m) then
      rest.(flight := rest.flight + multiset{Message(m.destination, true, m.destination, m.frame, m.hops + 1)})
    else rest
  }

  function Apply(n: Net, isPeerId: string -> bool, a: Action): Net
    requires Enabled(n, a)
  {
    match a
    case Send(origin, target) => Transmit(n, isPeerId, origin, target)
    case Receive(m) => Handle(n, isPeerId, m)
    case Lose(m) => n.(flight := n.flight - multiset{m})
    case Reconfigure(who, node) => n.(nodes := n.nodes[who := node])
  }

  // --- what the two steps do -----------------------------------------------------------------

  predicate Launched(n: Net, after: Net, m: Message) {
    after == n.(flight := n.flight + multiset{m}, next := n.next + 1)
  }

  /** A frame for a connected peer is sent to it as it is; one that needs a relay goes to the foremost contact
      that offers the target, marked for the target; one without a way is not sent, nor is one for oneself by
      way of a relay. */
  lemma SendingMeaning(n: Net, isPeerId: string -> bool, origin: string, target: string)
    requires origin in n.nodes
    ensures var o := n.nodes[origin];
            var after := Apply(n, isPeerId, Send(origin, target));
            var frame := FrameId(origin, target, n.next);
            var direct := Linked(o.known, target) && isPeerId(target);
            var readable := (via: string) => isPeerId(via) && isPeerId(target);
            && (direct ==> Launched(n, after, Message(target, false, target, frame, 1)))
            && (forall via :: !direct && Foremost(o.known, o.scores, o.offers, target, via) && readable(via) ==>
                  if target == origin then after == n
                  else Launched(n, after, Message(via, true, target, frame, 1)))
            && (!direct && (forall via :: Foremost(o.known, o.scores, o.offers, target, via) ==> !readable(via)) ==>
                  after == n)
  {
    var o := n.nodes[origin];
    var r := ResolveRoute(o.known, o.scores, o.offers, isPeerId, target);
    RouteMeetsSpec(o.known, o.scores, o.offers, isPeerId, target);
    forall via | Foremost(o.known, o.scores, o.offers, target, via) && isPeerId(via) && isPeerId(target)
      ensures RouteSpec(o.known, o.scores, o.offers, isPeerId, target, r) && !r.Direct? ==> r == Relayed(via, target)
    {
      if !r.Direct? {
        RouteIsDetermined(o.known, o.scores, o.offers, isPeerId, target, Relayed(via, target));
      }
    }
  }

  /** A frame that has come to its destination, or that is plain, is delivered; any other is passed on to its
      destination if that is readable, linked and trusted, and is lost if not. */
  lemma ReceivingMeaning(n: Net, isPeerId: string -> bool, m: Message)
    requires m in n.flight && m.to in n.nodes
    ensures var node := n.nodes[m.to];
            var after := Apply(n, isPeerId, Receive(m));
            var arrived := !m.relayed || m.destination == m.to;
            var trusted := exists k :: k in node.known && k.id == m.destination && k.trusted;
            var passed := !arrived && isPeerId(m.destination) && m.destination in node.links && trusted;
            && after == n.(flight := after.flight, delivered := after.delivered)
            && after.delivered == n.delivered + (if arrived then multiset{(m.to, m.frame)} else multiset{})
            && after.flight == n.flight - multiset{m}
                 + (if passed then multiset{Message(m.destination, true, m.destination, m.frame, m.hops + 1)}
                    else multiset{})
  {
    TrustMeaning(n.nodes[m.to], m.destination);
  }

  lemma TrustMeaning(node: Node, id: string)
    ensures Trusts(node, id) <==> exists k :: k in node.known && k.id == id && k.trusted
  {
    if k :| k in node.known && k.id == id && k.trusted {
      var i :| 0 <= i < |node.known| && node.known[i] == k;
      assert Trusts(node, id);
    }
  }

  // --- the invariant -------------------------------------------------------------------------

  /** A message under way: straight to its destination on the last hop, through somebody else before. */
  predicate WellRouted(m: Message, next: nat) {
    && m.destination == m.frame.destination
    && m.frame.number < next
    && (m.hops == 1 || (m.hops == 2 && m.relayed && m.to == m.destination))
    && (!m.relayed ==> m.to == m.destination)
    && (m.relayed && m.hops == 1 ==> m.to != m.destination)
  }

  ghost predicate Orderly(n: Net) {
    && (forall p :: p in n.nodes ==> UniqueIds(n.nodes[p].known))
    && (forall m :: m in n.flight ==> WellRouted(m, n.next) && n.flight[m] == 1)
    && (forall m1, m2 :: m1 in n.flight && m2 in n.flight && m1.frame == m2.frame ==> m1 == m2)
    && (forall d :: d in n.delivered ==> d.0 == d.1.destination && d.1.number < n.next && n.delivered[d] == 1)
    && (forall m, d :: m in n.flight && d in n.delivered ==> m.frame != d.1)
  }

  /** The first message of a frame, unless it stays at home. */
  function FirstHop(origin: string, target: string, number: nat, r: Routing.Route): Message
    requires !r.Unreachable?
  {
    var id := FrameId(origin, target, number);
    if r.Direct? then Message(target, false, target, id, 1) else Message(r.via, true, r.destination, id, 1)
  }

  lemma FirstHopIsWellRouted(o: Node, isPeerId: string -> bool, origin: string, target: string, number: nat)
    requires UniqueIds(o.known)
    ensures var r := ResolveRoute(o.known, o.scores, o.offers, isPeerId, target);
            !r.Unreachable? ==> WellRouted(FirstHop(origin, target, number, r), number + 1)
  {
    ViaIsNotTheDestination(o.known, o.scores, o.offers, isPeerId, target);
    RelayIsTheBest(o.known, o.scores, o.offers, isPeerId, target);
  }

  lemma TransmitIsOrderly(n: Net, isPeerId: string -> bool, origin: string, target: string)
    requires Orderly(n) && origin in n.nodes
    ensures Orderly(Transmit(n, isPeerId, origin, target))
  {
    var o := n.nodes[origin];
    FirstHopIsWellRouted(o, isPeerId, origin, target, n.next);
    var r := ResolveRoute(o.known, o.scores, o.offers, isPeerId, target);
    if !r.Unreachable? && Transmit(n, isPeerId, origin, target) != n {
      LaunchIsOrderly(n, FirstHop(origin, target, n.next, r));
    }
  }

  lemma LaunchIsOrderly(n: Net, m: Message)
    requires Orderly(n) && WellRouted(m, n.next + 1) && m.frame.number == n.next
    ensures Orderly(n.(flight := n.flight + multiset{m}, next := n.next + 1))
  {
    assert m !in n.flight;
  }

  lemma RemovalIsOrderly(n: Net, m: Message)
    requires Orderly(n) && m in n.flight
    ensures var rest := n.(flight := n.flight - multiset{m});
            && Orderly(rest)
            && (forall r :: r in rest.flight ==> r.frame != m.frame)
  {
  }

  lemma HandleIsOrderly(n: Net, isPeerId: string -> bool, m: Message)
    requires Orderly(n) && m in n.flight && m.to in n.nodes
    ensures Orderly(Handle(n, isPeerId, m))
  {
    RemovalIsOrderly(n, m);
    var rest := n.(flight := n.flight - multiset{m});
    if !m.relayed || m.destination == m.to {
      DeliveryIsOrderly(rest, m);
    } else if Forwards(n.nodes[m.to], isPeerId, m) {
      ForwardIsOrderly(rest, Message(m.destination, true, m.destination, m.frame, m.hops + 1));
    }
  }

  lemma DeliveryIsOrderly(rest: Net, m: Message)
    requires Orderly(rest) && WellRouted(m, rest.next) && m.to == m.destination
    requires forall r :: r in rest.flight ==> r.frame != m.frame
    requires forall d :: d in rest.delivered ==> d.1 != m.frame
    ensures Orderly(rest.(delivered := rest.delivered + multiset{(m.to, m.frame)}))
  {
    assert (m.to, m.frame) !in rest.delivered;
  }

  lemma ForwardIsOrderly(rest: Net, m: Message)
    requires Orderly(rest) && WellRouted(m, rest.next)
    requires forall r :: r in rest.flight ==> r.frame != m.frame
    requires forall d :: d in rest.delivered ==> d.1 != m.frame
    ensures Orderly(rest.(flight := rest.flight + multiset{m}))
  {
    assert m !in rest.flight;
  }

  lemma StepIsOrderly(n: Net, isPeerId: string -> bool, a: Action)
    requires Orderly(n) && Enabled(n, a)
    ensures Orderly(Apply(n, isPeerId, a))
  {
    match a
    case Send(origin, target) => TransmitIsOrderly(n, isPeerId, origin, target);
    case Receive(m) => HandleIsOrderly(n, isPeerId, m);
    case Lose(m) => RemovalIsOrderly(n, m);
    case Reconfigure(_, _) =>
  }

  // --- whole runs ----------------------------------------------------------------------------

  /** `trace` is a run of the network under `actions`. */
  ghost predicate IsRun(trace: seq<Net>, actions: seq<Action>, isPeerId: string -> bool) {
    && |trace| == |actions| + 1
    && trace[0].flight == multiset{} && trace[0].delivered == multiset{}
    && (forall p :: p in trace[0].nodes ==> UniqueIds(trace[0].nodes[p].known))
    && forall i :: 0 <= i < |actions| ==>
         Enabled(trace[i], actions[i]) && trace[i + 1] == Apply(trace[i], isPeerId, actions[i])
  }

  lemma {:induction false} RunIsOrderly(trace: seq<Net>, actions: seq<Action>, isPeerId: string -> bool, i: nat)
    requires IsRun(trace, actions, isPeerId) && i < |trace|
    ensures Orderly(trace[i])
  {
    if i > 0 {
      RunIsOrderly(trace, actions, isPeerId, i - 1);
      StepIsOrderly(trace[i - 1], isPeerId, actions[i - 1]);
    }
  }

  /** At every moment of every run no frame has made more than two hops, a frame that was forwarded is
      on its way to its destination, a frame is delivered at most once and nowhere else, and no frame
      is both delivered and still under way: there are no loops and no copies. */
  lemma RelayingTakesAtMostTwoHops(trace: seq<Net>, actions: seq<Action>, isPeerId: string -> bool, i: nat)
    requires IsRun(trace, actions, isPeerId) && i < |trace|
    ensures var n := trace[i];
            && (forall m :: m in n.flight ==> m.hops <= 2 && (m.hops == 2 ==> m.to == m.frame.destination))
            && (forall p: string, f: FrameId ::
                  n.delivered[(p, f)] <= (if p == f.destination then 1 else 0))
            && (forall m1, m2 :: m1 in n.flight && m2 in n.flight && m1.frame == m2.frame ==> m1 == m2)
            && (forall m, d :: m in n.flight && d in n.delivered ==> m.frame != d.1)
  {
    RunIsOrderly(trace, actions, isPeerId, i);
    var n := trace[i];
    forall p: string, f: FrameId ensures n.delivered[(p, f)] <= (if p == f.destination then 1 else 0) {
      if (p, f) in n.delivered { assert n.delivered[(p, f)] == 1; }
    }
  }

  /** And relaying works: a frame sent through a relay that trusts the target and is linked to it
      arrives after two receptions. */
  lemma RelayedFrameArrives(n: Net, isPeerId: string -> bool, origin: string, target: string)
    requires origin in n.nodes && target in n.nodes && target != origin && UniqueIds(n.nodes[origin].known)
    requires var o := n.nodes[origin];
             var r := ResolveRoute(o.known, o.scores, o.offers, isPeerId, target);
             && r.Relayed? && r.via in n.nodes
             && target in n.nodes[r.via].links && Trusts(n.nodes[r.via], target)
    ensures var o := n.nodes[origin];
            var via := ResolveRoute(o.known, o.scores, o.offers, isPeerId, target).via;
            var id := FrameId(origin, target, n.next);
            var m1, m2 := Message(via, true, target, id, 1), Message(target, true, target, id, 2);
            var n1 := Apply(n, isPeerId, Send(origin, target));
            && Enabled(n1, Receive(m1))
            && var n2 := Apply(n1, isPeerId, Receive(m1));
            && Enabled(n2, Receive(m2))
            && var n3 := Apply(n2, isPeerId, Receive(m2));
            && n3.delivered == n.delivered + multiset{(target, id)}
            && n3.flight == n.flight
  {
    var o := n.nodes[origin];
    RelayIsTheBest(o.known, o.scores, o.offers, isPeerId, target);
    ViaIsNotTheDestination(o.known, o.scores, o.offers, isPeerId, target);
  }
}
