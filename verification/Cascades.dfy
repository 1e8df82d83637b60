/** Deliveries on the network itself: every cascade of messages ends, and a publish on a quiet
    bus is delivered as `Delivery` says. */
module Cascades {
  import opened Graphs
  import opened Links
  import opened Results
  import opened Subjects
  import opened Routing
  import opened RoutingInvariant
  import opened Trees
  import opened Quiescence
  import opened Delivery

  ghost function Queued(net: Net): Count {
    c => if c in net.chan then |net.chan[c]| else 0
  }

  /** The work still to be done: every message on its way, times the size of what lies ahead. */
  ghost function Load(net: Net): int {
    Sum(Ends(LiveLinks(net)), Weighed(Queued(net), Size(LiveLinks(net), Nodes(net))))
  }

  /** Where a node sends a message when it handles `m`: never on a connection it has lost. */
  ghost function Replies(r: Router, c: Conn, m: Message): set<Conn> {
    Handle(r, c, m).1.to * r.conns
  }

  /** What the node at `c` sends when it handles the next message on `c`. */
  ghost function Sent(net: Net, c: Conn): set<Conn>
    requires Enabled(net, Receive(c, None))
  {
    if AtRouter(net, c)
    then (set d | d in Replies(net.routers[c.Node()], c, net.chan[c][0]) :: d.Peer())
    else {}
  }

  lemma SentIs(net: Net, c: Conn, x: Conn)
    requires Enabled(net, Receive(c, None)) && AtRouter(net, c)
    ensures x in Sent(net, c) <==> x.Peer() in Replies(net.routers[c.Node()], c, net.chan[c][0])
  {
    assert x.Peer().Peer() == x;
  }

  /** A node answers only on its other connections. */
  lemma SentOnward(net: Net, c: Conn)
    requires Settled(net) && Enabled(net, Receive(c, None))
    ensures AllOnward(LiveLinks(net), c, Sent(net, c)) && Sent(net, c) <= Ends(LiveLinks(net))
  {
    forall x | x in Sent(net, c) ensures Onward(LiveLinks(net), c, x.Peer()) && x in Ends(LiveLinks(net)) {
      SentIs(net, c, x);
      RepliesOnward(net.routers[c.Node()], c, net.chan[c][0]);
      OnwardIsListed(net, c, x.Peer());
      EndsAre(LiveLinks(net), x);
    }
  }

  lemma RepliesOnward(r: Router, c: Conn, m: Message)
    ensures c !in Replies(r, c, m)
  {
    match m
    case Subscription(s, true) =>
    case Subscription(s, false) =>
      assert c !in Unsubscribe(r, c, s).0.Subscribers(s);
    case Publish(_, _) =>
  }

  /** On a settled bus nothing is held, so what arrives is handled. */
  lemma ReceiveIs(net: Net, c: Conn)
    requires Enabled(net, Receive(c, None)) && (AtRouter(net, c) ==> c !in net.routers[c.Node()].held)
    ensures Step(net, Receive(c, None))
            == if AtRouter(net, c) then Process(Pop(net, c), Relay(c), c, net.chan[c][0], None) else Pop(net, c)
  {
  }

  /** On a settled bus a node sends on the connections that it has listed. */
  lemma ResponseListed(net: Net, c: Conn, m: Message)
    requires Shape(net) && AllClosed(net) && AtRouter(net, c) && c.link in net.arrived
    requires c !in net.routers[c.Node()].pending
    ensures Response(net, c, m).1.to == Replies(net.routers[c.Node()], c, m)
  {
    var r := net.routers[c.Node()];
    assert RouterOk(net, c.Node(), r);
    HandleShape(net, c.Node(), r, c, m);
    forall d | d in Handle(r, c, m).1.to ensures Open(net, d) <==> d in r.conns {
      assert d.Node() == c.Node();
    }
  }

  lemma OneBumped(net: Net, c: Conn, x: Conn)
    requires Enabled(net, Receive(c, None)) && x in net.chan
    requires AtRouter(net, c) ==> c !in net.routers[c.Node()].held
    requires var m := net.chan[c][0];
             AtRouter(net, c) ==> Response(Pop(net, c), c, m).1.to == Replies(net.routers[c.Node()], c, m)
    ensures Queued(Step(net, Receive(c, None)))(x)
            == Queued(net)(x) - (if x == c then 1 else 0) + (if x in Sent(net, c) then 1 else 0)
  {
    ReceiveIs(net, c);
    if AtRouter(net, c) {
      SentIs(net, c, x);
    }
  }

  lemma ReceiveListed(net: Net, c: Conn)
    requires Settled(net) && Enabled(net, Receive(c, None)) && AtRouter(net, c)
    ensures var m := net.chan[c][0]; Response(Pop(net, c), c, m).1.to == Replies(net.routers[c.Node()], c, m)
  {
    ListedAtRouter(net, c);
    InvAt(net, c);
    PopShape(net, c);
    ResponseListed(Pop(net, c), c, net.chan[c][0]);
  }

  /** The next message on `c` is taken, and one is queued wherever the node sends one. */
  lemma ReceiveBumps(net: Net, c: Conn)
    requires Settled(net) && Enabled(net, Receive(c, None))
    ensures Bumped(Queued(net), Queued(Step(net, Receive(c, None))), Ends(LiveLinks(net)), c, Sent(net, c))
  {
    if AtRouter(net, c) {
      ReceiveListed(net, c);
    }
    forall x | x in Ends(LiveLinks(net))
      ensures Queued(Step(net, Receive(c, None)))(x)
              == Queued(net)(x) - (if x == c then 1 else 0) + (if x in Sent(net, c) then 1 else 0)
    {
      EndsAre(LiveLinks(net), x);
      LiveEnds(net, x);
      InChan(net, x);
      OneBumped(net, c, x);
    }
  }

  lemma InChan(net: Net, x: Conn)
    requires Shape(net) && Listed(net, x)
    ensures x in net.chan
  {
    ListedMade(net, x);
    assert LinkOk(net, x.link);
  }

  /** Handling a message changes a node's tags for its own connection only. */
  lemma ReceiveRouters(net: Net, c: Conn)
    requires Enabled(net, Receive(c, None)) && (AtRouter(net, c) ==> c !in net.routers[c.Node()].held)
    ensures var net' := Step(net, Receive(c, None));
            && net'.routers.Keys == net.routers.Keys && net'.clients == net.clients
            && net'.clientConns == net.clientConns && net'.made == net.made && net'.lost == net.lost
            && forall n :: n in net.routers ==>
                 var r, r' := net.routers[n], net'.routers[n];
                 r' == r.(tags := r'.tags) && forall t :: t in r'.tags ==> t in r.tags || (t.conn == c && n == c.Node())
  {
    ReceiveIs(net, c);
    if AtRouter(net, c) {
      var r := net.routers[c.Node()];
      var r' := Handle(r, c, net.chan[c][0]).0;
      assert r' == r.(tags := r'.tags);
    }
  }

  lemma SameLinks(net: Net, net': Net)
    requires net'.routers.Keys == net.routers.Keys && net'.clients == net.clients
    requires net'.clientConns == net.clientConns && net'.made == net.made
    requires forall n :: n in net.routers ==> net'.routers[n].conns == net.routers[n].conns
    ensures forall d :: Listed(net', d) <==> Listed(net, d)
    ensures LiveLinks(net') == LiveLinks(net) && Nodes(net') == Nodes(net)
  {
  }

  lemma ReceiveSettled(net: Net, c: Conn)
    requires Settled(net) && Enabled(net, Receive(c, None))
    ensures Settled(Step(net, Receive(c, None))) && LiveLinks(Step(net, Receive(c, None))) == LiveLinks(net)
    ensures Nodes(Step(net, Receive(c, None))) == Nodes(net)
  {
    var net' := Step(net, Receive(c, None));
    ReceiveKeeps(net, c, None);
    if AtRouter(net, c) {
      ListedAtRouter(net, c);
    }
    ReceiveRouters(net, c);
    SameLinks(net, net');
    StaysSettled(net, net');
  }

  lemma StaysSettled(net: Net, net': Net)
    requires Settled(net) && Inv(net') && net'.lost == net.lost && net'.routers.Keys == net.routers.Keys
    requires forall n :: n in net.routers ==>
               net'.routers[n].pending == net.routers[n].pending && net'.routers[n].held == net.routers[n].held
    requires (forall d :: Listed(net', d) <==> Listed(net, d)) && LiveLinks(net') == LiveLinks(net)
    ensures Settled(net')
  {
  }

  /** Every delivery leaves strictly less to do. */
  lemma DeliveryShrinksLoad(net: Net, c: Conn)
    requires Settled(net) && Enabled(net, Receive(c, None))
    ensures Load(Step(net, Receive(c, None))) < Load(net)
  {
    var E, V := LiveLinks(net), Nodes(net);
    ReceiveSettled(net, c);
    ReceiveBumps(net, c);
    SentOnward(net, c);
    LiveEnds(net, c);
    EndsAre(E, c);
    ListedMade(net, c);
    SumBumped(Queued(net), Queued(Step(net, Receive(c, None))), Ends(E), c, Sent(net, c), Size(E, V));
    Trees.Shrinks(E, V, c, Sent(net, c));
  }

  ghost predicate Delivered(net: Net, c: Conn, net': Net) {
    Enabled(net, Receive(c, None)) && net' == Step(net, Receive(c, None))
  }

  /** Some number of messages are delivered, one after another, and nothing else happens. */
  ghost predicate Deliveries(nets: seq<Net>, at: seq<Conn>) {
    && |nets| == |at| + 1
    && forall i :: 0 <= i < |at| ==> Delivered(nets[i], at[i], nets[i + 1])
  }

  lemma DeliveredStep(net: Net, c: Conn, net': Net)
    requires Settled(net) && Delivered(net, c, net')
    ensures Settled(net') && Load(net') < Load(net)
  {
    ReceiveSettled(net, c);
    DeliveryShrinksLoad(net, c);
  }

  lemma {:induction false} LoadFalls(nets: seq<Net>, at: seq<Conn>, i: nat)
    requires Deliveries(nets, at) && Settled(nets[0]) && i <= |at|
    ensures Settled(nets[i]) && Load(nets[i]) + i <= Load(nets[0])
  {
    if i > 0 {
      var j := i - 1;
      LoadFalls(nets, at, j);
      assert Delivered(nets[j], at[j], nets[j + 1]);
      DeliveredStep(nets[j], at[j], nets[i]);
    }
  }

  /** Whatever is in flight, subscriptions, unsubscriptions or publishes, the cascade it starts
      ends after at most `Load` deliveries. */
  lemma CascadesEnd(nets: seq<Net>, at: seq<Conn>)
    requires Deliveries(nets, at) && Settled(nets[0])
    ensures |at| <= Load(nets[0])
  {
    LoadFalls(nets, at, |at|);
    LoadNotNegative(nets[|at|]);
  }

  lemma Product(n: nat, m: nat)
    ensures n * m >= 0
  {
  }

  lemma LoadNotNegative(net: Net)
    ensures Load(net) >= 0
  {
    var E, V := LiveLinks(net), Nodes(net);
    forall x | x in Ends(E) ensures Weighed(Queued(net), Size(E, V))(x) >= 0 {
      Product(Queued(net)(x), |Ahead(E, V, x)|);
    }
    NotNegative(Ends(E), Weighed(Queued(net), Size(E, V)));
  }

  lemma {:induction false} NotNegative(S: set<Conn>, f: Conn -> int)
    requires forall x :: x in S ==> f(x) >= 0
    ensures Sum(S, f) >= 0
    decreases |S|
  {
    if S != {} {
      NotNegative(S - {Any(S)}, f);
    }
  }

  // --- publishing on the network -----------------------------------------------------------

  /** `net` is the quiet `base` with publishes on its channels. */
  ghost predicate Carries(base: Net, net: Net) {
    && net == base.(chan := net.chan) && net.chan.Keys == base.chan.Keys
    && forall x, i :: x in Ends(LiveLinks(base)) && x in net.chan && 0 <= i < |net.chan[x]| ==> net.chan[x][i].Publish?
  }

  /** Clients publish and messages arrive; nothing else happens. */
  ghost predicate Traffic(base: Net, nets: seq<Net>, events: seq<Event>) {
    && |nets| == |events| + 1 && nets[0] == base
    && forall i :: 0 <= i < |events| ==>
         Carried(events[i]) && Enabled(nets[i], events[i]) && nets[i + 1] == Step(nets[i], events[i])
  }

  predicate Carried(e: Event) {
    (e.Receive? && e.stop.None?) || (e.ClientSend? && e.message.Publish?)
  }

  lemma QueuePublish(net: Net, send: Send)
    requires send.message.Publish?
    ensures Queue(net, send) == net.(chan := Queue(net, send).chan)
  {
    assert Queue(net, send).told == net.told;
  }

  /** What has a tag is open exactly if it is listed. */
  ghost predicate TagsOpen(net: Net) {
    forall n, t :: n in net.routers && t in net.routers[n].tags ==>
      (Open(net, t.conn) <==> t.conn in net.routers[n].conns)
  }

  lemma PublishGoesTo(net: Net, c: Conn, m: Message)
    requires m.Publish? && AtRouter(net, c) && TagsOpen(net)
    ensures Response(net, c, m).1 == Send(Chosen(Routed(m.subject), net.routers[c.Node()], c), m)
    ensures Response(net, c, m).0 == net.routers[c.Node()]
  {
    var r := net.routers[c.Node()];
    forall d | d in r.Matching(m.subject) ensures Open(net, d) <==> d in r.conns {
      var t :| t in r.tags && Match(m.subject, t.subject) && t.conn == d;
    }
  }

  /** The node at `c` passes the publish on; its tables stay as they are. */
  lemma PublishPasses(net: Net, task: Task, c: Conn, m: Message)
    requires m.Publish? && AtRouter(net, c) && TagsOpen(net)
    ensures var net' := Process(net, task, c, m, None);
            && net' == net.(chan := net'.chan) && net'.chan.Keys == net.chan.Keys
            && forall x :: x in net.chan ==>
                 net'.chan[x] == net.chan[x] + if x in Passed(net, Routed(m.subject), c) then [m] else []
  {
    var r := net.routers[c.Node()];
    var send := Send(Chosen(Routed(m.subject), r, c), m);
    PublishGoesTo(net, c, m);
    assert SetRouter(net, c.Node(), r) == net;
    assert Decide(net, send).decided == net.decided;
    QueuePublish(net, send);
    forall x: Conn ensures x.Peer() in send.to <==> x in Passed(net, Routed(m.subject), c) {
      PassedIs(net, Routed(m.subject), c, x);
    }
  }

  /** One more message on its way to `p`, one more on each connection of `P`. */
  ghost predicate Adds(net: Net, net': Net, m: Message, P: set<Conn>) {
    && net' == net.(chan := net'.chan) && net'.chan.Keys == net.chan.Keys
    && forall x :: x in net.chan ==> net'.chan[x] == net.chan[x] + if x in P then [m] else []
  }

  lemma AddsCarries(base: Net, net: Net, net': Net, m: Message, P: set<Conn>)
    requires Carries(base, net) && Adds(net, net', m, P) && m.Publish?
    ensures Carries(base, net')
  {
  }

  lemma PopCarries(base: Net, net: Net, c: Conn)
    requires Carries(base, net) && c in net.chan && net.chan[c] != []
    ensures Carries(base, Pop(net, c))
  {
  }

  ghost predicate NothingHeld(net: Net) {
    forall n :: n in net.routers ==> net.routers[n].held == map[]
  }

  ghost predicate EndsListed(net: Net) {
    forall c :: Listed(net, c) <==> c in Ends(LiveLinks(net))
  }

  /** A delivery: the first message is taken and passed on. */
  lemma DeliveryIs(base: Net, net: Net, c: Conn, m: Message)
    requires NothingHeld(base) && TagsOpen(base) && EndsListed(base) && Carries(base, net)
    requires Enabled(net, Receive(c, None))
    requires m == net.chan[c][0]
    ensures m.Publish? && c in Ends(LiveLinks(base))
    ensures Adds(Pop(net, c), Step(net, Receive(c, None)), m, Passed(base, Routed(m.subject), c))
    ensures Carries(base, Step(net, Receive(c, None)))
  {
    assert Listed(base, c);
    ReceiveIs(net, c);
    if AtRouter(net, c) {
      PublishPasses(Pop(net, c), Relay(c), c, m);
    }
    PopCarries(base, net, c);
    AddsCarries(base, Pop(net, c), Step(net, Receive(c, None)), m, Passed(base, Routed(m.subject), c));
  }

  lemma SendIs(base: Net, net: Net, from: Conn, m: Message)
    requires Carries(base, net) && m.Publish? && from in net.clientConns
    ensures Adds(net, Step(net, ClientSend(from, m)), m, {from.Peer()})
    ensures Carries(base, Step(net, ClientSend(from, m)))
  {
    QueuePublish(net, Send({from}, m));
    assert forall x: Conn :: x.Peer() in {from} <==> x in {from.Peer()} by {
      assert forall x: Conn :: x.Peer().Peer() == x;
    }
    AddsCarries(base, net, Step(net, ClientSend(from, m)), m, {from.Peer()});
  }

  lemma {:induction false} CarriesAt(base: Net, nets: seq<Net>, events: seq<Event>, i: nat)
    requires NothingHeld(base) && TagsOpen(base) && EndsListed(base) && Carries(base, base)
    requires Traffic(base, nets, events) && i <= |events|
    ensures Carries(base, nets[i])
  {
    if i > 0 {
      var j := i - 1;
      CarriesAt(base, nets, events, j);
      assert Carried(events[j]) && Enabled(nets[j], events[j]) && nets[j + 1] == Step(nets[j], events[j]);
      if events[j].Receive? {
        DeliveryIs(base, nets[j], events[j].conn, nets[j].chan[events[j].conn][0]);
      } else {
        SendIs(base, nets[j], events[j].conn, events[j].message);
      }
    }
  }

  // one of the publishes, among the others

  ghost function Copies(net: Net, m: Message): Count {
    c => if c in net.chan then multiset(net.chan[c])[m] else 0
  }

  /** The copies of `m` are delivered to `k` this often in the first `i` steps. */
  ghost function Got(nets: seq<Net>, events: seq<Event>, m: Message, k: NodeId, i: nat): nat
    requires i <= |events| < |nets| && forall j :: 0 <= j < |events| ==> Enabled(nets[j], events[j])
  {
    if i == 0 then 0
    else Got(nets, events, m, k, i - 1)
         + if Delivers(nets[i - 1], events[i - 1], m) && events[i - 1].conn.Node() == k then 1 else 0
  }

  ghost predicate Delivers(net: Net, e: Event, m: Message)
    requires Enabled(net, e)
  {
    e.Receive? && net.chan[e.conn][0] == m
  }

  /** The clients that sent `m`, in order. */
  function SentBy(events: seq<Event>, m: Message): seq<Conn> {
    if events == [] then []
    else var last := events[|events| - 1];
         SentBy(events[..|events| - 1], m) + if last.ClientSend? && last.message == m then [last.conn] else []
  }

  ghost function MoveOf(net: Net, e: Event, m: Message): Move
    requires Enabled(net, e)
  {
    if Delivers(net, e, m) then Arrival(e.conn)
    else if e.ClientSend? && e.message == m then Move.Publishing(e.conn)
    else Elsewhere
  }

  ghost function FlightOf(base: Net, net: Net, m: Message, got: map<NodeId, nat>): Flight {
    Flight(map x | x in Ends(LiveLinks(base)) :: Copies(net, m)(x), got)
  }

  lemma CountOne(q: seq<Message>, m: Message, more: bool, x: Message)
    ensures multiset(q + if more then [m] else [])[x] == multiset(q)[x] + if more && x == m then 1 else 0
  {
  }

  lemma CountFirst(q: seq<Message>, x: Message)
    requires q != []
    ensures multiset(q)[x] == multiset(q[1..])[x] + if x == q[0] then 1 else 0
  {
    assert q == [q[0]] + q[1..];
  }

  lemma AddsCopies(net: Net, net': Net, m: Message, P: set<Conn>, x: Conn, y: Message)
    requires Adds(net, net', m, P) && x in net.chan
    ensures Copies(net', y)(x) == Copies(net, y)(x) + if x in P && y == m then 1 else 0
  {
    CountOne(net.chan[x], m, x in P, y);
  }

  lemma PopCopies(net: Net, c: Conn, x: Conn, y: Message)
    requires c in net.chan && net.chan[c] != [] && x in net.chan
    ensures Copies(Pop(net, c), y)(x) == Copies(net, y)(x) - if x == c && y == net.chan[c][0] then 1 else 0
  {
    CountFirst(net.chan[c], y);
  }

  lemma DeliveryCopies(base: Net, net: Net, c: Conn, y: Message, x: Conn)
    requires NothingHeld(base) && TagsOpen(base) && EndsListed(base) && Carries(base, net)
    requires Enabled(net, Receive(c, None)) && x in net.chan
    requires net.chan[c][0].Publish?
    ensures var m := net.chan[c][0];
            Copies(Step(net, Receive(c, None)), y)(x)
            == if y != m then Copies(net, y)(x)
               else Copies(net, y)(x) - (if x == c then 1 else 0)
                    + (if x in Passed(base, Routed(m.subject), c) then 1 else 0)
  {
    var m := net.chan[c][0];
    DeliveryIs(base, net, c, m);
    PopCopies(net, c, x, y);
    AddsCopies(Pop(net, c), Step(net, Receive(c, None)), m, Passed(base, Routed(m.subject), c), x, y);
  }

  ghost predicate EndsInChan(net: Net) {
    forall x :: x in Ends(LiveLinks(net)) ==> x in net.chan
  }

  /** How many copies each client has got after the first `i` steps. */
  ghost function GotBy(base: Net, nets: seq<Net>, events: seq<Event>, m: Message, i: nat): map<NodeId, nat>
    requires i <= |events| < |nets| && forall j :: 0 <= j < |events| ==> Enabled(nets[j], events[j])
  {
    map k | k in base.clients :: Got(nets, events, m, k, i)
  }

  ghost function GotOne(got: map<NodeId, nat>, n: NodeId): map<NodeId, nat> {
    if n in got then got[n := got[n] + 1] else got
  }

  lemma GotNext(base: Net, nets: seq<Net>, events: seq<Event>, m: Message, i: nat)
    requires i < |events| < |nets| && forall j :: 0 <= j < |events| ==> Enabled(nets[j], events[j])
    ensures GotBy(base, nets, events, m, i + 1)
            == if Delivers(nets[i], events[i], m) then GotOne(GotBy(base, nets, events, m, i), events[i].conn.Node())
               else GotBy(base, nets, events, m, i)
  {
  }

  lemma ArrivalBumps(base: Net, net: Net, c: Conn, m: Message, got: map<NodeId, nat>, got': map<NodeId, nat>)
    requires NothingHeld(base) && TagsOpen(base) && EndsListed(base) && EndsInChan(base) && Carries(base, net)
    requires Enabled(net, Receive(c, None)) && net.chan[c][0] == m && m.Publish?
    ensures Bumped(Flying(FlightOf(base, net, m, got)), Flying(FlightOf(base, Step(net, Receive(c, None)), m, got')),
                   Ends(LiveLinks(base)), c, Passed(base, Routed(m.subject), c))
  {
    forall x | x in Ends(LiveLinks(base))
      ensures Copies(Step(net, Receive(c, None)), m)(x)
              == Copies(net, m)(x) - (if x == c then 1 else 0)
                 + (if x in Passed(base, Routed(m.subject), c) then 1 else 0)
    {
      DeliveryCopies(base, net, c, m, x);
    }
    FlyingIs(base, net, m, got);
    FlyingIs(base, Step(net, Receive(c, None)), m, got');
  }

  lemma FlyingIs(base: Net, net: Net, m: Message, got: map<NodeId, nat>)
    ensures forall x :: x in Ends(LiveLinks(base)) ==> Flying(FlightOf(base, net, m, got))(x) == Copies(net, m)(x)
  {
  }

  lemma ArrivalMove(base: Net, net: Net, c: Conn, m: Message, got: map<NodeId, nat>, got': map<NodeId, nat>)
    requires NothingHeld(base) && TagsOpen(base) && EndsListed(base) && EndsInChan(base) && Carries(base, net)
    requires Enabled(net, Receive(c, None)) && net.chan[c][0] == m && m.Publish?
    requires got.Keys == base.clients && got' == GotOne(got, c.Node())
    ensures Arrives(base, Routed(m.subject), FlightOf(base, net, m, got), c,
                    FlightOf(base, Step(net, Receive(c, None)), m, got'))
  {
    DeliveryIs(base, net, c, m);
    CountFirst(net.chan[c], m);
    ArrivalBumps(base, net, c, m, got, got');
    ArrivesWhen(base, net, Step(net, Receive(c, None)), c, m, got);
  }

  lemma ArrivesWhen(base: Net, net: Net, net': Net, c: Conn, m: Message, got: map<NodeId, nat>)
    requires m.Publish? && c in Ends(LiveLinks(base)) && Copies(net, m)(c) > 0 && got.Keys == base.clients
    requires Bumped(Flying(FlightOf(base, net, m, got)), Flying(FlightOf(base, net', m, GotOne(got, c.Node()))),
                    Ends(LiveLinks(base)), c, Passed(base, Routed(m.subject), c))
    ensures Arrives(base, Routed(m.subject), FlightOf(base, net, m, got), c,
                    FlightOf(base, net', m, GotOne(got, c.Node())))
  {
  }

  lemma LaunchesWhen(base: Net, net: Net, net': Net, from: Conn, m: Message, got: map<NodeId, nat>)
    requires from in base.clientConns && got.Keys == base.clients
    requires forall x :: x in Ends(LiveLinks(base)) ==>
               Copies(net', m)(x) == Copies(net, m)(x) + if x == from.Peer() then 1 else 0
    ensures Launches(base, FlightOf(base, net, m, got), from, FlightOf(base, net', m, got))
  {
    FlyingIs(base, net, m, got);
    FlyingIs(base, net', m, got);
  }

  lemma SendCopies(base: Net, net: Net, from: Conn, sent: Message, m: Message, x: Conn)
    requires Carries(base, net) && from in net.clientConns && sent.Publish? && x in net.chan
    ensures Copies(Step(net, ClientSend(from, sent)), m)(x)
            == Copies(net, m)(x) + if x == from.Peer() && m == sent then 1 else 0
  {
    SendIs(base, net, from, sent);
    AddsCopies(net, Step(net, ClientSend(from, sent)), sent, {from.Peer()}, x, m);
  }

  lemma SameFlight(base: Net, net: Net, net': Net, m: Message, got: map<NodeId, nat>)
    requires forall x :: x in Ends(LiveLinks(base)) ==> Copies(net', m)(x) == Copies(net, m)(x)
    ensures FlightOf(base, net', m, got) == FlightOf(base, net, m, got)
  {
    assert FlightOf(base, net', m, got).flying == FlightOf(base, net, m, got).flying;
  }

  lemma ReceiveMove(base: Net, net: Net, c: Conn, m: Message, got: map<NodeId, nat>, got': map<NodeId, nat>)
    requires NothingHeld(base) && TagsOpen(base) && EndsListed(base) && EndsInChan(base) && Carries(base, net)
    requires Enabled(net, Receive(c, None)) && m.Publish?
    requires got.Keys == base.clients && got' == if net.chan[c][0] == m then GotOne(got, c.Node()) else got
    ensures Moves(base, Routed(m.subject), FlightOf(base, net, m, got), MoveOf(net, Receive(c, None), m),
                  FlightOf(base, Step(net, Receive(c, None)), m, got'))
  {
    if net.chan[c][0] == m {
      ArrivalMove(base, net, c, m, got, got');
    } else {
      DeliveryIs(base, net, c, net.chan[c][0]);
      forall x | x in Ends(LiveLinks(base)) ensures Copies(Step(net, Receive(c, None)), m)(x) == Copies(net, m)(x) {
        DeliveryCopies(base, net, c, m, x);
      }
      SameFlight(base, net, Step(net, Receive(c, None)), m, got);
    }
  }

  lemma SendMove(base: Net, net: Net, from: Conn, sent: Message, m: Message, got: map<NodeId, nat>)
    requires EndsInChan(base) && Carries(base, net) && Enabled(net, ClientSend(from, sent)) && sent.Publish?
    requires got.Keys == base.clients
    ensures Moves(base, Routed(m.subject), FlightOf(base, net, m, got), MoveOf(net, ClientSend(from, sent), m),
                  FlightOf(base, Step(net, ClientSend(from, sent)), m, got))
  {
    var net' := Step(net, ClientSend(from, sent));
    forall x | x in Ends(LiveLinks(base))
      ensures Copies(net', m)(x) == Copies(net, m)(x) + if x == from.Peer() && m == sent then 1 else 0
    {
      SendCopies(base, net, from, sent, m, x);
    }
    if m == sent {
      LaunchesWhen(base, net, net', from, m, got);
    } else {
      SameFlight(base, net, net', m, got);
    }
  }

  lemma TrafficMove(base: Net, nets: seq<Net>, events: seq<Event>, m: Message, i: nat)
    requires NothingHeld(base) && TagsOpen(base) && EndsListed(base) && EndsInChan(base)
    requires Carries(base, base) && m.Publish? && Traffic(base, nets, events) && i < |events|
    ensures Moves(base, Routed(m.subject), FlightOf(base, nets[i], m, GotBy(base, nets, events, m, i)),
                  MoveOf(nets[i], events[i], m), FlightOf(base, nets[i + 1], m, GotBy(base, nets, events, m, i + 1)))
  {
    var got, got' := GotBy(base, nets, events, m, i), GotBy(base, nets, events, m, i + 1);
    CarriesAt(base, nets, events, i);
    GotNext(base, nets, events, m, i);
    assert Carried(events[i]) && Enabled(nets[i], events[i]) && nets[i + 1] == Step(nets[i], events[i]);
    if events[i].Receive? {
      ReceiveMove(base, nets[i], events[i].conn, m, got, got');
    } else {
      SendMove(base, nets[i], events[i].conn, events[i].message, m, got);
    }
  }

  ghost function FlightsOf(base: Net, nets: seq<Net>, events: seq<Event>, m: Message): seq<Flight>
    requires Traffic(base, nets, events)
  {
    seq(|nets|, i requires 0 <= i < |nets| => FlightOf(base, nets[i], m, GotBy(base, nets, events, m, i)))
  }

  ghost function MovesOf(base: Net, nets: seq<Net>, events: seq<Event>, m: Message): seq<Move>
    requires Traffic(base, nets, events)
  {
    seq(|events|, i requires 0 <= i < |events| => MoveOf(nets[i], events[i], m))
  }

  lemma SentNext(events: seq<Event>, m: Message, j: nat)
    requires j < |events|
    ensures SentBy(events[..j + 1], m) == SentBy(events[..j], m)
            + if events[j].ClientSend? && events[j].message == m then [events[j].conn] else []
  {
    assert events[..j + 1][..j] == events[..j];
  }

  lemma {:induction false} PublishersAre(base: Net, nets: seq<Net>, events: seq<Event>, m: Message, i: nat)
    requires Traffic(base, nets, events) && i <= |events|
    ensures Publishers(MovesOf(base, nets, events, m)[..i]) == SentBy(events[..i], m)
  {
    if i > 0 {
      var moves, j := MovesOf(base, nets, events, m), i - 1;
      PublishersAre(base, nets, events, m, j);
      PublishersNext(moves, j);
      SentNext(events, m, j);
      assert moves[j] == MoveOf(nets[j], events[j], m);
    }
  }

  ghost predicate NoneQueued(net: Net) {
    forall x :: x in Ends(LiveLinks(net)) ==> x in net.chan && net.chan[x] == []
  }

  lemma QuietTagsOpen(net: Net)
    requires Shape(net) && AllClosed(net)
    ensures TagsOpen(net)
  {
    forall n, t | n in net.routers && t in net.routers[n].tags
      ensures Open(net, t.conn) <==> t.conn in net.routers[n].conns
    {
      assert RouterOk(net, n, net.routers[n]);
    }
  }

  lemma QuietEnds(net: Net)
    requires Quiet(net)
    ensures NothingHeld(net) && TagsOpen(net) && EndsListed(net) && NoneQueued(net)
  {
    QuietTagsOpen(net);
    forall c ensures Listed(net, c) <==> c in Ends(LiveLinks(net)) {
      LiveEnds(net, c);
      EndsAre(LiveLinks(net), c);
    }
  }

  lemma TrafficFlies(base: Net, nets: seq<Net>, events: seq<Event>, m: Message)
    requires NothingHeld(base) && TagsOpen(base) && EndsListed(base) && NoneQueued(base)
    requires m.Publish? && Traffic(base, nets, events)
    ensures Flies(base, Routed(m.subject), FlightsOf(base, nets, events, m), MovesOf(base, nets, events, m))
  {
    var flights, moves := FlightsOf(base, nets, events, m), MovesOf(base, nets, events, m);
    assert flights[0] == Nothing(base) by {
      assert flights[0].flying == Nothing(base).flying;
      assert flights[0].got == Nothing(base).got;
    }
    forall i | 0 <= i < |moves| ensures Moves(base, Routed(m.subject), flights[i], moves[i], flights[i + 1]) {
      TrafficMove(base, nets, events, m, i);
    }
  }

  lemma FlightsLand(base: Net, net: Net, m: Message, got: map<NodeId, nat>)
    requires EndsListed(base) && forall c :: Listed(base, c) && c in net.chan ==> m !in net.chan[c]
    ensures Landed(FlightOf(base, net, m, got))
  {
  }

  /** Clients publish on a quiet bus, any number of them and any messages, while other publishes
      are on their way. However the copies are delivered, once none of `m` is left, every client
      with a matching subscription has got one for each time that a client which has it ahead sent
      `m`, and no other client has got any. */
  lemma PublishesOnQuietBus(base: Net, nets: seq<Net>, events: seq<Event>, m: Message, k: NodeId)
    requires Quiet(base) && Traffic(base, nets, events) && m.Publish? && k in base.clients
    requires forall c :: Listed(base, c) && c in nets[|events|].chan ==> m !in nets[|events|].chan[c]
    ensures Got(nets, events, m, k, |events|) == OwedAll(base, Routed(m.subject), SentBy(events, m), k)
  {
    var n := |events|;
    QuietEnds(base);
    TrafficFlies(base, nets, events, m);
    FlightsLand(base, nets[n], m, GotBy(base, nets, events, m, n));
    PublishersAre(base, nets, events, m, n);
    assert events[..n] == events && MovesOf(base, nets, events, m)[..n] == MovesOf(base, nets, events, m);
    ExactlyOnce(base, Routed(m.subject), FlightsOf(base, nets, events, m), MovesOf(base, nets, events, m), k);
  }
}
