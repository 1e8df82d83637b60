/** What the steps of the cycle check and of subscription routing do to the nodes' lists of the
    connections between nodes. */
module ListChanges {
  import opened Links
  import opened Results
  import opened Subjects
  import opened Routing
  import opened RoutingInvariant
  import opened RoutingRuns
  import CycleCheck

  /** What a step does to the nodes' lists of the connections between nodes. */
  datatype Change = Same | Makes(link: Link) | Takes(link: Link) | Accepts(conn: Conn) | Drops(conn: Conn)
                  | Clears(node: NodeId)

  // --- what the cycle check does to the lists ------------------------------------------------

  function CheckChange(s: CycleCheck.State, e: CycleCheck.Event): Change
    requires CycleCheck.Enabled(s, e)
  {
    var nd := s.nodes[CycleCheck.At(e)];
    match e
    case Establish(l) => Makes(l)
    case Arrive(l) => Takes(l)
    case NoHello(c) => Drops(c)
    case Greet(c) => if c in CycleCheck.Greeted(CycleCheck.At(e), nd, c).checks then Same else Drops(c)
    case Act(c) =>
      (match nd.checks[c].result
       case Found => Drops(c)
       case NotFound => Accepts(c)
       case Unknown => if nd.checks[c].attempt + 1 < CycleCheck.MAX_CHECK_ATTEMPTS then Same else Drops(c))
    case Lose(c) => Drops(c)
    case Close(n) => if nd.conns == {} && nd.pending == {} then Same else Clears(n)
    case _ => Same
  }

  function ConnsAfter(change: Change, n: NodeId, conns: set<Conn>): set<Conn> {
    match change
    case Makes(l) => if n == l.a then conns + {Conn(l, true)} else conns
    case Takes(l) => if n == l.b then conns + {Conn(l, false)} else conns
    case Drops(c) => if n == c.Node() then conns - {c} else conns
    case Clears(m) => if n == m then {} else conns
    case _ => conns
  }

  function PendingAfter(change: Change, n: NodeId, pending: set<Conn>): set<Conn> {
    match change
    case Makes(l) => if n == l.a then pending + {Conn(l, true)} else pending
    case Accepts(c) => if n == c.Node() then pending - {c} else pending
    case Drops(c) => if n == c.Node() then pending - {c} else pending
    case Clears(m) => if n == m then {} else pending
    case _ => pending
  }

  function MadeAfter(change: Change, made: set<Link>): set<Link> {
    if change.Makes? then made + {change.link} else made
  }

  ghost predicate Changed(change: Change, n: NodeId, conns: set<Conn>, pending: set<Conn>,
                          conns': set<Conn>, pending': set<Conn>) {
    conns' == ConnsAfter(change, n, conns) && pending' == PendingAfter(change, n, pending)
  }

  ghost predicate CheckChanged(s: CycleCheck.State, s': CycleCheck.State, change: Change) {
    && s'.nodes.Keys == s.nodes.Keys && s'.made == MadeAfter(change, s.made)
    && forall n :: n in s.nodes ==>
         Changed(change, n, s.nodes[n].conns, s.nodes[n].pending, s'.nodes[n].conns, s'.nodes[n].pending)
  }

  lemma CheckReacts(s: CycleCheck.State, e: CycleCheck.Event)
    requires CycleCheck.Enabled(s, e)
    ensures var n, nd := CycleCheck.At(e), s.nodes[CycleCheck.At(e)];
            var nd' := CycleCheck.React(nd, e, |s.asks|).0;
            Changed(CheckChange(s, e), n, nd.conns, nd.pending, nd'.conns, nd'.pending)
  {
    if e.Deliver? || e.Finish? || e.Timeout? || e.Start? || e.GiveUp? || e.Acquire? || e.Release? {
      ListsStay(s.nodes[CycleCheck.At(e)], e, |s.asks|);
    } else {
      ListsChange(s, e);
    }
  }

  lemma ListsStay(nd: CycleCheck.Node, e: CycleCheck.Event, q: CycleCheck.QueryId)
    requires CycleCheck.Possible(nd, e)
    requires e.Deliver? || e.Finish? || e.Timeout? || e.Start? || e.GiveUp? || e.Acquire? || e.Release?
    ensures var nd' := CycleCheck.React(nd, e, q).0; nd'.conns == nd.conns && nd'.pending == nd.pending
  {
  }

  lemma ListsChange(s: CycleCheck.State, e: CycleCheck.Event)
    requires CycleCheck.Enabled(s, e)
    requires e.Establish? || e.Arrive? || e.NoHello? || e.Greet? || e.Act? || e.Lose? || e.Close?
    ensures var n, nd := CycleCheck.At(e), s.nodes[CycleCheck.At(e)];
            var nd' := CycleCheck.React(nd, e, |s.asks|).0;
            Changed(CheckChange(s, e), n, nd.conns, nd.pending, nd'.conns, nd'.pending)
  {
    if e.Greet? {
      GreetedLists(CycleCheck.At(e), s.nodes[CycleCheck.At(e)], e.conn);
    }
  }

  lemma GreetedLists(n: NodeId, nd: CycleCheck.Node, c: Conn)
    requires c in nd.peers && c in nd.checks
    ensures var nd' := CycleCheck.Greeted(n, nd, c);
            if c in nd'.checks then nd'.conns == nd.conns && nd'.pending == nd.pending
            else nd'.conns == nd.conns - {c} && nd'.pending == nd.pending - {c}
  {
  }

  lemma CheckMoves(s: CycleCheck.State, e: CycleCheck.Event)
    requires CycleCheck.Enabled(s, e)
    ensures CheckChanged(s, CycleCheck.Step(s, e), CheckChange(s, e))
  {
    CheckReacts(s, e);
    ElsewhereSame(s, e);
  }

  lemma ElsewhereSame(s: CycleCheck.State, e: CycleCheck.Event)
    requires CycleCheck.Enabled(s, e)
    ensures forall n, C, P :: n != CycleCheck.At(e) ==> Changed(CheckChange(s, e), n, C, P, C, P)
  {
  }

  // --- what routing does to the lists ----------------------------------------------------------

  /** The node's connections to nodes: those of links that a node has made. */
  function NodeConns(net: Net, n: NodeId): set<Conn>
    requires n in net.routers
  {
    set c | c in net.routers[n].conns && c.link.a in net.routers
  }

  function NodeLinks(net: Net): set<Link> {
    set l | l in net.made && l.a in net.routers
  }

  function DropChange(net: Net, c: Conn): Change {
    if c.link.a in net.routers then Drops(c) else Same
  }

  function StopChange(net: Net, stop: Option<Stop>): Change {
    if stop.Some? then DropChange(net, stop.value.at) else Same
  }

  function RouteChange(net: Net, e: Event): Change {
    match e
    case Establish(l) => Makes(l)
    case Arrive(l, _) => if l.a in net.routers then Takes(l) else Same
    case Activate(c, _) => Accepts(c)
    case Lose(c) => if c in net.clientConns then Same else DropChange(net, c)
    case Fail(c, _) => DropChange(net, c)
    case Receive(_, stop) => StopChange(net, stop)
    case Drain(_, stop) => StopChange(net, stop)
    case Forget(_, _, stop) => StopChange(net, stop)
    case ReadOn(_, stop) => StopChange(net, stop)
    case Resume(_, stop) => StopChange(net, stop)
    case _ => Same
  }

  ghost predicate RouteChanged(net: Net, net': Net, change: Change) {
    && net'.routers.Keys == net.routers.Keys && NodeLinks(net') == MadeAfter(change, NodeLinks(net))
    && forall n :: n in net.routers ==>
         Changed(change, n, NodeConns(net, n), net.routers[n].pending, NodeConns(net', n), net'.routers[n].pending)
  }

  ghost predicate SameLists(net: Net, net': Net) {
    && net'.routers.Keys == net.routers.Keys && net'.made == net.made
    && forall n :: n in net.routers ==>
         net'.routers[n].conns == net.routers[n].conns && net'.routers[n].pending == net.routers[n].pending
  }

  lemma NothingChanges(net: Net, net': Net)
    requires SameLists(net, net')
    ensures RouteChanged(net, net', Same)
  {
    forall n | n in net.routers ensures NodeConns(net', n) == NodeConns(net, n) {
    }
  }

  lemma ThenChanges(net: Net, net1: Net, net2: Net, change: Change)
    requires SameLists(net, net1) && RouteChanged(net1, net2, change)
    ensures RouteChanged(net, net2, change)
  {
    NothingChanges(net, net1);
  }

  lemma UnlistChanges(net: Net, c: Conn, task: Task)
    requires RoutersOk(net) && AtRouter(net, c)
    ensures RouteChanged(net, Unlist(net, c, task), DropChange(net, c))
  {
    forall n | n in net.routers
      ensures Changed(DropChange(net, c), n, NodeConns(net, n), net.routers[n].pending,
                      NodeConns(Unlist(net, c, task), n), Unlist(net, c, task).routers[n].pending)
    {
      assert RouterOk(net, n, net.routers[n]);
      UnlistAt(net, c, task, n);
    }
  }

  lemma UnlistAt(net: Net, c: Conn, task: Task, n: NodeId)
    requires AtRouter(net, c) && n in net.routers && RouterOk(net, n, net.routers[n])
    ensures Changed(DropChange(net, c), n, NodeConns(net, n), net.routers[n].pending,
                    NodeConns(Unlist(net, c, task), n), Unlist(net, c, task).routers[n].pending)
  {
    var net' := Unlist(net, c, task);
    if n != c.Node() {
      assert net'.routers[n] == net.routers[n];
      assert NodeConns(net', n) == NodeConns(net, n);
    } else if c.link.a in net.routers {
      assert NodeConns(net', n) == NodeConns(net, n) - {c};
    } else {
      assert NodeConns(net', n) == NodeConns(net, n);
      assert c !in net.routers[n].pending;
    }
  }

  lemma SpreadChanges(net: Net, task: Task, send: Send, stop: Option<Stop>)
    requires RoutersOk(net) && StopOk(net, send, stop)
    ensures RouteChanged(net, Spread(net, task, send, stop), StopChange(net, stop))
  {
    match stop
    case None => NothingChanges(net, Queue(net, send));
    case Some(Stop(at, late)) =>
      var net1 := Queue(net, Send(send.to - late - {at}, send.message))
                  .(stalled := if late == {} then net.stalled
                               else net.stalled + [Fanout(task, at, Send(late, send.message))]);
      SameRoutersOk(net, net1);
      UnlistChanges(net1, at, task);
      ThenChanges(net, net1, Unlist(net1, at, task), DropChange(net, at));
  }

  /** The node at `c` changes tags alone, and sends. */
  lemma CarryChanges(net: Net, task: Task, c: Conn, r': Router, send: Send, stop: Option<Stop>)
    requires RoutersOk(net) && AtRouter(net, c) && StopOk(net, send, stop) && RouterOk(net, c.Node(), r')
    requires r'.conns == net.routers[c.Node()].conns && r'.pending == net.routers[c.Node()].pending
    ensures RouteChanged(net, Carry(net, task, c, r', send, stop), StopChange(net, stop))
  {
    var net1 := Decide(SetRouter(net, c.Node(), r'), send);
    forall m | m in net1.routers ensures m !in net1.clients && RouterOk(net1, m, net1.routers[m]) {
      assert RouterOk(net, m, net.routers[m]);
    }
    SpreadChanges(net1, task, send, stop);
    ThenChanges(net, net1, Carry(net, task, c, r', send, stop), StopChange(net, stop));
  }

  lemma ProcessChanges(net: Net, task: Task, c: Conn, m: Message, stop: Option<Stop>)
    requires RoutersOk(net) && AtRouter(net, c) && StopOk(net, Response(net, c, m).1, stop)
    requires c.link in net.arrived && c !in net.routers[c.Node()].pending
    ensures RouteChanged(net, Process(net, task, c, m, stop), StopChange(net, stop))
  {
    var (r', send) := Response(net, c, m);
    assert RouterOk(net, c.Node(), net.routers[c.Node()]);
    HandleShape(net, c.Node(), net.routers[c.Node()], c, m);
    CarryChanges(net, task, c, r', send, stop);
  }

  /** The same after a step that leaves the lists alone. */
  lemma HandledChanges(net: Net, net1: Net, task: Task, c: Conn, m: Message, stop: Option<Stop>)
    requires SameLists(net, net1) && RoutersOk(net1) && AtRouter(net1, c)
    requires StopOk(net1, Response(net1, c, m).1, stop)
    requires c.link in net1.arrived && c !in net1.routers[c.Node()].pending
    ensures RouteChanged(net, Process(net1, task, c, m, stop), StopChange(net, stop))
  {
    ProcessChanges(net1, task, c, m, stop);
    ThenChanges(net, net1, Process(net1, task, c, m, stop), StopChange(net, stop));
  }

  lemma PopLists(net: Net, c: Conn)
    requires RoutersOk(net) && c in net.chan && net.chan[c] != []
    ensures SameLists(net, Pop(net, c)) && RoutersOk(Pop(net, c))
  {
    SameRoutersOk(net, Pop(net, c));
  }

  lemma ReceivedChanges(net: Net, c: Conn, stop: Option<Stop>)
    requires Inv(net) && Enabled(net, Receive(c, stop))
    requires AtRouter(net, c) && c !in net.routers[c.Node()].held
    ensures RouteChanged(net, Process(Pop(net, c), Relay(c), c, net.chan[c][0], stop), StopChange(net, stop))
  {
    ListedAtRouter(net, c);
    InvAt(net, c);
    PopLists(net, c);
    PopResponse(net, c, net.chan[c][0], stop);
    HandledChanges(net, Pop(net, c), Relay(c), c, net.chan[c][0], stop);
  }

  lemma ReceiveChanges(net: Net, c: Conn, stop: Option<Stop>)
    requires Inv(net) && Enabled(net, Receive(c, stop))
    ensures RouteChanged(net, Step(net, Receive(c, stop)), StopChange(net, stop))
  {
    if AtRouter(net, c) && c !in net.routers[c.Node()].held {
      ReceivedChanges(net, c, stop);
    } else {
      KeptChanges(net, c, stop);
    }
  }

  lemma KeptChanges(net: Net, c: Conn, stop: Option<Stop>)
    requires Enabled(net, Receive(c, stop)) && (AtRouter(net, c) ==> c in net.routers[c.Node()].held)
    ensures RouteChanged(net, Step(net, Receive(c, stop)), StopChange(net, stop))
  {
    NothingChanges(net, Step(net, Receive(c, stop)));
  }

  lemma UnheldLists(net: Net, c: Conn)
    requires Inv(net) && AtRouter(net, c) && c !in net.routers[c.Node()].pending
    requires c in net.routers[c.Node()].held && net.routers[c.Node()].held[c] != []
    ensures SameLists(net, Unheld(net, c)) && RoutersOk(Unheld(net, c)) && c.link in net.arrived
  {
    var n, r := c.Node(), net.routers[c.Node()];
    HeldConn(net, c);
    InvAt(net, c);
    SetHeld(net, n, r, c, r.held[c][1..]);
    SetRouterShape(net, n, r.(held := r.held[c := r.held[c][1..]]));
    UnheldSame(net, c);
  }

  lemma UnheldSame(net: Net, c: Conn)
    requires AtRouter(net, c) && c in net.routers[c.Node()].held && net.routers[c.Node()].held[c] != []
    ensures SameLists(net, Unheld(net, c))
  {
  }

  lemma DrainChanges(net: Net, c: Conn, stop: Option<Stop>)
    requires Inv(net) && Enabled(net, Drain(c, stop))
    ensures RouteChanged(net, Step(net, Drain(c, stop)), StopChange(net, stop))
  {
    UnheldLists(net, c);
    DrainedChanges(net, c, net.routers[c.Node()].held[c][0], stop);
  }

  lemma DrainedChanges(net: Net, c: Conn, m: Message, stop: Option<Stop>)
    requires AtRouter(net, c) && c in net.routers[c.Node()].held && net.routers[c.Node()].held[c] != []
    requires SameLists(net, Unheld(net, c)) && RoutersOk(Unheld(net, c))
    requires c.link in net.arrived && c !in net.routers[c.Node()].pending
    requires StopOk(net, Response(net, c, m).1, stop)
    ensures RouteChanged(net, Process(Unheld(net, c), Checker(c), c, m, stop), StopChange(net, stop))
  {
    UnheldResponse(net, c, m, stop);
    HandledChanges(net, Unheld(net, c), Checker(c), c, m, stop);
  }

  lemma ForgetChanges(net: Net, c: Conn, s: Subject, stop: Option<Stop>)
    requires Inv(net) && LeftInv(net) && Enabled(net, Forget(c, s, stop))
    ensures RouteChanged(net, Step(net, Forget(c, s, stop)), StopChange(net, stop))
  {
    ForgottenChanges(net, net.lost.loss[c].task, c, s, stop);
  }

  lemma ForgottenChanges(net: Net, task: Task, c: Conn, s: Subject, stop: Option<Stop>)
    requires RoutersOk(net) && LeftInv(net) && AtRouter(net, c) && StopOk(net, Removal(net, c, s).1, stop)
    ensures var (r', send) := Removal(net, c, s);
            RouteChanged(net, Carry(Removed(net, {Tag(c, s)}), task, c, r', send, stop), StopChange(net, stop))
  {
    var (r', send) := Removal(net, c, s);
    RemovedSends(net, c, s, stop);
    RemovedLeft(net, {Tag(c, s)});
    RemovalChanges(Removed(net, {Tag(c, s)}), task, c, s, stop);
    ThenChanges(net, Removed(net, {Tag(c, s)}),
                Carry(Removed(net, {Tag(c, s)}), task, c, r', send, stop), StopChange(net, stop));
  }

  lemma RemovalChanges(net: Net, task: Task, c: Conn, s: Subject, stop: Option<Stop>)
    requires RoutersOk(net) && AtRouter(net, c) && StopOk(net, Removal(net, c, s).1, stop)
    ensures var (r', send) := Removal(net, c, s);
            RouteChanged(net, Carry(net, task, c, r', send, stop), StopChange(net, stop))
  {
    var (r', send) := Removal(net, c, s);
    assert RouterOk(net, c.Node(), net.routers[c.Node()]);
    UnsubscribeShape(net, c.Node(), net.routers[c.Node()], c, s);
    CarryChanges(net, task, c, r', send, stop);
  }

  lemma ReadOnChanges(net: Net, c: Conn, stop: Option<Stop>)
    requires Inv(net) && LeftInv(net) && Enabled(net, ReadOn(c, stop))
    ensures RouteChanged(net, Step(net, ReadOn(c, stop)), StopChange(net, stop))
  {
    LateIsGone(net, c);
    TakeNextLeft(net, c);
    TakeNextLists(net, c);
    TakeNextSends(net, c, NextOf(net, c), stop);
    HandledChanges(net, TakeNext(net, c), Relay(c), c, NextOf(net, c), stop);
  }

  lemma TakeNextLists(net: Net, c: Conn)
    requires HasNext(net, c)
    ensures SameLists(net, TakeNext(net, c))
  {
  }

  lemma ResumeChanges(net: Net, i: nat, stop: Option<Stop>)
    requires Inv(net) && LeftInv(net) && Enabled(net, Resume(i, stop))
    ensures RouteChanged(net, Step(net, Resume(i, stop)), StopChange(net, stop))
  {
    OnlySends(net, Unstall(net, i));
    ResumedChanges(net, Unstall(net, i), net.stalled[i].task, OnOpen(net, net.stalled[i].rest), stop);
  }

  lemma ResumedChanges(net: Net, net1: Net, task: Task, send: Send, stop: Option<Stop>)
    requires net1 == net.(stalled := net1.stalled) && RoutersOk(net1) && StopOk(net, send, stop)
    ensures RouteChanged(net, Spread(net1, task, send, stop), StopChange(net, stop))
  {
    SpreadChanges(net1, task, send, stop);
    ThenChanges(net, net1, Spread(net1, task, send, stop), StopChange(net, stop));
  }

  lemma PopUnlists(net: Net, c: Conn)
    requires RoutersOk(net) && AtRouter(net, c) && c in net.chan && net.chan[c] != []
    ensures RouteChanged(net, Unlist(Pop(net, c), c, Relay(c)), DropChange(net, c))
  {
    PopLists(net, c);
    UnlistChanges(Pop(net, c), c, Relay(c));
    ThenChanges(net, Pop(net, c), Unlist(Pop(net, c), c, Relay(c)), DropChange(net, c));
  }

  lemma LossChanges(net: Net, e: Event)
    requires Inv(net) && Enabled(net, e) && (e.Lose? || e.Fail?)
    ensures RouteChanged(net, Step(net, e), RouteChange(net, e))
  {
    if e.Lose? {
      if e.conn in net.clientConns {
        NothingChanges(net, Step(net, e));
      } else {
        UnlistChanges(net, e.conn, Other);
      }
    } else if e.over {
      PopUnlists(net, e.conn);
    } else {
      UnlistChanges(net, e.conn, Relay(e.conn));
    }
  }

  ghost predicate NotAt(change: Change, m: NodeId) {
    forall n, C, P :: n != m ==> Changed(change, n, C, P, C, P)
  }

  /** Only the node `m` changes its lists. */
  lemma OneNodeChanges(net: Net, net': Net, m: NodeId, r': Router, change: Change)
    requires m in net.routers && net'.routers == net.routers[m := r'] && NotAt(change, m)
    requires NodeLinks(net') == MadeAfter(change, NodeLinks(net))
    requires Changed(change, m, NodeConns(net, m), net.routers[m].pending,
                     (set c | c in r'.conns && c.link.a in net.routers), r'.pending)
    ensures RouteChanged(net, net', change)
  {
    forall n | n in net.routers
      ensures NodeConns(net', n) == if n == m then (set c | c in r'.conns && c.link.a in net.routers)
                                    else NodeConns(net, n)
    {
    }
  }

  lemma EstablishChanges(net: Net, l: Link)
    requires Enabled(net, Establish(l))
    ensures RouteChanged(net, Step(net, Establish(l)), Makes(l))
  {
    var net', c := Step(net, Establish(l)), Conn(l, true);
    var r' := Pending(net.routers[l.a], c);
    assert NodeLinks(net') == NodeLinks(net) + {l};
    assert (set d | d in r'.conns && d.link.a in net.routers) == NodeConns(net, l.a) + {c};
    OneNodeChanges(net, net', l.a, r', Makes(l));
  }

  lemma ArriveChanges(net: Net, l: Link, order: seq<Subject>)
    requires Enabled(net, Arrive(l, order))
    ensures RouteChanged(net, Step(net, Arrive(l, order)), RouteChange(net, Arrive(l, order)))
  {
    var c, change := Conn(l, false), RouteChange(net, Arrive(l, order));
    var r' := net.routers[l.b].(conns := net.routers[l.b].conns + {c});
    TellAllOnly(Arrived(net, l), c, order);
    assert (set d | d in r'.conns && d.link.a in net.routers)
           == if l.a in net.routers then NodeConns(net, l.b) + {c} else NodeConns(net, l.b);
    assert NodeLinks(Arrived(net, l)) == NodeLinks(net);
    OneNodeChanges(net, Arrived(net, l), l.b, r', change);
    ToldSame(net, Arrived(net, l), Step(net, Arrive(l, order)), change);
  }

  lemma ActivateChanges(net: Net, c: Conn, order: seq<Subject>)
    requires Enabled(net, Activate(c, order))
    ensures RouteChanged(net, Step(net, Activate(c, order)), Accepts(c))
  {
    var r := net.routers[c.Node()];
    var r' := r.(pending := r.pending - {c});
    TellAllOnly(SetRouter(net, c.Node(), r'), c, order);
    OneNodeChanges(net, SetRouter(net, c.Node(), r'), c.Node(), r', Accepts(c));
    ToldSame(net, SetRouter(net, c.Node(), r'), Step(net, Activate(c, order)), Accepts(c));
  }

  lemma ToldSame(net: Net, net1: Net, net2: Net, change: Change)
    requires RouteChanged(net, net1, change) && net2.routers == net1.routers && net2.made == net1.made
    ensures RouteChanged(net, net2, change)
  {
    NothingChanges(net1, net2);
  }

  lemma ConnectChanges(net: Net, l: Link)
    requires Inv(net) && Enabled(net, ClientConnect(l))
    ensures RouteChanged(net, Step(net, ClientConnect(l)), Same)
  {
    var net' := Step(net, ClientConnect(l));
    assert l.a !in net.routers;
    assert NodeLinks(net') == NodeLinks(net);
    forall n | n in net.routers ensures NodeConns(net', n) == NodeConns(net, n) {
    }
  }

  lemma JoinChanges(net: Net, e: Event)
    requires Inv(net) && Enabled(net, e) && Joins(e)
    ensures RouteChanged(net, Step(net, e), RouteChange(net, e))
  {
    if e.Establish? {
      EstablishChanges(net, e.link);
    } else if e.Arrive? {
      ArriveChanges(net, e.link, e.order);
    } else if e.Activate? {
      ActivateChanges(net, e.conn, e.order);
    } else {
      ConnectChanges(net, e.link);
    }
  }

  lemma RestChanges(net: Net, e: Event)
    requires Enabled(net, e) && (e.ClientSend? || e.Drained? || e.GiveUp? || e.Shut? || e.Abandon?)
    ensures RouteChanged(net, Step(net, e), Same)
  {
    NothingChanges(net, Step(net, e));
  }

  lemma RouteMoves(net: Net, e: Event)
    requires Inv(net) && LeftInv(net) && Enabled(net, e)
    ensures RouteChanged(net, Step(net, e), RouteChange(net, e))
  {
    if Joins(e) {
      JoinChanges(net, e);
    } else if e.Receive? {
      ReceiveChanges(net, e.conn, e.stop);
    } else if e.Drain? {
      DrainChanges(net, e.conn, e.stop);
    } else if e.Forget? {
      ForgetChanges(net, e.conn, e.subject, e.stop);
    } else if e.ReadOn? {
      ReadOnChanges(net, e.conn, e.stop);
    } else if e.Resume? {
      ResumeChanges(net, e.index, e.stop);
    } else if e.Lose? || e.Fail? {
      LossChanges(net, e);
    } else {
      RestChanges(net, e);
    }
  }
}
