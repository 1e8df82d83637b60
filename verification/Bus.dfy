/** The whole bus: the cycle check and subscription routing run side by side and see the same
    connections. So the links over which subscriptions travel form a forest. */
module Bus {
  import opened Graphs
  import opened Links
  import opened Results
  import opened Routing
  import opened RoutingInvariant
  import opened RoutingRuns
  import opened ListChanges
  import opened StaleAccount
  import opened Quiescence
  import CycleCheck
  import CycleSafety

  datatype Bus = Bus(check: CycleCheck.State, net: Net)

  /** A step of either part, or one of each at once. */
  datatype Move = Move(check: Option<CycleCheck.Event>, route: Option<Event>)

  // --- the two together ----------------------------------------------------------------------------

  /** The parts agree on the links and connections between nodes. */
  ghost predicate Agree(b: Bus) {
    && b.check.nodes.Keys == b.net.routers.Keys && b.check.made == NodeLinks(b.net)
    && forall n :: n in b.check.nodes ==>
         b.check.nodes[n].conns == NodeConns(b.net, n) && b.check.nodes[n].pending == b.net.routers[n].pending
  }

  ghost predicate BusInit(b: Bus) {
    CycleCheck.Init(b.check) && Init(b.net) && b.check.nodes.Keys == b.net.routers.Keys
  }

  /** What the check's part of the step does, if it has one. */
  ghost function CheckPart(b: Bus, m: Move): Change
    requires m.check.Some? ==> CycleCheck.Enabled(b.check, m.check.value)
  {
    if m.check.Some? then CheckChange(b.check, m.check.value) else Same
  }

  ghost function RoutePart(b: Bus, m: Move): Change {
    if m.route.Some? then RouteChange(b.net, m.route.value) else Same
  }

  /** Both parts can take the step, and it does the same to the lists in both: a connection is made,
      taken, accepted or dropped for both or for neither. */
  ghost predicate BusEnabled(b: Bus, m: Move) {
    && (m.check.Some? ==> CycleCheck.Enabled(b.check, m.check.value))
    && (m.route.Some? ==> Enabled(b.net, m.route.value))
    && CheckPart(b, m) == RoutePart(b, m)
  }

  ghost function BusStep(b: Bus, m: Move): Bus
    requires BusEnabled(b, m)
  {
    Bus(if m.check.Some? then CycleCheck.Step(b.check, m.check.value) else b.check,
        if m.route.Some? then Step(b.net, m.route.value) else b.net)
  }

  /** The step keeps the two guards of the cycle check. */
  ghost predicate Guarded(b: Bus, m: Move) {
    m.check.Some? ==>
      CycleCheck.HelloFirst(b.check, m.check.value) && CycleCheck.NoQueryBetween(b.check, m.check.value)
  }

  ghost predicate BusRun(trace: seq<Bus>, moves: seq<Move>) {
    && |trace| == |moves| + 1
    && BusInit(trace[0])
    && forall i :: 0 <= i < |moves| ==> Moved(trace[i], moves[i], trace[i + 1])
  }

  ghost predicate Moved(b: Bus, m: Move, b': Bus) {
    BusEnabled(b, m) && Guarded(b, m) && b' == BusStep(b, m)
  }

  /** The run of the cycle check alone. */
  lemma {:induction false} CheckRun(trace: seq<Bus>, moves: seq<Move>, i: nat)
    returns (t: seq<CycleCheck.State>, e: seq<CycleCheck.Event>)
    requires BusRun(trace, moves) && i < |trace|
    ensures CycleSafety.GuardedRun(t, e) && t[|e|] == trace[i].check
    decreases i
  {
    if i == 0 {
      t, e := [trace[0].check], [];
    } else {
      t, e := CheckRun(trace, moves, i - 1);
      assert Moved(trace[i - 1], moves[i - 1], trace[i - 1 + 1]);
      var m := moves[i - 1];
      if m.check.Some? {
        LongerCheck(t, e, m.check.value, trace[i].check);
        t, e := t + [trace[i].check], e + [m.check.value];
      }
    }
  }

  lemma LongerCheck(t: seq<CycleCheck.State>, e: seq<CycleCheck.Event>, x: CycleCheck.Event, s: CycleCheck.State)
    requires CycleSafety.GuardedRun(t, e) && CycleCheck.Enabled(t[|e|], x) && s == CycleCheck.Step(t[|e|], x)
    requires CycleCheck.HelloFirst(t[|e|], x) && CycleCheck.NoQueryBetween(t[|e|], x)
    ensures CycleSafety.GuardedRun(t + [s], e + [x]) && (t + [s])[|e| + 1] == s
  {
    var t', e' := t + [s], e + [x];
    forall i | 0 <= i < |e'|
      ensures CycleCheck.Enabled(t'[i], e'[i]) && t'[i + 1] == CycleCheck.Step(t'[i], e'[i])
      ensures CycleCheck.HelloFirst(t'[i], e'[i]) && CycleCheck.NoQueryBetween(t'[i], e'[i])
    {
      if i < |e| {
        assert t'[i] == t[i] && t'[i + 1] == t[i + 1] && e'[i] == e[i];
      }
    }
  }

  /** The run of routing alone. */
  lemma {:induction false} RouteRun(trace: seq<Bus>, moves: seq<Move>, i: nat)
    returns (t: seq<Net>, e: seq<Event>)
    requires BusRun(trace, moves) && i < |trace|
    ensures Run(t, e) && t[|e|] == trace[i].net
    decreases i
  {
    if i == 0 {
      t, e := [trace[0].net], [];
    } else {
      t, e := RouteRun(trace, moves, i - 1);
      assert Moved(trace[i - 1], moves[i - 1], trace[i - 1 + 1]);
      var m := moves[i - 1];
      if m.route.Some? {
        LongerRoute(t, e, m.route.value, trace[i].net);
        t, e := t + [trace[i].net], e + [m.route.value];
      }
    }
  }

  lemma LongerRoute(t: seq<Net>, e: seq<Event>, x: Event, net: Net)
    requires Run(t, e) && Enabled(t[|e|], x) && net == Step(t[|e|], x)
    ensures Run(t + [net], e + [x]) && (t + [net])[|e| + 1] == net
  {
    var t', e' := t + [net], e + [x];
    forall i | 0 <= i < |e'| ensures Enabled(t'[i], e'[i]) && t'[i + 1] == Step(t'[i], e'[i]) {
      if i < |e| {
        assert t'[i] == t[i] && t'[i + 1] == t[i + 1] && e'[i] == e[i];
      }
    }
  }

  lemma ChangesAgree(b: Bus, b': Bus, change: Change)
    requires Agree(b) && CheckChanged(b.check, b'.check, change) && RouteChanged(b.net, b'.net, change)
    ensures Agree(b')
  {
  }

  lemma StepAgrees(b: Bus, m: Move)
    requires Agree(b) && Inv(b.net) && LeftInv(b.net) && BusEnabled(b, m)
    ensures Agree(BusStep(b, m))
  {
    var b' := BusStep(b, m);
    if m.check.Some? {
      CheckMoves(b.check, m.check.value);
    } else {
      assert CheckChanged(b.check, b'.check, Same);
    }
    if m.route.Some? {
      RouteMoves(b.net, m.route.value);
    } else {
      NothingChanges(b.net, b'.net);
    }
    ChangesAgree(b, b', CheckPart(b, m));
  }

  lemma {:induction false} AgreeAlways(trace: seq<Bus>, moves: seq<Move>, i: nat)
    requires BusRun(trace, moves) && i < |trace|
    ensures Agree(trace[i])
    decreases i
  {
    if i > 0 {
      AgreeAlways(trace, moves, i - 1);
      assert Moved(trace[i - 1], moves[i - 1], trace[i - 1 + 1]);
      var t, e := RouteRun(trace, moves, i - 1);
      Invariant(t, e, |e|);
      StepAgrees(trace[i - 1], moves[i - 1]);
    }
  }

  // --- the links form a forest ---------------------------------------------------------------------

  /** The live links between nodes are in use, once no connection is pending. */
  lemma NodeLinksActive(b: Bus, l: Link)
    requires Agree(b) && Inv(b.net) && Idle(b.net) && l in LiveLinks(b.net) && l.a in b.net.routers
    ensures l in CycleCheck.ActiveLinks(b.check)
  {
    var up, down := Conn(l, true), Conn(l, false);
    ListedAtRouter(b.net, up);
    assert LinkOk(b.net, l);
    ListedAtRouter(b.net, down);
    assert up in NodeConns(b.net, l.a) && down in NodeConns(b.net, l.b);
    assert l in NodeLinks(b.net);
  }

  function ClientLinks(net: Net): set<Link> {
    set l | l in LiveLinks(net) && l.a !in net.routers
  }

  /** A client has one link, so its links are leaves. */
  lemma {:induction false} PlusLeaves(E: set<Link>, leaves: set<Link>)
    requires Forest(E) && forall l :: l in leaves ==> l !in E && l.a != l.b && forall e :: e in E ==> !e.At(l.a)
    requires forall l, k :: l in leaves && k in leaves && l != k ==> !k.At(l.a)
    ensures Forest(E + leaves)
    decreases leaves
  {
    if leaves == {} {
      assert E + leaves == E;
    } else {
      var l := Any(leaves);
      PlusLeaves(E, leaves - {l});
      var F := E + (leaves - {l});
      Isolated(F, l.a, l.b);
      ForestPlusEdge(F, l);
      assert F + {l} == E + leaves;
    }
  }

  lemma ClientLinksAreLeaves(net: Net, l: Link, k: Link)
    requires Shape(net) && l in ClientLinks(net) && k in LiveLinks(net) && k != l
    ensures !k.At(l.a) && l.a != l.b
  {
    assert LinkOk(net, k) && LinkOk(net, l);
    assert Conn(l, true) in net.clientConns;
    assert l.a in net.clients;
    if k.a == l.a {
      assert false;
    }
  }

  lemma ClientLinkEnds(net: Net, l: Link)
    requires Shape(net) && l in ClientLinks(net)
    ensures l.a != l.b
  {
    assert LinkOk(net, l);
  }

  lemma AgreedForest(b: Bus)
    requires Agree(b) && Inv(b.net) && Idle(b.net) && Forest(CycleCheck.ActiveLinks(b.check))
    ensures Forest(LiveLinks(b.net))
  {
    var E := LiveLinks(b.net) - ClientLinks(b.net);
    forall l | l in E ensures l in CycleCheck.ActiveLinks(b.check) {
      NodeLinksActive(b, l);
    }
    SubForest(E, CycleCheck.ActiveLinks(b.check));
    forall l, k | l in ClientLinks(b.net) && k in LiveLinks(b.net) && k != l ensures !k.At(l.a) {
      ClientLinksAreLeaves(b.net, l, k);
    }
    forall l | l in ClientLinks(b.net) ensures l.a != l.b {
      ClientLinkEnds(b.net, l);
    }
    PlusLeaves(E, ClientLinks(b.net));
    assert E + ClientLinks(b.net) == LiveLinks(b.net);
  }

  /** However connections are made, checked, accepted and lost while messages are routed, as long as
      both guards are kept: whenever the bus is idle, its links form a forest. */
  lemma IdleBusIsForest(trace: seq<Bus>, moves: seq<Move>, i: nat)
    requires BusRun(trace, moves) && i < |trace| && Idle(trace[i].net)
    ensures Forest(LiveLinks(trace[i].net))
  {
    var t, e := CheckRun(trace, moves, i);
    CycleSafety.ActiveLinksFormForest(t, e, |e|);
    var u, f := RouteRun(trace, moves, i);
    Invariant(u, f, |f|);
    AgreeAlways(trace, moves, i);
    AgreedForest(trace[i]);
  }

  /** So an idle bus in which no decision has been overtaken is quiet: publishes are routed on it as
      `Delivery` says. */
  lemma IdleBusIsQuiet(trace: seq<Bus>, moves: seq<Move>, i: nat)
    requires BusRun(trace, moves) && i < |trace| && Idle(trace[i].net) && InOrder(trace[i].net)
    ensures Quiet(trace[i].net)
  {
    var t, e := RouteRun(trace, moves, i);
    Invariant(t, e, |e|);
    IdleBusIsForest(trace, moves, i);
  }

  /** And the tables of an idle bus are exact if and only if no lost connection has kept a tag in
      the run of routing that led there and no decision has been overtaken. */
  lemma ExactBusIff(trace: seq<Bus>, moves: seq<Move>, i: nat) returns (t: seq<Net>, e: seq<Event>)
    requires BusRun(trace, moves) && i < |trace| && Idle(trace[i].net)
    ensures Run(t, e) && t[|e|] == trace[i].net
    ensures Exact(trace[i].net) <==> InOrder(trace[i].net) && forall c, s :: !Kept(t, e, |e|, c, s)
  {
    t, e := RouteRun(trace, moves, i);
    IdleBusIsForest(trace, moves, i);
    ExactIff(t, e, |e|);
  }
}
