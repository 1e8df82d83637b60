/** No message is lost on its way through a node, and every publish goes where it should, in every
    run: also while a connection is pending, while what was kept of it is handled, and while others
    are lost. */
module Arrivals {
  import opened Links
  import opened Results
  import opened Subjects
  import opened Routing
  import opened RoutingInvariant
  import opened RoutingRuns
  import LostTags

  // --- what a step reads and handles --------------------------------------------------------------

  /** The step reads the first message on its way to `x`. */
  ghost predicate Reads(net: Net, e: Event, x: Conn) {
    && x in net.chan && net.chan[x] != []
    && match e
       case Receive(c, _) => c == x
       case Fail(c, over) => over && c == x
       case ReadOn(c, _) => c == x && c in net.lost.loss && !net.lost.loss[c].closed
       case _ => false
  }

  ghost function ReadIn(net: Net, e: Event, x: Conn): seq<Message> {
    if Reads(net, e, x) then [net.chan[x][0]] else []
  }

  ghost function ChanOf(net: Net, x: Conn): seq<Message> {
    if x in net.chan then net.chan[x] else []
  }

  ghost predicate AtNode(net: Net, c: Conn) {
    AtRouter(net, c) && c in net.routers[c.Node()].conns
  }

  ghost function HeldNow(net: Net, c: Conn): seq<Message> {
    if AtRouter(net, c) then HeldAt(net.routers[c.Node()], c) else []
  }

  /** The message that a node handles in the step, and the connection on which it came. */
  ghost function Handling(net: Net, e: Event): Option<(Conn, Message)>
    requires Enabled(net, e)
  {
    match e
    case Receive(c, _) =>
      if AtRouter(net, c) && c !in net.routers[c.Node()].held then Some((c, net.chan[c][0])) else None
    case Drain(c, _) => Some((c, net.routers[c.Node()].held[c][0]))
    case ReadOn(c, _) => Some((c, NextOf(net, c)))
    case _ => None
  }

  ghost function HandledIn(net: Net, e: Event, c: Conn): seq<Message>
    requires Enabled(net, e)
  {
    match Handling(net, e)
    case None => []
    case Some((d, m)) => if d == c then [m] else []
  }

  // --- what is kept of a connection ---------------------------------------------------------------

  /** If `c` is on its list afterwards, it was before, and what is held of it is the same. */
  ghost predicate KeepsHeld(net: Net, net': Net, c: Conn) {
    AtNode(net', c) ==> AtNode(net, c) && HeldNow(net', c) == HeldNow(net, c)
  }

  lemma UnlistHeld(net: Net, d: Conn, task: Task, c: Conn)
    requires AtRouter(net, d)
    ensures KeepsHeld(net, Unlist(net, d, task), c) && !AtNode(Unlist(net, d, task), d)
  {
  }

  lemma SpreadHeld(net: Net, task: Task, send: Send, stop: Option<Stop>, c: Conn)
    requires StopOk(net, send, stop)
    ensures KeepsHeld(net, Spread(net, task, send, stop), c)
  {
    match stop
    case None =>
    case Some(Stop(at, late)) =>
      var net1 := Queue(net, Send(send.to - late - {at}, send.message))
                  .(stalled := if late == {} then net.stalled
                               else net.stalled + [Fanout(task, at, Send(late, send.message))]);
      UnlistHeld(net1, at, task, c);
  }

  lemma CarryHeld(net: Net, task: Task, d: Conn, r': Router, send: Send, stop: Option<Stop>, c: Conn)
    requires AtRouter(net, d) && StopOk(net, send, stop)
    requires r'.conns == net.routers[d.Node()].conns && r'.held == net.routers[d.Node()].held
    ensures KeepsHeld(net, Carry(net, task, d, r', send, stop), c)
  {
    SpreadHeld(Decide(SetRouter(net, d.Node(), r'), send), task, send, stop, c);
  }

  lemma HandleLists(r: Router, c: Conn, m: Message)
    ensures Handle(r, c, m).0.conns == r.conns && Handle(r, c, m).0.held == r.held
  {
  }

  lemma ProcessHeld(net: Net, task: Task, d: Conn, m: Message, stop: Option<Stop>, c: Conn)
    requires AtRouter(net, d) && StopOk(net, Response(net, d, m).1, stop)
    ensures KeepsHeld(net, Process(net, task, d, m, stop), c)
  {
    var (r', send) := Response(net, d, m);
    HandleLists(net.routers[d.Node()], d, m);
    CarryHeld(net, task, d, r', send, stop, c);
  }

  /** What was handled, and is held now, is what was held, and was read. */
  ghost predicate Balanced(net: Net, net': Net, handled: seq<Message>, read: seq<Message>, c: Conn) {
    AtNode(net, c) && handled + HeldNow(net', c) == HeldNow(net, c) + read
  }

  /** `c` has just come on its list. */
  ghost predicate Appears(net: Net, net': Net, handled: seq<Message>, read: seq<Message>, c: Conn) {
    !Born(net, c) && handled == [] && read == [] && HeldNow(net', c) == []
  }

  /** The link of `c` has come to its node. */
  ghost predicate Born(net: Net, c: Conn) {
    if c.up then c.link in net.made else c.link in net.arrived
  }

  lemma NothingHandled(net: Net, net': Net, c: Conn)
    requires KeepsHeld(net, net', c) && AtNode(net', c)
    ensures Balanced(net, net', [], [], c)
  {
  }

  function If(b: bool, m: Message): seq<Message> {
    if b then [m] else []
  }

  lemma UnheldBalanced(net: Net, d: Conn, stop: Option<Stop>, c: Conn)
    requires AtNode(net, d) && d in net.chan && net.chan[d] != [] && d !in net.routers[d.Node()].held
    requires var m := net.chan[d][0]; StopOk(net, Response(net, d, m).1, stop)
    requires AtNode(Process(Pop(net, d), Relay(d), d, net.chan[d][0], stop), c)
    ensures var m := net.chan[d][0];
            Balanced(net, Process(Pop(net, d), Relay(d), d, m, stop), If(c == d, m), If(c == d, m), c)
  {
    PopResponse(net, d, net.chan[d][0], stop);
    ProcessHeld(Pop(net, d), Relay(d), d, net.chan[d][0], stop, c);
  }

  lemma HeldBalanced(net: Net, d: Conn, m: Message, c: Conn)
    requires AtNode(net, d) && d in net.routers[d.Node()].held && AtNode(net, c)
    requires d in net.chan && net.chan[d] != [] && m == net.chan[d][0]
    ensures var r := net.routers[d.Node()];
            Balanced(net, SetRouter(Pop(net, d), d.Node(), r.(held := r.held[d := r.held[d] + [m]])), [],
                     If(c == d, m), c)
  {
  }

  lemma DrainBalanced(net: Net, d: Conn, m: Message, stop: Option<Stop>, c: Conn)
    requires AtNode(net, d) && d in net.routers[d.Node()].held && net.routers[d.Node()].held[d] != []
    requires m == net.routers[d.Node()].held[d][0] && StopOk(net, Response(net, d, m).1, stop)
    requires AtNode(Process(Unheld(net, d), Checker(d), d, m, stop), c)
    ensures Balanced(net, Process(Unheld(net, d), Checker(d), d, m, stop), If(c == d, m), [], c)
  {
    UnheldResponse(net, d, m, stop);
    ProcessHeld(Unheld(net, d), Checker(d), d, m, stop, c);
    UnheldIs(net, d, m, c);
  }

  lemma UnheldIs(net: Net, d: Conn, m: Message, c: Conn)
    requires AtRouter(net, d) && d in net.routers[d.Node()].held && net.routers[d.Node()].held[d] != []
    requires m == net.routers[d.Node()].held[d][0]
    ensures AtNode(Unheld(net, d), c) <==> AtNode(net, c)
    ensures HeldNow(net, c) == If(c == d, m) + HeldNow(Unheld(net, d), c)
  {
  }

  /** A lost connection reads on, and that of another is not touched. */
  lemma ReadOnBalanced(net: Net, d: Conn, m: Message, stop: Option<Stop>, c: Conn)
    requires HasNext(net, d) && !AtNode(net, d) && StopOk(net, Response(net, d, m).1, stop)
    requires AtNode(Process(TakeNext(net, d), Relay(d), d, m, stop), c)
    ensures c != d && Balanced(net, Process(TakeNext(net, d), Relay(d), d, m, stop), [], [], c)
  {
    TakeNextSends(net, d, m, stop);
    ProcessHeld(TakeNext(net, d), Relay(d), d, m, stop, c);
  }

  lemma ForgetBalanced(net: Net, task: Task, d: Conn, s: Subject, stop: Option<Stop>, c: Conn)
    requires AtRouter(net, d) && StopOk(net, Removal(net, d, s).1, stop)
    requires var (r', send) := Removal(net, d, s);
             AtNode(Carry(Removed(net, {Tag(d, s)}), task, d, r', send, stop), c)
    ensures var (r', send) := Removal(net, d, s);
            Balanced(net, Carry(Removed(net, {Tag(d, s)}), task, d, r', send, stop), [], [], c)
  {
    var (r', send) := Removal(net, d, s);
    RemovedSends(net, d, s, stop);
    CarryHeld(Removed(net, {Tag(d, s)}), task, d, r', send, stop, c);
  }

  lemma ResumeBalanced(net: Net, i: nat, stop: Option<Stop>, c: Conn)
    requires i < |net.stalled| && StopOk(net, OnOpen(net, net.stalled[i].rest), stop)
    requires AtNode(Spread(Unstall(net, i), net.stalled[i].task, OnOpen(net, net.stalled[i].rest), stop), c)
    ensures Balanced(net, Spread(Unstall(net, i), net.stalled[i].task, OnOpen(net, net.stalled[i].rest), stop),
                     [], [], c)
  {
    SpreadHeld(Unstall(net, i), net.stalled[i].task, OnOpen(net, net.stalled[i].rest), stop, c);
  }

  // --- what is kept, at every step ------------------------------------------------------------------

  ghost predicate StepOk(net: Net, e: Event, c: Conn)
    requires Enabled(net, e)
  {
    || Balanced(net, Step(net, e), HandledIn(net, e, c), ReadIn(net, e, c), c)
    || Appears(net, Step(net, e), HandledIn(net, e, c), ReadIn(net, e, c), c)
  }

  lemma ReceiveUnheldOk(net: Net, d: Conn, stop: Option<Stop>, c: Conn)
    requires Enabled(net, Receive(d, stop)) && AtNode(Step(net, Receive(d, stop)), c)
    requires AtNode(net, d) && d !in net.routers[d.Node()].held
    ensures StepOk(net, Receive(d, stop), c)
  {
    UnheldBalanced(net, d, stop, c);
  }

  lemma ReceiveHeldOk(net: Net, d: Conn, stop: Option<Stop>, c: Conn)
    requires Enabled(net, Receive(d, stop)) && AtNode(Step(net, Receive(d, stop)), c)
    requires AtNode(net, d) && d in net.routers[d.Node()].held
    ensures StepOk(net, Receive(d, stop), c)
  {
    HeldBalanced(net, d, net.chan[d][0], c);
  }

  lemma ReceiveOk(net: Net, d: Conn, stop: Option<Stop>, c: Conn)
    requires Enabled(net, Receive(d, stop)) && AtNode(Step(net, Receive(d, stop)), c)
    requires AtRouter(net, d) ==> AtNode(net, d)
    ensures StepOk(net, Receive(d, stop), c)
  {
    if !AtRouter(net, d) {
      NothingHandled(net, Pop(net, d), c);
    } else if d in net.routers[d.Node()].held {
      ReceiveHeldOk(net, d, stop, c);
    } else {
      ReceiveUnheldOk(net, d, stop, c);
    }
  }

  lemma DrainOk(net: Net, d: Conn, stop: Option<Stop>, c: Conn)
    requires Enabled(net, Drain(d, stop)) && AtNode(Step(net, Drain(d, stop)), c) && AtNode(net, d)
    ensures StepOk(net, Drain(d, stop), c)
  {
    DrainBalanced(net, d, net.routers[d.Node()].held[d][0], stop, c);
  }

  lemma ReadOnOk(net: Net, d: Conn, stop: Option<Stop>, c: Conn)
    requires LossInv(net) && Enabled(net, ReadOn(d, stop)) && AtNode(Step(net, ReadOn(d, stop)), c)
    ensures StepOk(net, ReadOn(d, stop), c)
  {
    LossIsOld(net, d);
    ReadOnBalanced(net, d, NextOf(net, d), stop, c);
  }

  lemma ForgetOk(net: Net, d: Conn, s: Subject, stop: Option<Stop>, c: Conn)
    requires Enabled(net, Forget(d, s, stop)) && AtNode(Step(net, Forget(d, s, stop)), c)
    ensures StepOk(net, Forget(d, s, stop), c)
  {
    ForgetBalanced(net, net.lost.loss[d].task, d, s, stop, c);
  }

  lemma FailOk(net: Net, d: Conn, over: bool, c: Conn)
    requires Enabled(net, Fail(d, over)) && AtNode(Step(net, Fail(d, over)), c)
    ensures StepOk(net, Fail(d, over), c)
  {
    UnlistHeld(if over then Pop(net, d) else net, d, Relay(d), c);
    NothingHandled(net, Step(net, Fail(d, over)), c);
  }

  lemma LoseOk(net: Net, d: Conn, c: Conn)
    requires Enabled(net, Lose(d)) && AtNode(Step(net, Lose(d)), c)
    ensures StepOk(net, Lose(d), c)
  {
    if d !in net.clientConns {
      UnlistHeld(net, d, Other, c);
    }
    NothingHandled(net, Step(net, Lose(d)), c);
  }

  lemma DrainedOk(net: Net, d: Conn, c: Conn)
    requires Enabled(net, Drained(d)) && AtNode(Step(net, Drained(d)), c)
    ensures StepOk(net, Drained(d), c)
  {
    NothingHandled(net, Step(net, Drained(d)), c);
  }

  /** The step changes no list, and nothing that is held. */
  lemma RestOk(net: Net, e: Event, c: Conn)
    requires Enabled(net, e) && AtNode(Step(net, e), c)
    requires e.ClientConnect? || e.ClientSend? || e.GiveUp? || e.Shut? || e.Abandon?
    ensures StepOk(net, e, c)
  {
    NothingHandled(net, Step(net, e), c);
  }

  lemma EstablishOk(net: Net, l: Link, c: Conn)
    requires Enabled(net, Establish(l)) && AtNode(Step(net, Establish(l)), c)
    ensures StepOk(net, Establish(l), c)
  {
    if c != Conn(l, true) {
      NothingHandled(net, Step(net, Establish(l)), c);
    }
  }

  lemma ArriveOk(net: Net, l: Link, order: seq<Subject>, c: Conn)
    requires Enabled(net, Arrive(l, order)) && AtNode(Step(net, Arrive(l, order)), c)
    requires Conn(l, false) !in net.routers[l.b].held
    ensures StepOk(net, Arrive(l, order), c)
  {
    var d, r := Conn(l, false), net.routers[l.b];
    var net1 := SetRouter(net, l.b, r.(conns := r.conns + {d})).(arrived := net.arrived + {l});
    TellAllOnly(net1, d, order);
    if c != d {
      NothingHandled(net, TellAll(net1, d, order), c);
    }
  }

  lemma ActivateOk(net: Net, d: Conn, order: seq<Subject>, c: Conn)
    requires Enabled(net, Activate(d, order)) && AtNode(Step(net, Activate(d, order)), c)
    ensures StepOk(net, Activate(d, order), c)
  {
    var r := net.routers[d.Node()];
    var net1 := SetRouter(net, d.Node(), r.(pending := r.pending - {d}));
    TellAllOnly(net1, d, order);
    NothingHandled(net, TellAll(net1, d, order), c);
  }

  ghost predicate Messages(e: Event) {
    e.Receive? || e.Drain? || e.ReadOn? || e.Forget? || e.Resume?
  }

  lemma MessageBalanced(net: Net, e: Event, c: Conn)
    requires Shape(net) && LossInv(net) && Enabled(net, e) && AtNode(Step(net, e), c) && Messages(e)
    ensures StepOk(net, e, c)
  {
    if e.Receive? {
      if AtRouter(net, e.conn) {
        ListedAtRouter(net, e.conn);
      }
      ReceiveOk(net, e.conn, e.stop, c);
    } else if e.Drain? {
      HeldConn(net, e.conn);
      DrainOk(net, e.conn, e.stop, c);
    } else if e.ReadOn? {
      ReadOnOk(net, e.conn, e.stop, c);
    } else if e.Forget? {
      ForgetOk(net, e.conn, e.subject, e.stop, c);
    } else {
      ResumeOk(net, e.index, e.stop, c);
    }
  }

  lemma ListBalanced(net: Net, e: Event, c: Conn)
    requires Shape(net) && Enabled(net, e) && AtNode(Step(net, e), c) && !Messages(e)
    ensures StepOk(net, e, c)
  {
    if e.Lose? {
      LoseOk(net, e.conn, c);
    } else if e.Fail? {
      FailOk(net, e.conn, e.over, c);
    } else if e.Establish? {
      EstablishOk(net, e.link, c);
    } else if e.Arrive? {
      NotHeldYet(net, e.link);
      ArriveOk(net, e.link, e.order, c);
    } else if e.Activate? {
      ActivateOk(net, e.conn, e.order, c);
    } else if e.Drained? {
      DrainedOk(net, e.conn, c);
    } else {
      RestOk(net, e, c);
    }
  }

  lemma StepBalanced(net: Net, e: Event, c: Conn)
    requires Shape(net) && LossInv(net) && Enabled(net, e) && AtNode(Step(net, e), c)
    ensures StepOk(net, e, c)
  {
    if Messages(e) {
      MessageBalanced(net, e, c);
    } else {
      ListBalanced(net, e, c);
    }
  }

  lemma NotHeldYet(net: Net, l: Link)
    requires Shape(net) && l !in net.arrived && l.b in net.routers
    ensures Conn(l, false) !in net.routers[l.b].held
  {
    assert RouterOk(net, l.b, net.routers[l.b]);
  }

  lemma ResumeOk(net: Net, i: nat, stop: Option<Stop>, c: Conn)
    requires Enabled(net, Resume(i, stop)) && AtNode(Step(net, Resume(i, stop)), c)
    ensures StepOk(net, Resume(i, stop), c)
  {
    ResumeBalanced(net, i, stop, c);
  }

  // --- every run --------------------------------------------------------------------------------------

  /** What was read of what came to `c`, in the first `i` steps. */
  ghost function ReadBy(trace: seq<Net>, events: seq<Event>, i: nat, c: Conn): seq<Message>
    requires Run(trace, events) && i <= |events|
  {
    if i == 0 then [] else ReadBy(trace, events, i - 1, c) + ReadIn(trace[i - 1], events[i - 1], c)
  }

  /** What the node of `c` handled of it. */
  ghost function HandledBy(trace: seq<Net>, events: seq<Event>, i: nat, c: Conn): seq<Message>
    requires Run(trace, events) && i <= |events|
  {
    if i == 0 then [] else HandledBy(trace, events, i - 1, c) + HandledIn(trace[i - 1], events[i - 1], c)
  }

  lemma NotBornNowhere(net: Net, c: Conn)
    requires Shape(net) && LossInv(net) && !Born(net, c)
    ensures !Listed(net, c) && c !in net.lost.loss && (AtRouter(net, c) ==> c !in net.routers[c.Node()].held)
  {
    if AtRouter(net, c) {
      assert RouterOk(net, c.Node(), net.routers[c.Node()]);
    }
    if c in net.lost.loss {
      LossIsOld(net, c);
    }
  }

  /** Nothing is read or handled of a connection that is nowhere. */
  lemma NowhereIdle(net: Net, e: Event, c: Conn)
    requires Enabled(net, e) && !Listed(net, c) && c !in net.lost.loss
    requires AtRouter(net, c) ==> c !in net.routers[c.Node()].held
    ensures ReadIn(net, e, c) == [] && HandledIn(net, e, c) == []
  {
    if e.Receive? || e.Fail? {
    } else if e.Drain? {
    } else if e.ReadOn? {
    }
  }

  lemma NotBornIdle(net: Net, e: Event, c: Conn)
    requires Shape(net) && LossInv(net) && Enabled(net, e) && !Born(net, c)
    ensures ReadIn(net, e, c) == [] && HandledIn(net, e, c) == []
  {
    NotBornNowhere(net, c);
    NowhereIdle(net, e, c);
  }

  /** Links stay made and arrived. */
  lemma BornStays(net: Net, e: Event, c: Conn)
    requires Enabled(net, e) && Born(net, c)
    ensures Born(Step(net, e), c)
  {
    if e.Arrive? {
      TellAllOnly(Arrived(net, e.link), Conn(e.link, false), e.order);
    } else if e.Activate? {
      var r := net.routers[e.conn.Node()];
      TellAllOnly(SetRouter(net, e.conn.Node(), r.(pending := r.pending - {e.conn})), e.conn, e.order);
    }
  }

  lemma NothingYet(trace: seq<Net>, events: seq<Event>, j: nat, c: Conn)
    requires Run(trace, events) && j < |events| && !Born(trace[j + 1], c)
    ensures Enabled(trace[j], events[j]) && !Born(trace[j], c)
    ensures ReadIn(trace[j], events[j], c) == [] && HandledIn(trace[j], events[j], c) == []
  {
    Invariant(trace, events, j);
    assert Enabled(trace[j], events[j]) && trace[j + 1] == Step(trace[j], events[j]);
    if Born(trace[j], c) {
      BornStays(trace[j], events[j], c);
    }
    NotBornIdle(trace[j], events[j], c);
  }

  lemma {:induction false} NothingBefore(trace: seq<Net>, events: seq<Event>, i: nat, c: Conn)
    requires Run(trace, events) && i < |trace| && !Born(trace[i], c)
    ensures ReadBy(trace, events, i, c) == [] && HandledBy(trace, events, i, c) == []
  {
    if i > 0 {
      NothingYet(trace, events, i - 1, c);
      NothingBefore(trace, events, i - 1, c);
    }
  }

  /** One step more of handled, held and read. */
  lemma NextBalance(net: Net, net': Net, h: seq<Message>, r: seq<Message>, c: Conn, handled: seq<Message>,
                    read: seq<Message>)
    requires Balanced(net, net', h, r, c) && handled + HeldNow(net, c) == read
    ensures handled + h + HeldNow(net', c) == read + r
  {
    assert handled + h + HeldNow(net', c) == handled + (h + HeldNow(net', c));
    assert handled + (HeldNow(net, c) + r) == handled + HeldNow(net, c) + r;
  }

  lemma NextStep(trace: seq<Net>, events: seq<Event>, j: nat, c: Conn)
    requires Run(trace, events) && j < |events| && AtNode(trace[j + 1], c)
    ensures Enabled(trace[j], events[j])
    ensures var h, r := HandledIn(trace[j], events[j], c), ReadIn(trace[j], events[j], c);
            || Balanced(trace[j], trace[j + 1], h, r, c)
            || Appears(trace[j], trace[j + 1], h, r, c)
  {
    Invariant(trace, events, j);
    assert Enabled(trace[j], events[j]) && trace[j + 1] == Step(trace[j], events[j]);
    StepBalanced(trace[j], events[j], c);
  }

  lemma {:induction false} AllHandledOrHeld(trace: seq<Net>, events: seq<Event>, i: nat, c: Conn)
    requires Run(trace, events) && i < |trace| && AtNode(trace[i], c)
    ensures HandledBy(trace, events, i, c) + HeldNow(trace[i], c) == ReadBy(trace, events, i, c)
  {
    if i > 0 {
      var j := i - 1;
      NextStep(trace, events, j, c);
      var h, r := HandledIn(trace[j], events[j], c), ReadIn(trace[j], events[j], c);
      if Balanced(trace[j], trace[i], h, r, c) {
        AllHandledOrHeld(trace, events, j, c);
        NextBalance(trace[j], trace[i], h, r, c, HandledBy(trace, events, j, c), ReadBy(trace, events, j, c));
      } else {
        NothingBefore(trace, events, j, c);
      }
    }
  }

  /** In every state of every run, what a node has handled of what it has read on a connection, and
      what it keeps of it, is what it has read: all of it, once, in order, publishes included. */
  lemma HandledOrHeld(trace: seq<Net>, events: seq<Event>, i: nat, n: NodeId, c: Conn)
    requires Run(trace, events) && i < |trace| && n in trace[i].routers && c in trace[i].routers[n].conns
    ensures HandledBy(trace, events, i, c) + HeldAt(trace[i].routers[n], c) == ReadBy(trace, events, i, c)
  {
    Invariant(trace, events, i);
    HomeConn(trace[i], n, c);
    AllHandledOrHeld(trace, events, i, c);
  }

  // --- after a connection is lost ---------------------------------------------------------------------

  /** Of a lost connection, messages are read and handled by its relay loop alone. */
  lemma LostIdle(net: Net, e: Event, c: Conn)
    requires Enabled(net, e) && !Listed(net, c) && !(e.ReadOn? && e.conn == c)
    requires AtRouter(net, c) ==> c !in net.routers[c.Node()].held
    ensures ReadIn(net, e, c) == [] && HandledIn(net, e, c) == []
  {
    if e.Receive? || e.Fail? {
    } else if e.Drain? {
    } else if e.ReadOn? {
    }
  }

  lemma LateRead(net: Net, c: Conn, stop: Option<Stop>)
    requires Enabled(net, ReadOn(c, stop))
    ensures HandledIn(net, ReadOn(c, stop), c)
            == (if net.lost.loss[c].closed then [net.lost.loss[c].unread[0]] else ReadIn(net, ReadOn(c, stop), c))
    ensures net.lost.loss[c].closed ==> ReadIn(net, ReadOn(c, stop), c) == []
  {
  }

  lemma LostNowhere(net: Net, c: Conn)
    requires Shape(net) && LossInv(net) && c in net.lost.loss
    ensures !Listed(net, c) && AtRouter(net, c) && c !in net.routers[c.Node()].held
  {
    LossIsOld(net, c);
    assert RouterOk(net, c.Node(), net.routers[c.Node()]);
  }

  /** What is handled and still buffered is what was buffered and what is read. */
  ghost predicate LateBalanced(l: Loss, l': Loss, handled: seq<Message>, read: seq<Message>) {
    handled + l'.unread == l.unread + read
  }

  lemma LateBalance(net: Net, net': Net, c: Conn, stop: Option<Stop>)
    requires Enabled(net, ReadOn(c, stop)) && LostTags.LossNext(net, ReadOn(c, stop), net', c)
    requires !net.lost.loss[c].closed ==> net.lost.loss[c].unread == []
    ensures LateBalanced(net.lost.loss[c], net'.lost.loss[c], HandledIn(net, ReadOn(c, stop), c),
                         ReadIn(net, ReadOn(c, stop), c))
  {
    LateRead(net, c, stop);
  }

  /** Of a lost connection, too, what is handled is what was read or buffered, in order; and when it
      is closed, the first part of what was on its way is buffered if its own relay loop drops it. */
  lemma LostReadsOn(net: Net, e: Event, c: Conn)
    requires Inv(net) && LeftInv(net) && Enabled(net, e) && c in net.lost.loss
    ensures c in Step(net, e).lost.loss
    ensures var l, l' := net.lost.loss[c], Step(net, e).lost.loss[c];
            if e.Shut? && e.conn == c
            then l'.unread == if l.task == Relay(c) then net.chan[c][..e.buffered] else []
            else LateBalanced(l, l', HandledIn(net, e, c), ReadIn(net, e, c))
  {
    LostTags.StepNext(net, e, c);
    OpenBuffersNothing(net, c);
    LostNowhere(net, c);
    LateStep(net, e, Step(net, e), c);
  }

  lemma LateStep(net: Net, e: Event, net': Net, c: Conn)
    requires Enabled(net, e) && c in net.lost.loss && LostTags.LossNext(net, e, net', c)
    requires !net.lost.loss[c].closed ==> net.lost.loss[c].unread == []
    requires !Listed(net, c) && AtRouter(net, c) && c !in net.routers[c.Node()].held
    ensures var l, l' := net.lost.loss[c], net'.lost.loss[c];
            if e.Shut? && e.conn == c
            then l'.unread == if l.task == Relay(c) then net.chan[c][..e.buffered] else []
            else LateBalanced(l, l', HandledIn(net, e, c), ReadIn(net, e, c))
  {
    if e.ReadOn? && e.conn == c {
      LateBalance(net, net', c, e.stop);
    } else {
      LostIdle(net, e, c);
    }
  }

  lemma OpenBuffersNothing(net: Net, c: Conn)
    requires LossInv(net) && c in net.lost.loss
    ensures !net.lost.loss[c].closed ==> net.lost.loss[c].unread == []
  {
    assert RoutingRuns.LossOk(net, c);
  }
}
