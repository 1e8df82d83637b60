/** Where the publishes go, in every run on any topology: what each step puts on each channel, and
    that nothing is lost between a node's decision to send and the peer that handles it. */
module PublishFlow {
  import opened Links
  import opened Results
  import opened Sequences
  import opened Subjects
  import opened Routing
  import opened RoutingInvariant
  import opened RoutingRuns
  import opened Arrivals

  ghost function Publishes(q: seq<Message>): seq<Message> {
    if q == [] then [] else If(q[0].Publish?, q[0]) + Publishes(q[1..])
  }

  lemma {:induction false} PublishesConcat(p: seq<Message>, q: seq<Message>)
    ensures Publishes(p + q) == Publishes(p) + Publishes(q)
    decreases |p|
  {
    if p == [] {
      assert p + q == q;
    } else {
      var first := If(p[0].Publish?, p[0]);
      PublishesConcat(p[1..], q);
      assert (p + q)[1..] == p[1..] + q && (p + q)[0] == p[0];
      Regroup(first, Publishes(p[1..]), Publishes(q));
    }
  }

  lemma PublishesOne(m: Message)
    ensures Publishes([m]) == If(m.Publish?, m)
  {
    assert [m][1..] == [];
  }

  // --- what a step sends -------------------------------------------------------------------------

  /** Where a publish on `subject` from `c` goes: to the other connections of the node that subscribe
      to a subject it matches and have not been closed. */
  ghost predicate GoesTo(net: Net, c: Conn, subject: Subject, d: Conn) {
    && d != c && c.Node() in net.routers && Open(net, d)
    && exists s :: Match(subject, s) && Tag(d, s) in net.routers[c.Node()].tags
  }

  /** The fan-out drops the connection, or has stopped before it. */
  predicate HeldBack(stop: Option<Stop>, d: Conn) {
    stop.Some? && (d == stop.value.at || d in stop.value.late)
  }

  /** The publishes that the step puts on the channel to `x`. */
  ghost function SentIn(net: Net, e: Event, x: Conn): seq<Message>
    requires Enabled(net, e)
  {
    if x !in net.chan then []
    else if e.ClientSend? then If(e.message.Publish? && e.conn == x.Peer(), e.message)
    else if e.Resume? then
      var f := net.stalled[e.index].rest;
      If(f.message.Publish? && x.Peer() in f.to && Open(net, x.Peer()) && !HeldBack(e.stop, x.Peer()), f.message)
    else
      match Handling(net, e)
      case None => []
      case Some((c, m)) =>
        If(m.Publish? && GoesTo(net, c, m.subject, x.Peer()) && !HeldBack(e.stop, x.Peer()), m)
  }

  // --- what the channels get -----------------------------------------------------------------------

  /** The channel to `x` gets `sent` besides subscriptions. */
  ghost predicate Gets(net: Net, net': Net, x: Conn, sent: seq<Message>) {
    && x in net.chan && x in net'.chan
    && Publishes(net'.chan[x]) == Publishes(net.chan[x]) + sent
  }

  lemma QueueGets(net: Net, send: Send, x: Conn)
    requires x in net.chan
    ensures Gets(net, Queue(net, send), x, If(send.message.Publish? && x.Peer() in send.to, send.message))
  {
    if x.Peer() in send.to {
      PublishesConcat(net.chan[x], [send.message]);
      PublishesOne(send.message);
    }
  }

  lemma SameGets(net: Net, net': Net, x: Conn)
    requires x in net.chan && net'.chan == net.chan
    ensures Gets(net, net', x, [])
  {
  }

  lemma SpreadGets(net: Net, task: Task, send: Send, stop: Option<Stop>, x: Conn)
    requires x in net.chan && StopOk(net, send, stop)
    ensures Gets(net, Spread(net, task, send, stop), x,
                 If(send.message.Publish? && x.Peer() in send.to && !HeldBack(stop, x.Peer()), send.message))
  {
    match stop
    case None => QueueGets(net, send, x);
    case Some(Stop(at, late)) =>
      var now := Send(send.to - late - {at}, send.message);
      QueueGets(net, now, x);
      assert x.Peer() in now.to <==> x.Peer() in send.to && !HeldBack(stop, x.Peer());
  }

  lemma CarryGets(net: Net, task: Task, d: Conn, r': Router, send: Send, stop: Option<Stop>, x: Conn)
    requires x in net.chan && AtRouter(net, d) && StopOk(net, send, stop)
    requires r'.conns == net.routers[d.Node()].conns
    ensures Gets(net, Carry(net, task, d, r', send, stop), x,
                 If(send.message.Publish? && x.Peer() in send.to && !HeldBack(stop, x.Peer()), send.message))
  {
    SpreadGets(Decide(SetRouter(net, d.Node(), r'), send), task, send, stop, x);
  }

  lemma ResponseIs(net: Net, c: Conn, m: Message, d: Conn)
    requires AtRouter(net, c)
    ensures Response(net, c, m).1.message.Publish? == m.Publish?
    ensures m.Publish? ==> Response(net, c, m).1.message == m
    ensures m.Publish? ==> (d in Response(net, c, m).1.to <==> GoesTo(net, c, m.subject, d))
  {
    if m.Publish? {
      var r := net.routers[c.Node()];
      if d in r.Matching(m.subject) {
        var t :| t in r.tags && Match(m.subject, t.subject) && t.conn == d;
        assert Tag(d, t.subject) in r.tags;
      }
      if s :| Match(m.subject, s) && Tag(d, s) in r.tags {
        assert Tag(d, s).conn == d;
      }
    }
  }

  lemma ProcessGets(net: Net, task: Task, c: Conn, m: Message, stop: Option<Stop>, x: Conn)
    requires x in net.chan && AtRouter(net, c) && StopOk(net, Response(net, c, m).1, stop)
    ensures Gets(net, Process(net, task, c, m, stop), x,
                 If(m.Publish? && GoesTo(net, c, m.subject, x.Peer()) && !HeldBack(stop, x.Peer()), m))
  {
    var (r', send) := Response(net, c, m);
    HandleLists(net.routers[c.Node()], c, m);
    ResponseIs(net, c, m, x.Peer());
    CarryGets(net, task, c, r', send, stop, x);
  }

  lemma {:induction false} TellAllGets(net: Net, c: Conn, order: seq<Subject>, x: Conn)
    requires x in net.chan
    ensures Gets(net, TellAll(net, c, order), x, [])
    decreases |order|
  {
    if order != [] {
      var net1 := Post(net, Send({c}, Subscription(order[0], true)), {c});
      QueueGets(Decide(net, Send({c}, Subscription(order[0], true))), Send({c}, Subscription(order[0], true)), x);
      TellAllGets(net1, c, order[1..], x);
    }
  }

  // --- one step --------------------------------------------------------------------------------------

  /** What is on its way to `x` after the step: what was, but for what is read, and what is sent. */
  ghost predicate Flows(net: Net, net': Net, read: seq<Message>, sent: seq<Message>, x: Conn) {
    && x in net'.chan
    && Publishes(read) + Publishes(net'.chan[x]) == Publishes(ChanOf(net, x)) + sent
  }

  /** A step that first takes the first message of a channel, if `takes`. */
  lemma FlowsAfter(net: Net, net1: Net, net': Net, sent: seq<Message>, x: Conn, takes: bool)
    requires Gets(net1, net', x, sent) && x in net.chan && (takes ==> net.chan[x] != [])
    requires net1.chan[x] == if takes then net.chan[x][1..] else net.chan[x]
    ensures Flows(net, net', if takes then [net.chan[x][0]] else [], sent, x)
  {
    if takes {
      PublishesOne(net.chan[x][0]);
      assert net.chan[x] == [net.chan[x][0]] + net.chan[x][1..];
      PublishesConcat([net.chan[x][0]], net.chan[x][1..]);
    }
  }

  ghost predicate StepFlows(net: Net, e: Event, x: Conn)
    requires Enabled(net, e)
  {
    Flows(net, Step(net, e), ReadIn(net, e, x), SentIn(net, e, x), x)
  }

  lemma ReceiveUnheldFlows(net: Net, c: Conn, stop: Option<Stop>, x: Conn)
    requires Enabled(net, Receive(c, stop)) && x in net.chan
    requires AtRouter(net, c) && c !in net.routers[c.Node()].held
    ensures StepFlows(net, Receive(c, stop), x)
  {
    var m := net.chan[c][0];
    PopResponse(net, c, m, stop);
    ProcessGets(Pop(net, c), Relay(c), c, m, stop, x);
    FlowsAfter(net, Pop(net, c), Step(net, Receive(c, stop)), SentIn(net, Receive(c, stop), x), x, x == c);
  }

  lemma ReceiveFlows(net: Net, c: Conn, stop: Option<Stop>, x: Conn)
    requires Enabled(net, Receive(c, stop)) && x in net.chan
    ensures StepFlows(net, Receive(c, stop), x)
  {
    if AtRouter(net, c) && c !in net.routers[c.Node()].held {
      ReceiveUnheldFlows(net, c, stop, x);
    } else {
      SameGets(Pop(net, c), Step(net, Receive(c, stop)), x);
      FlowsAfter(net, Pop(net, c), Step(net, Receive(c, stop)), [], x, x == c);
    }
  }

  lemma DrainGets(net: Net, c: Conn, m: Message, stop: Option<Stop>, x: Conn)
    requires AtRouter(net, c) && c in net.routers[c.Node()].held && net.routers[c.Node()].held[c] != []
    requires StopOk(net, Response(net, c, m).1, stop) && x in net.chan
    ensures Flows(net, Process(Unheld(net, c), Checker(c), c, m, stop), [],
                  If(m.Publish? && GoesTo(net, c, m.subject, x.Peer()) && !HeldBack(stop, x.Peer()), m), x)
  {
    UnheldResponse(net, c, m, stop);
    ProcessGets(Unheld(net, c), Checker(c), c, m, stop, x);
    FlowsAfter(net, Unheld(net, c), Process(Unheld(net, c), Checker(c), c, m, stop),
               If(m.Publish? && GoesTo(net, c, m.subject, x.Peer()) && !HeldBack(stop, x.Peer()), m), x, false);
  }

  lemma DrainFlows(net: Net, c: Conn, stop: Option<Stop>, x: Conn)
    requires Enabled(net, Drain(c, stop)) && x in net.chan
    ensures StepFlows(net, Drain(c, stop), x)
  {
    DrainGets(net, c, net.routers[c.Node()].held[c][0], stop, x);
  }

  lemma TakeNextChan(net: Net, c: Conn, x: Conn)
    requires HasNext(net, c) && x in net.chan
    ensures x in TakeNext(net, c).chan
    ensures TakeNext(net, c).chan[x]
            == if x == c && !net.lost.loss[c].closed then net.chan[x][1..] else net.chan[x]
  {
  }

  lemma ReadOnReads(net: Net, c: Conn, stop: Option<Stop>, x: Conn)
    requires Enabled(net, ReadOn(c, stop)) && x in net.chan
    ensures ReadIn(net, ReadOn(c, stop), x) == If(x == c && !net.lost.loss[c].closed, NextOf(net, c))
  {
  }

  lemma ReadOnGets(net: Net, c: Conn, m: Message, stop: Option<Stop>, x: Conn)
    requires HasNext(net, c) && StopOk(net, Response(net, c, m).1, stop) && x in net.chan && m == NextOf(net, c)
    ensures Flows(net, Process(TakeNext(net, c), Relay(c), c, m, stop),
                  If(x == c && !net.lost.loss[c].closed, m),
                  If(m.Publish? && GoesTo(net, c, m.subject, x.Peer()) && !HeldBack(stop, x.Peer()), m), x)
  {
    TakeNextSends(net, c, m, stop);
    TakeNextChan(net, c, x);
    ProcessGets(TakeNext(net, c), Relay(c), c, m, stop, x);
    FlowsAfter(net, TakeNext(net, c), Process(TakeNext(net, c), Relay(c), c, m, stop),
               If(m.Publish? && GoesTo(net, c, m.subject, x.Peer()) && !HeldBack(stop, x.Peer()), m), x,
               x == c && !net.lost.loss[c].closed);
  }

  lemma ReadOnFlows(net: Net, c: Conn, stop: Option<Stop>, x: Conn)
    requires Enabled(net, ReadOn(c, stop)) && x in net.chan
    ensures StepFlows(net, ReadOn(c, stop), x)
  {
    ReadOnReads(net, c, stop, x);
    ReadOnGets(net, c, NextOf(net, c), stop, x);
  }

  lemma ForgetFlows(net: Net, c: Conn, s: Subject, stop: Option<Stop>, x: Conn)
    requires Enabled(net, Forget(c, s, stop)) && x in net.chan
    ensures StepFlows(net, Forget(c, s, stop), x)
  {
    var (r', send) := Removal(net, c, s);
    RemovedSends(net, c, s, stop);
    CarryGets(Removed(net, {Tag(c, s)}), net.lost.loss[c].task, c, r', send, stop, x);
    FlowsAfter(net, Removed(net, {Tag(c, s)}), Step(net, Forget(c, s, stop)), [], x, false);
  }

  lemma ResumeFlows(net: Net, i: nat, stop: Option<Stop>, x: Conn)
    requires Enabled(net, Resume(i, stop)) && x in net.chan
    ensures StepFlows(net, Resume(i, stop), x)
  {
    SpreadGets(Unstall(net, i), net.stalled[i].task, OnOpen(net, net.stalled[i].rest), stop, x);
    FlowsAfter(net, Unstall(net, i), Step(net, Resume(i, stop)), SentIn(net, Resume(i, stop), x), x, false);
  }

  lemma ClientSendFlows(net: Net, c: Conn, m: Message, x: Conn)
    requires Enabled(net, ClientSend(c, m)) && x in net.chan
    ensures StepFlows(net, ClientSend(c, m), x)
  {
    QueueGets(net, Send({c}, m), x);
    FlowsAfter(net, net, Step(net, ClientSend(c, m)), SentIn(net, ClientSend(c, m), x), x, false);
  }

  lemma JoinFlows(net: Net, e: Event, x: Conn)
    requires Enabled(net, e) && (e.Arrive? || e.Activate?) && x in net.chan
    ensures StepFlows(net, e, x)
  {
    if e.Arrive? {
      TellAllGets(Arrived(net, e.link), Conn(e.link, false), e.order, x);
    } else {
      var r := net.routers[e.conn.Node()];
      TellAllGets(SetRouter(net, e.conn.Node(), r.(pending := r.pending - {e.conn})), e.conn, e.order, x);
    }
    FlowsAfter(net, net, Step(net, e), [], x, false);
  }

  /** A new link has empty channels. */
  lemma LinkFlows(net: Net, e: Event, x: Conn)
    requires Enabled(net, e) && (e.ClientConnect? || e.Establish?) && x in Step(net, e).chan
    requires x in net.chan ==> x.link in net.made
    ensures StepFlows(net, e, x)
  {
    if x in net.chan {
      FlowsAfter(net, net, Step(net, e), [], x, false);
    }
  }

  lemma FailFlows(net: Net, c: Conn, over: bool, x: Conn)
    requires Enabled(net, Fail(c, over)) && x in net.chan
    ensures StepFlows(net, Fail(c, over), x)
  {
    var net1 := if over then Pop(net, c) else net;
    FlowsAfter(net, net1, Step(net, Fail(c, over)), [], x, over && x == c);
  }

  lemma QuietFlows(net: Net, e: Event, x: Conn)
    requires Enabled(net, e) && x in net.chan
    requires e.Drained? || e.Lose? || e.GiveUp? || e.Shut? || e.Abandon?
    ensures StepFlows(net, e, x)
  {
    FlowsAfter(net, net, Step(net, e), [], x, false);
  }

  lemma MessageFlows(net: Net, e: Event, x: Conn)
    requires Enabled(net, e) && x in net.chan && Messages(e)
    ensures StepFlows(net, e, x)
  {
    if e.Receive? {
      ReceiveFlows(net, e.conn, e.stop, x);
    } else if e.Drain? {
      DrainFlows(net, e.conn, e.stop, x);
    } else if e.ReadOn? {
      ReadOnFlows(net, e.conn, e.stop, x);
    } else if e.Forget? {
      ForgetFlows(net, e.conn, e.subject, e.stop, x);
    } else {
      ResumeFlows(net, e.index, e.stop, x);
    }
  }

  lemma {:induction false} TellAllChannels(net: Net, c: Conn, order: seq<Subject>)
    ensures TellAll(net, c, order).chan.Keys == net.chan.Keys
    decreases |order|
  {
    if order != [] {
      TellAllChannels(Post(net, Send({c}, Subscription(order[0], true)), {c}), c, order[1..]);
    }
  }

  /** No other step makes a channel. */
  lemma OldChannel(net: Net, e: Event, x: Conn)
    requires Enabled(net, e) && !e.ClientConnect? && !e.Establish? && x in Step(net, e).chan
    ensures x in net.chan
  {
    if e.Arrive? {
      TellAllChannels(Arrived(net, e.link), Conn(e.link, false), e.order);
    } else if e.Activate? {
      var r := net.routers[e.conn.Node()];
      TellAllChannels(SetRouter(net, e.conn.Node(), r.(pending := r.pending - {e.conn})), e.conn, e.order);
    }
  }

  lemma OtherFlows(net: Net, e: Event, x: Conn)
    requires Enabled(net, e) && x in net.chan && !Messages(e) && !e.ClientConnect? && !e.Establish?
    ensures StepFlows(net, e, x)
  {
    if e.ClientSend? {
      ClientSendFlows(net, e.conn, e.message, x);
    } else if e.Arrive? || e.Activate? {
      JoinFlows(net, e, x);
    } else if e.Fail? {
      FailFlows(net, e.conn, e.over, x);
    } else {
      QuietFlows(net, e, x);
    }
  }

  lemma AllFlows(net: Net, e: Event, x: Conn)
    requires LinksOk(net) && Enabled(net, e) && (x in net.chan || x in Step(net, e).chan)
    ensures StepFlows(net, e, x)
  {
    if e.ClientConnect? || e.Establish? {
      LinkFlows(net, e, x);
    } else {
      if x !in net.chan {
        OldChannel(net, e, x);
      }
      if Messages(e) {
        MessageFlows(net, e, x);
      } else {
        OtherFlows(net, e, x);
      }
    }
  }

  /** At every step, the publishes on the way to `x` are those that were, but for the one that is
      read, followed by those that the step sends: where a publish matches, and no more. */
  lemma PublishesFlow(net: Net, e: Event, x: Conn)
    requires LinksOk(net) && Enabled(net, e)
    ensures Publishes(ReadIn(net, e, x)) + Publishes(ChanOf(Step(net, e), x))
            == Publishes(ChanOf(net, x)) + SentIn(net, e, x)
  {
    if x in net.chan || x in Step(net, e).chan {
      AllFlows(net, e, x);
    }
  }

  // --- fan-outs that stop ------------------------------------------------------------------------------

  /** Who sends in the step, and what. */
  ghost function FansOut(net: Net, e: Event): Option<(Task, Message)>
    requires Enabled(net, e)
  {
    match e
    case Receive(c, _) =>
      if AtRouter(net, c) && c !in net.routers[c.Node()].held then Some((Relay(c), net.chan[c][0])) else None
    case Drain(c, _) => Some((Checker(c), net.routers[c.Node()].held[c][0]))
    case ReadOn(c, _) => Some((Relay(c), NextOf(net, c)))
    case Forget(c, s, _) => Some((net.lost.loss[c].task, Subscription(s, false)))
    case Resume(i, _) => Some((net.stalled[i].task, net.stalled[i].rest.message))
    case _ => None
  }

  function StopOfStep(e: Event): Option<Stop> {
    if e.Receive? || e.Drain? || e.ReadOn? || e.Forget? || e.Resume? then e.stop else None
  }

  /** What waits after a fan-out: if it has stopped with targets left, they wait for the one that it
      drops. */
  function Waits(task: Task, m: Message, stop: Option<Stop>): seq<Fanout> {
    if stop.Some? && stop.value.late != {} then [Fanout(task, stop.value.at, Send(stop.value.late, m))] else []
  }

  /** The connection is off its list, and `task` drops it. */
  ghost predicate StopsAt(net: Net, task: Task, stop: Option<Stop>) {
    stop.Some? ==> !Listed(net, stop.value.at) && stop.value.at in net.lost.loss
                   && net.lost.loss[stop.value.at] == Loss(task, false, [])
  }

  ghost predicate Stalls(net: Net, net': Net, task: Task, m: Message, stop: Option<Stop>) {
    net'.stalled == net.stalled + Waits(task, m, stop) && StopsAt(net', task, stop)
  }

  ghost predicate Apart(net: Net) {
    forall c :: c in net.clientConns ==> c.Node() !in net.routers
  }

  lemma ShapeApart(net: Net)
    requires Shape(net)
    ensures Apart(net)
  {
    forall c | c in net.clientConns ensures c.Node() !in net.routers {
      assert c.Node() in net.clients;
    }
  }

  lemma SpreadWaits(net: Net, task: Task, send: Send, stop: Option<Stop>)
    requires Apart(net) && StopOk(net, send, stop)
    ensures Stalls(net, Spread(net, task, send, stop), task, send.message, stop)
  {
  }

  lemma CarryWaits(net: Net, task: Task, d: Conn, r': Router, send: Send, stop: Option<Stop>)
    requires Apart(net) && AtRouter(net, d) && StopOk(net, send, stop)
    requires r'.conns == net.routers[d.Node()].conns
    ensures Stalls(net, Carry(net, task, d, r', send, stop), task, send.message, stop)
  {
    SpreadWaits(Decide(SetRouter(net, d.Node(), r'), send), task, send, stop);
  }

  lemma HandleSends(r: Router, c: Conn, m: Message)
    ensures Handle(r, c, m).1.message == m
  {
  }

  lemma ProcessWaits(net: Net, task: Task, c: Conn, m: Message, stop: Option<Stop>)
    requires Apart(net) && AtRouter(net, c) && StopOk(net, Response(net, c, m).1, stop)
    ensures Stalls(net, Process(net, task, c, m, stop), task, m, stop)
  {
    var (r', send) := Response(net, c, m);
    HandleLists(net.routers[c.Node()], c, m);
    HandleSends(net.routers[c.Node()], c, m);
    CarryWaits(net, task, c, r', send, stop);
  }

  lemma HandledWaits(net: Net, e: Event)
    requires Apart(net) && Enabled(net, e) && (e.Receive? || e.Drain? || e.ReadOn?) && FansOut(net, e).Some?
    ensures Stalls(net, Step(net, e), FansOut(net, e).value.0, FansOut(net, e).value.1, StopOfStep(e))
  {
    var c, m := e.conn, FansOut(net, e).value.1;
    if e.Receive? {
      PopResponse(net, c, m, e.stop);
      ProcessWaits(Pop(net, c), Relay(c), c, m, e.stop);
    } else if e.Drain? {
      UnheldResponse(net, c, m, e.stop);
      ProcessWaits(Unheld(net, c), Checker(c), c, m, e.stop);
    } else {
      TakeNextSends(net, c, m, e.stop);
      ProcessWaits(TakeNext(net, c), Relay(c), c, m, e.stop);
    }
  }

  lemma ForgetWaits(net: Net, c: Conn, s: Subject, stop: Option<Stop>)
    requires Apart(net) && Enabled(net, Forget(c, s, stop))
    ensures Stalls(net, Step(net, Forget(c, s, stop)), net.lost.loss[c].task, Subscription(s, false), stop)
  {
    var (r', send) := Removal(net, c, s);
    RemovedSends(net, c, s, stop);
    CarryWaits(Removed(net, {Tag(c, s)}), net.lost.loss[c].task, c, r', send, stop);
  }

  lemma {:induction false} TellAllStalls(net: Net, c: Conn, order: seq<Subject>)
    ensures TellAll(net, c, order).stalled == net.stalled
    decreases |order|
  {
    if order != [] {
      TellAllStalls(Post(net, Send({c}, Subscription(order[0], true)), {c}), c, order[1..]);
    }
  }

  lemma NothingWaits(net: Net, e: Event)
    requires Enabled(net, e) && FansOut(net, e).None? && !e.Abandon?
    ensures Step(net, e).stalled == net.stalled
  {
    if e.Arrive? {
      TellAllStalls(Arrived(net, e.link), Conn(e.link, false), e.order);
    } else if e.Activate? {
      var r := net.routers[e.conn.Node()];
      TellAllStalls(SetRouter(net, e.conn.Node(), r.(pending := r.pending - {e.conn})), e.conn, e.order);
    }
  }

  /** A fan-out that drops a target for want of room leaves its last targets waiting for that one to be
      closed, with the message they have still to get, and no other step lets a fan-out wait. */
  lemma StoppedFanoutWaits(net: Net, e: Event)
    requires Shape(net) && Enabled(net, e) && !e.Resume? && !e.Abandon?
    ensures if FansOut(net, e).Some?
            then Stalls(net, Step(net, e), FansOut(net, e).value.0, FansOut(net, e).value.1, StopOfStep(e))
            else Step(net, e).stalled == net.stalled
  {
    ShapeApart(net);
    if FansOut(net, e).Some? {
      if e.Forget? {
        ForgetWaits(net, e.conn, e.subject, e.stop);
      } else {
        HandledWaits(net, e);
      }
    } else {
      NothingWaits(net, e);
    }
  }

  /** A fan-out that goes on sends its message to its last targets, unless they have been closed, and
      may stop again. */
  lemma FanoutGoesOn(net: Net, i: nat, stop: Option<Stop>)
    requires Shape(net) && Enabled(net, Resume(i, stop))
    ensures var f, net' := net.stalled[i], Step(net, Resume(i, stop));
            && net'.stalled == net.stalled[..i] + net.stalled[i + 1..] + Waits(f.task, f.rest.message, stop)
            && StopsAt(net', f.task, stop)
            && forall x :: x in net.chan ==>
                 && x in net'.chan
                 && net'.chan[x] == net.chan[x] + If(x.Peer() in f.rest.to && Open(net, x.Peer())
                                                     && !HeldBack(stop, x.Peer()), f.rest.message)
  {
    ShapeApart(net);
    var f := net.stalled[i];
    SpreadWaits(Unstall(net, i), f.task, OnOpen(net, f.rest), stop);
    SpreadChannels(Unstall(net, i), f.task, OnOpen(net, f.rest), stop);
  }

  lemma SpreadChannels(net: Net, task: Task, send: Send, stop: Option<Stop>)
    requires StopOk(net, send, stop)
    ensures var net' := Spread(net, task, send, stop);
            forall x :: x in net.chan ==>
              && x in net'.chan
              && net'.chan[x] == net.chan[x] + If(x.Peer() in send.to && !HeldBack(stop, x.Peer()), send.message)
  {
  }

  // --- every run ------------------------------------------------------------------------------------------

  /** The publishes sent to `x` in the first `i` steps. */
  ghost function SentBy(trace: seq<Net>, events: seq<Event>, i: nat, x: Conn): seq<Message>
    requires Run(trace, events) && i <= |events|
  {
    if i == 0 then [] else SentBy(trace, events, i - 1, x) + SentIn(trace[i - 1], events[i - 1], x)
  }

  lemma NextFlow(trace: seq<Net>, events: seq<Event>, j: nat, x: Conn)
    requires Run(trace, events) && j < |events|
    ensures Enabled(trace[j], events[j])
    ensures Publishes(ReadIn(trace[j], events[j], x)) + Publishes(ChanOf(trace[j + 1], x))
            == Publishes(ChanOf(trace[j], x)) + SentIn(trace[j], events[j], x)
  {
    Invariant(trace, events, j);
    assert Enabled(trace[j], events[j]) && trace[j + 1] == Step(trace[j], events[j]);
    PublishesFlow(trace[j], events[j], x);
  }

  lemma Longer(read: seq<Message>, chan: seq<Message>, sent: seq<Message>, r: seq<Message>, chan': seq<Message>,
               s: seq<Message>)
    requires read + chan == sent && r + chan' == chan + s
    ensures read + r + chan' == sent + s
  {
    Regroup(read, r, chan');
    Regroup(read, chan, s);
  }

  /** In every run, the publishes sent to a connection are those read on it and those on their way. */
  lemma {:induction false} SentIsReadOrOnItsWay(trace: seq<Net>, events: seq<Event>, i: nat, x: Conn)
    requires Run(trace, events) && i < |trace|
    ensures Publishes(ReadBy(trace, events, i, x)) + Publishes(ChanOf(trace[i], x)) == SentBy(trace, events, i, x)
  {
    if i > 0 {
      var j := i - 1;
      SentIsReadOrOnItsWay(trace, events, j, x);
      NextFlow(trace, events, j, x);
      PublishesConcat(ReadBy(trace, events, j, x), ReadIn(trace[j], events[j], x));
      Longer(Publishes(ReadBy(trace, events, j, x)), Publishes(ChanOf(trace[j], x)), SentBy(trace, events, j, x),
             Publishes(ReadIn(trace[j], events[j], x)), Publishes(ChanOf(trace[i], x)),
             SentIn(trace[j], events[j], x));
    }
  }

  /** In every state of every run: of the publishes sent to a connection that a node lists, the node
      has handled the first ones, it holds the next, and the rest are on their way, in order. */
  lemma NoPublishIsLost(trace: seq<Net>, events: seq<Event>, i: nat, n: NodeId, c: Conn)
    requires Run(trace, events) && i < |trace| && n in trace[i].routers && c in trace[i].routers[n].conns
    ensures c in trace[i].chan
    ensures Publishes(HandledBy(trace, events, i, c)) + Publishes(HeldAt(trace[i].routers[n], c))
            + Publishes(trace[i].chan[c]) == SentBy(trace, events, i, c)
  {
    Invariant(trace, events, i);
    HomeConn(trace[i], n, c);
    InvAt(trace[i], c);
    HandledOrHeld(trace, events, i, n, c);
    PublishesConcat(HandledBy(trace, events, i, c), HeldAt(trace[i].routers[n], c));
    SentIsReadOrOnItsWay(trace, events, i, c);
  }
}
