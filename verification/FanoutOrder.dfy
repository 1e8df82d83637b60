/** A fan-out that stops half-way goes on later, and what it then sends may have been overtaken by a
    newer decision. Without that, what is told last is always what was decided last. */
module FanoutOrder {
  import opened Links
  import opened Results
  import opened Subjects
  import opened Routing
  import opened RoutingInvariant
  import opened RoutingRuns

  predicate Stopped(stop: Option<Stop>) {
    stop.Some? && stop.value.late != {}
  }

  /** The event stops a fan-out before it has reached all its targets. */
  predicate Waits(e: Event) {
    match e
    case Receive(_, stop) => Stopped(stop)
    case Drain(_, stop) => Stopped(stop)
    case Forget(_, _, stop) => Stopped(stop)
    case ReadOn(_, stop) => Stopped(stop)
    case Resume(_, stop) => Stopped(stop)
    case _ => false
  }

  /** What the node sent last about each subject on `c` is what it decided last. */
  ghost predicate InOrderAt(net: Net, c: Conn) {
    c in net.told && c in net.decided ==> net.told[c] == net.decided[c]
  }

  /** No fan-out waits, and what the nodes sent last is what they decided last. */
  ghost predicate Prompt(net: Net) {
    && net.stalled == []
    && forall c :: AtRouter(net, c) && c !in net.lost.loss ==> InOrderAt(net, c)
  }

  lemma PostInOrder(net: Net, send: Send, now: set<Conn>, c: Conn)
    requires InOrderAt(net, c) && (c in send.to <==> c in now)
    ensures InOrderAt(Post(net, send, now), c)
  {
  }

  lemma {:induction false} TellAllInOrder(net: Net, c: Conn, order: seq<Subject>, d: Conn)
    requires InOrderAt(net, d)
    ensures InOrderAt(TellAll(net, c, order), d)
    decreases |order|
  {
    if order != [] {
      PostInOrder(net, Send({c}, Subscription(order[0], true)), {c}, d);
      TellAllInOrder(Post(net, Send({c}, Subscription(order[0], true)), {c}), c, order[1..], d);
    }
  }

  lemma CarryPrompt(net: Net, task: Task, c: Conn, r': Router, send: Send, stop: Option<Stop>)
    requires Prompt(net) && AtRouter(net, c) && StopOk(net, send, stop) && !Stopped(stop)
    ensures Prompt(Carry(net, task, c, r', send, stop))
  {
    var net1, net' := SetRouter(net, c.Node(), r'), Carry(net, task, c, r', send, stop);
    var now := if stop.Some? then send.to - {stop.value.at} else send.to;
    forall d | AtRouter(net', d) && d !in net'.lost.loss ensures InOrderAt(net', d) {
      assert InOrderAt(net, d) && InOrderAt(net1, d);
      PostInOrder(net1, send, now, d);
      assert net'.told == Post(net1, send, now).told && net'.decided == Post(net1, send, now).decided;
    }
  }

  lemma SamePrompt(net: Net, net': Net)
    requires Prompt(net) && net'.told == net.told && net'.decided == net.decided && net'.stalled == net.stalled
    requires net'.routers.Keys == net.routers.Keys && net.lost.loss.Keys <= net'.lost.loss.Keys
    ensures Prompt(net')
  {
    forall c | AtRouter(net', c) && c !in net'.lost.loss ensures InOrderAt(net', c) {
      assert InOrderAt(net, c);
    }
  }

  lemma NewLinkPrompt(net: Net, l: Link)
    requires Prompt(net)
    ensures Prompt(NewLink(net, l))
  {
    forall c | AtRouter(net, c) && c !in net.lost.loss ensures InOrderAt(NewLink(net, l), c) {
      assert InOrderAt(net, c);
    }
  }

  lemma TellAllPrompt(net: Net, c: Conn, order: seq<Subject>)
    requires Prompt(net)
    ensures Prompt(TellAll(net, c, order))
  {
    TellAllOnly(net, c, order);
    forall d | AtRouter(net, d) && d !in net.lost.loss ensures InOrderAt(TellAll(net, c, order), d) {
      assert InOrderAt(net, d);
      TellAllInOrder(net, c, order, d);
    }
  }

  lemma JoinPrompt(net: Net, e: Event)
    requires Prompt(net) && Enabled(net, e) && Joins(e)
    ensures Prompt(Step(net, e))
  {
    match e
    case ClientConnect(l) =>
      NewLinkPrompt(net, l);
      SamePrompt(NewLink(net, l), Step(net, e));
    case Establish(l) =>
      NewLinkPrompt(net, l);
      SamePrompt(NewLink(net, l), Step(net, e));
    case Arrive(l, order) =>
      SamePrompt(net, Arrived(net, l));
      TellAllPrompt(Arrived(net, l), Conn(l, false), order);
    case Activate(c, order) =>
      var r := net.routers[c.Node()];
      var net1 := SetRouter(net, c.Node(), r.(pending := r.pending - {c}));
      SamePrompt(net, net1);
      TellAllPrompt(net1, c, order);
  }

  lemma ClientSendPrompt(net: Net, c: Conn, m: Message)
    requires Prompt(net) && RoutersOk(net) && ClientsOk(net) && Enabled(net, ClientSend(c, m))
    ensures Prompt(Step(net, ClientSend(c, m)))
  {
    forall d | AtRouter(net, d) && d !in net.lost.loss ensures InOrderAt(Queue(net, Send({c}, m)), d) {
      assert InOrderAt(net, d) && d != c;
    }
  }

  lemma ProcessPrompt(net: Net, task: Task, c: Conn, m: Message, stop: Option<Stop>)
    requires Prompt(net) && AtRouter(net, c) && StopOk(net, Response(net, c, m).1, stop) && !Stopped(stop)
    ensures Prompt(Process(net, task, c, m, stop))
  {
    var (r', send) := Response(net, c, m);
    CarryPrompt(net, task, c, r', send, stop);
  }

  lemma ReceivePrompt(net: Net, c: Conn, stop: Option<Stop>)
    requires Prompt(net) && Enabled(net, Receive(c, stop)) && !Stopped(stop)
    ensures Prompt(Step(net, Receive(c, stop)))
  {
    SamePrompt(net, Pop(net, c));
    if AtRouter(net, c) {
      if c in net.routers[c.Node()].held {
        SamePrompt(net, Step(net, Receive(c, stop)));
      } else {
        PopResponse(net, c, net.chan[c][0], stop);
        ProcessPrompt(Pop(net, c), Relay(c), c, net.chan[c][0], stop);
      }
    }
  }

  lemma DrainPrompt(net: Net, c: Conn, stop: Option<Stop>)
    requires Prompt(net) && Enabled(net, Drain(c, stop)) && !Stopped(stop)
    ensures Prompt(Step(net, Drain(c, stop)))
  {
    var m := net.routers[c.Node()].held[c][0];
    SamePrompt(net, Unheld(net, c));
    UnheldResponse(net, c, m, stop);
    ProcessPrompt(Unheld(net, c), Checker(c), c, m, stop);
  }

  lemma ForgetPrompt(net: Net, c: Conn, s: Subject, stop: Option<Stop>)
    requires Prompt(net) && Enabled(net, Forget(c, s, stop)) && !Stopped(stop)
    ensures Prompt(Step(net, Forget(c, s, stop)))
  {
    var (r', send) := Removal(net, c, s);
    SamePrompt(net, Removed(net, {Tag(c, s)}));
    RemovedSends(net, c, s, stop);
    CarryPrompt(Removed(net, {Tag(c, s)}), net.lost.loss[c].task, c, r', send, stop);
  }

  lemma ReadOnPrompt(net: Net, c: Conn, stop: Option<Stop>)
    requires Prompt(net) && Enabled(net, ReadOn(c, stop)) && !Stopped(stop)
    ensures Prompt(Step(net, ReadOn(c, stop)))
  {
    SamePrompt(net, TakeNext(net, c));
    TakeNextSends(net, c, NextOf(net, c), stop);
    ProcessPrompt(TakeNext(net, c), Relay(c), c, NextOf(net, c), stop);
  }

  lemma MovePrompt(net: Net, e: Event)
    requires Prompt(net) && RoutersOk(net) && ClientsOk(net) && Enabled(net, e) && Moves(e) && !Waits(e)
    ensures Prompt(Step(net, e))
  {
    if e.Receive? {
      ReceivePrompt(net, e.conn, e.stop);
    } else if e.Drain? {
      DrainPrompt(net, e.conn, e.stop);
    } else if e.ClientSend? {
      ClientSendPrompt(net, e.conn, e.message);
    } else {
      SamePrompt(net, Step(net, e));
    }
  }

  lemma LossPrompt(net: Net, e: Event)
    requires Prompt(net) && Enabled(net, e) && Loses(e)
    ensures Prompt(Step(net, e))
  {
    SamePrompt(net, Step(net, e));
  }

  lemma StepPrompt(net: Net, e: Event)
    requires Prompt(net) && RoutersOk(net) && ClientsOk(net) && Enabled(net, e) && !Waits(e)
    ensures Prompt(Step(net, e))
  {
    if Joins(e) {
      JoinPrompt(net, e);
    } else if Moves(e) {
      MovePrompt(net, e);
    } else if Loses(e) {
      LossPrompt(net, e);
    } else if e.Forget? {
      ForgetPrompt(net, e.conn, e.subject, e.stop);
    } else if e.ReadOn? {
      ReadOnPrompt(net, e.conn, e.stop);
    } else {
      assert false;
    }
  }

  lemma {:induction false} PromptRuns(trace: seq<Net>, events: seq<Event>, i: nat)
    requires Run(trace, events) && i < |trace| && forall j :: 0 <= j < i ==> !Waits(events[j])
    ensures Prompt(trace[i])
  {
    if i > 0 {
      var j := i - 1;
      PromptRuns(trace, events, j);
      Invariant(trace, events, j);
      assert Enabled(trace[j], events[j]) && trace[j + 1] == Step(trace[j], events[j]);
      StepPrompt(trace[j], events[j]);
    }
  }

  /** In every run in which no fan-out has had to wait, each active neighbour was last told
      "subscribed" for exactly the subjects that some other connection of the node subscribes to. */
  lemma PromptlyTold(trace: seq<Net>, events: seq<Event>, i: nat, n: NodeId, c: Conn, s: Subject)
    requires Run(trace, events) && i < |trace| && forall j :: 0 <= j < i ==> !Waits(events[j])
    requires n in trace[i].routers && c in trace[i].routers[n].Active()
    ensures c in trace[i].told
    ensures s in trace[i].told[c] <==> exists d :: d != c && Tag(d, s) in trace[i].routers[n].tags
  {
    PromptRuns(trace, events, i);
    Invariant(trace, events, i);
    HomeConn(trace[i], n, c);
    NotLost(trace[i], c);
    assert InOrderAt(trace[i], c) && ToldOk(trace[i], trace[i].routers[n], c);
    NeighboursAreTold(trace, events, i, n, c, s);
  }
}
