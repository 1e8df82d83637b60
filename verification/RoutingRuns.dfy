/** Every run of subscription routing: the steps keep the invariant, and of every lost connection
    what is still to be done is on record. */
module RoutingRuns {
  import opened Links
  import opened Results
  import opened Subjects
  import opened Routing
  import opened RoutingInvariant

  // --- lost connections -----------------------------------------------------------------------

  /** A lost connection is in no list. Only a relay loop that has closed its own connection still
      has something of its own to read, and none has if the link never arrived. */
  ghost predicate LossOk(net: Net, c: Conn) {
    && AtRouter(net, c) && c in net.lost.loss
    && c !in net.routers[c.Node()].conns && c !in net.clientConns
    && c.link in net.made && (!c.up ==> c.link in net.arrived)
    && (net.lost.loss[c].unread != [] ==>
          net.lost.loss[c].closed && net.lost.loss[c].task == Relay(c) && c.link in net.arrived)
  }

  ghost predicate LossInv(net: Net) {
    forall c :: c in net.lost.loss ==> LossOk(net, c)
  }

  /** A tag to be removed is of a lost connection whose link has arrived. */
  ghost predicate LeavingInv(net: Net) {
    forall t :: t in net.lost.leaving ==> t.conn in net.lost.loss && t.conn.link in net.arrived
  }

  /** Every tag is of a listed connection or of a lost one. */
  ghost predicate TagsInv(net: Net) {
    forall n, t :: n in net.routers && t in net.routers[n].tags ==>
      t.conn in net.routers[n].conns || t.conn in net.lost.loss
  }

  ghost predicate LeftInv(net: Net) {
    LossInv(net) && LeavingInv(net) && TagsInv(net)
  }

  /** The step neither loses a connection nor cleans up after one. */
  ghost predicate NoneLost(net: Net, net': Net) {
    && net'.routers.Keys == net.routers.Keys && net'.lost == net.lost
    && net.made <= net'.made && net.arrived <= net'.arrived
    && (forall c :: c in net.lost.loss ==> c !in net'.clientConns)
    && forall n :: n in net.routers ==>
         && net.routers[n].conns <= net'.routers[n].conns
         && (forall t :: t in net'.routers[n].tags ==> t in net.routers[n].tags || t.conn in net'.routers[n].conns)
         && forall c :: c in net.lost.loss ==> c !in net'.routers[n].conns
  }

  lemma NoneLostKeeps(net: Net, net': Net)
    requires LeftInv(net) && NoneLost(net, net')
    ensures LeftInv(net')
  {
    forall c | c in net'.lost.loss ensures LossOk(net', c) {
      assert LossOk(net, c);
    }
  }

  lemma LossIsOld(net: Net, c: Conn)
    requires LossInv(net) && c in net.lost.loss
    ensures c.link in net.made && (!c.up ==> c.link in net.arrived) && AtRouter(net, c)
    ensures c !in net.routers[c.Node()].conns && c !in net.clientConns
  {
    assert LossOk(net, c);
  }

  lemma LossNotListed(net: Net, n: NodeId, d: Conn)
    requires LossInv(net) && d in net.lost.loss && n in net.routers && RouterOk(net, n, net.routers[n])
    ensures d !in net.routers[n].conns
  {
    LossIsOld(net, d);
  }

  lemma NotLost(net: Net, c: Conn)
    requires LossInv(net) && AtRouter(net, c) && c in net.routers[c.Node()].conns
    ensures c !in net.lost.loss
  {
    if c in net.lost.loss {
      LossIsOld(net, c);
    }
  }

  // --- joining ----------------------------------------------------------------------------------

  /** One node lists one more connection, or the same ones. */
  lemma OneNodeNoneLost(net: Net, net': Net, n: NodeId, r': Router, c: Conn)
    requires LossInv(net) && RoutersOk(net) && n in net.routers && c !in net.lost.loss
    requires net.routers[n].conns <= r'.conns && forall d :: d in r'.conns ==> d in net.routers[n].conns || d == c
    requires r'.tags == net.routers[n].tags
    requires net'.routers == net.routers[n := r'] && net'.clientConns == net.clientConns
    requires net'.lost == net.lost && net.made <= net'.made && net.arrived <= net'.arrived
    ensures NoneLost(net, net')
  {
    forall m, d | m in net.routers && d in net.lost.loss ensures d !in net'.routers[m].conns {
      LossNotListed(net, m, d);
    }
    forall d | d in net.lost.loss ensures d !in net'.clientConns {
      LossIsOld(net, d);
    }
  }

  /** A step that changes no node. */
  lemma NodesSameLeft(net: Net, net': Net)
    requires LossInv(net) && RoutersOk(net) && net'.routers == net.routers && net'.lost == net.lost
    requires net.made <= net'.made && net.arrived <= net'.arrived
    requires forall c :: c in net'.clientConns ==> c in net.clientConns || c.link !in net.made
    ensures NoneLost(net, net')
  {
    forall n, d | n in net.routers && d in net.lost.loss ensures d !in net.routers[n].conns {
      LossNotListed(net, n, d);
    }
    forall d | d in net.lost.loss ensures d !in net'.clientConns {
      LossIsOld(net, d);
    }
  }

  lemma {:induction false} TellAllOnly(net: Net, c: Conn, order: seq<Subject>)
    ensures var net' := TellAll(net, c, order);
            net' == net.(chan := net'.chan, told := net'.told, decided := net'.decided)
    decreases |order|
  {
    if order != [] {
      TellAllOnly(Post(net, Send({c}, Subscription(order[0], true)), {c}), c, order[1..]);
    }
  }

  lemma ActivateLeft(net: Net, c: Conn, order: seq<Subject>)
    requires Inv(net) && LeftInv(net) && Enabled(net, Activate(c, order))
    ensures NoneLost(net, Step(net, Activate(c, order)))
  {
    var r := net.routers[c.Node()];
    assert RouterOk(net, c.Node(), r);
    NotLost(net, c);
    TellAllOnly(SetRouter(net, c.Node(), r.(pending := r.pending - {c})), c, order);
    OneNodeNoneLost(net, Step(net, Activate(c, order)), c.Node(), r.(pending := r.pending - {c}), c);
  }

  lemma ArriveLeft(net: Net, l: Link, order: seq<Subject>)
    requires Inv(net) && LeftInv(net) && Enabled(net, Arrive(l, order))
    ensures NoneLost(net, Step(net, Arrive(l, order)))
  {
    var c, r := Conn(l, false), net.routers[l.b];
    if c in net.lost.loss {
      LossIsOld(net, c);
    }
    TellAllOnly(Arrived(net, l), c, order);
    OneNodeNoneLost(net, Step(net, Arrive(l, order)), l.b, r.(conns := r.conns + {c}), c);
  }

  lemma EstablishLeft(net: Net, l: Link)
    requires Inv(net) && LeftInv(net) && Enabled(net, Establish(l))
    ensures NoneLost(net, Step(net, Establish(l)))
  {
    var c := Conn(l, true);
    if c in net.lost.loss {
      LossIsOld(net, c);
    }
    OneNodeNoneLost(net, Step(net, Establish(l)), l.a, Pending(net.routers[l.a], c), c);
  }

  lemma ClientConnectLeft(net: Net, l: Link)
    requires RoutersOk(net) && LossInv(net) && Enabled(net, ClientConnect(l))
    ensures NoneLost(net, Step(net, ClientConnect(l)))
  {
    NodesSameLeft(net, Step(net, ClientConnect(l)));
  }

  // --- losing a connection -------------------------------------------------------------------------

  /** What a listed connection of a node is. */
  lemma ListedConn(net: Net, c: Conn, r: Router)
    requires RoutersOk(net) && ClientsOk(net) && AtRouter(net, c) && r == net.routers[c.Node()] && c in r.conns
    ensures c.link in net.made && (!c.up ==> c.link in net.arrived) && c !in net.clientConns
    ensures forall t :: t in TagsAt(r, c) ==> t.conn.link in net.arrived
  {
    assert RouterOk(net, c.Node(), r);
  }

  lemma UnlistOthers(net: Net, c: Conn, task: Task, d: Conn)
    requires LossOk(net, d) && d != c && AtRouter(net, c)
    ensures LossOk(Unlist(net, c, task), d)
  {
  }

  lemma UnlistLoss(net: Net, c: Conn, task: Task)
    requires LossInv(net) && AtRouter(net, c)
    requires c.link in net.made && (!c.up ==> c.link in net.arrived) && c !in net.clientConns
    ensures LossInv(Unlist(net, c, task))
  {
    forall d | d in Unlist(net, c, task).lost.loss ensures LossOk(Unlist(net, c, task), d) {
      if d != c {
        UnlistOthers(net, c, task, d);
      }
    }
  }

  lemma UnlistLeft(net: Net, c: Conn, task: Task)
    requires RoutersOk(net) && ClientsOk(net) && LeftInv(net)
    requires AtRouter(net, c) && c in net.routers[c.Node()].conns
    ensures LeftInv(Unlist(net, c, task))
  {
    ListedConn(net, c, net.routers[c.Node()]);
    UnlistLoss(net, c, task);
  }

  // --- sending and handling ------------------------------------------------------------------------

  /** What is sent or waits to be sent, and what is held, is not looked at here. */
  lemma OnlySends(net: Net, net': Net)
    requires LeftInv(net) && RoutersOk(net) && ClientsOk(net)
    requires net' == net.(chan := net'.chan, told := net'.told, decided := net'.decided, stalled := net'.stalled)
    ensures LeftInv(net') && RoutersOk(net') && ClientsOk(net')
  {
    SameRoutersOk(net, net');
    NodesSameLeft(net, net');
    NoneLostKeeps(net, net');
  }

  lemma SpreadLeft(net: Net, task: Task, send: Send, stop: Option<Stop>)
    requires LeftInv(net) && RoutersOk(net) && ClientsOk(net) && StopOk(net, send, stop)
    ensures LeftInv(Spread(net, task, send, stop))
  {
    match stop
    case None => OnlySends(net, Queue(net, send));
    case Some(Stop(at, late)) =>
      var net1 := Queue(net, Send(send.to - late - {at}, send.message))
                  .(stalled := if late == {} then net.stalled
                               else net.stalled + [Fanout(task, at, Send(late, send.message))]);
      OnlySends(net, net1);
      UnlistLeft(net1, at, task);
  }

  /** A node changes tags of one connection only, and that one is listed or lost. */
  ghost predicate TagsChange(net: Net, n: NodeId, r': Router, c: Conn) {
    && n in net.routers && RouterOk(net, n, r') && r'.conns == net.routers[n].conns
    && (c in r'.conns || c in net.lost.loss)
    && forall t :: t in r'.tags ==> t in net.routers[n].tags || t.conn == c
  }

  lemma TagsChangeLeft(net: Net, n: NodeId, r': Router, c: Conn)
    requires LeftInv(net) && RoutersOk(net) && TagsChange(net, n, r', c)
    ensures LeftInv(SetRouter(net, n, r')) && RoutersOk(SetRouter(net, n, r'))
  {
    var net' := SetRouter(net, n, r');
    forall d | d in net'.lost.loss ensures LossOk(net', d) {
      assert LossOk(net, d);
    }
    forall m | m in net'.routers ensures m !in net'.clients && RouterOk(net', m, net'.routers[m]) {
      assert RouterOk(net, m, net.routers[m]);
    }
  }

  lemma CarryLeft(net: Net, task: Task, c: Conn, r': Router, send: Send, stop: Option<Stop>)
    requires LeftInv(net) && RoutersOk(net) && ClientsOk(net) && AtRouter(net, c)
    requires TagsChange(net, c.Node(), r', c) && StopOk(net, send, stop)
    ensures LeftInv(Carry(net, task, c, r', send, stop))
  {
    var net1 := SetRouter(net, c.Node(), r');
    TagsChangeLeft(net, c.Node(), r', c);
    OnlySends(net1, Decide(net1, send));
    SpreadLeft(Decide(net1, send), task, send, stop);
  }

  lemma ProcessLeft(net: Net, task: Task, c: Conn, m: Message, stop: Option<Stop>)
    requires LeftInv(net) && RoutersOk(net) && ClientsOk(net)
    requires AtRouter(net, c) && c.link in net.arrived && c !in net.routers[c.Node()].pending
    requires c in net.routers[c.Node()].conns || c in net.lost.loss
    requires StopOk(net, Response(net, c, m).1, stop)
    ensures LeftInv(Process(net, task, c, m, stop))
  {
    var (r', send) := Response(net, c, m);
    assert RouterOk(net, c.Node(), net.routers[c.Node()]);
    HandleShape(net, c.Node(), net.routers[c.Node()], c, m);
    CarryLeft(net, task, c, r', send, stop);
  }

  /** What is held is not looked at here. */
  lemma HeldLeft(net: Net, n: NodeId, r': Router, c: Conn)
    requires LeftInv(net) && RoutersOk(net) && n in net.routers && RouterOk(net, n, r') && c in r'.conns
    requires r' == net.routers[n].(held := r'.held)
    ensures LeftInv(SetRouter(net, n, r')) && RoutersOk(SetRouter(net, n, r'))
  {
    TagsChangeLeft(net, n, r', c);
  }

  lemma PopLeft(net: Net, c: Conn)
    requires LeftInv(net) && Shape(net) && c in net.chan && net.chan[c] != []
    ensures LeftInv(Pop(net, c)) && RoutersOk(Pop(net, c)) && ClientsOk(Pop(net, c))
  {
    OnlySends(net, Pop(net, c));
  }

  lemma ReceiveHeldLeft(net: Net, c: Conn)
    requires Inv(net) && LeftInv(net) && Enabled(net, Receive(c, None)) && AtRouter(net, c)
    requires c in net.routers[c.Node()].held && c in net.routers[c.Node()].conns
    ensures LeftInv(Step(net, Receive(c, None)))
  {
    var n, r := c.Node(), net.routers[c.Node()];
    var q := r.held[c] + [net.chan[c][0]];
    PopLeft(net, c);
    InvAt(net, c);
    SetHeld(Pop(net, c), n, r, c, q);
    HeldLeft(Pop(net, c), n, r.(held := r.held[c := q]), c);
  }

  lemma ReceiveHandledLeft(net: Net, c: Conn, stop: Option<Stop>)
    requires Inv(net) && LeftInv(net) && Enabled(net, Receive(c, stop)) && AtRouter(net, c)
    requires c !in net.routers[c.Node()].held && c in net.routers[c.Node()].conns
    ensures LeftInv(Step(net, Receive(c, stop)))
  {
    PopLeft(net, c);
    InvAt(net, c);
    PopResponse(net, c, net.chan[c][0], stop);
    ProcessLeft(Pop(net, c), Relay(c), c, net.chan[c][0], stop);
  }

  lemma ReceiveLeft(net: Net, c: Conn, stop: Option<Stop>)
    requires Inv(net) && LeftInv(net) && Enabled(net, Receive(c, stop))
    ensures LeftInv(Step(net, Receive(c, stop)))
  {
    if !AtRouter(net, c) {
      PopLeft(net, c);
    } else {
      ListedAtRouter(net, c);
      if c in net.routers[c.Node()].held {
        ReceiveHeldLeft(net, c);
      } else {
        ReceiveHandledLeft(net, c, stop);
      }
    }
  }

  lemma DrainLeft(net: Net, c: Conn, stop: Option<Stop>)
    requires Inv(net) && LeftInv(net) && Enabled(net, Drain(c, stop))
    ensures LeftInv(Step(net, Drain(c, stop)))
  {
    var n, r := c.Node(), net.routers[c.Node()];
    HeldConn(net, c);
    InvAt(net, c);
    SetHeld(net, n, r, c, r.held[c][1..]);
    HeldLeft(net, n, r.(held := r.held[c := r.held[c][1..]]), c);
    UnheldResponse(net, c, r.held[c][0], stop);
    ProcessLeft(Unheld(net, c), Checker(c), c, r.held[c][0], stop);
  }

  lemma DrainedLeft(net: Net, c: Conn)
    requires Inv(net) && LeftInv(net) && Enabled(net, Drained(c))
    ensures LeftInv(Step(net, Drained(c)))
  {
    var n, r := c.Node(), net.routers[c.Node()];
    HeldConn(net, c);
    InvAt(net, c);
    RemoveHeld(net, n, r, c);
    HeldLeft(net, n, r.(held := r.held - {c}), c);
  }

  // --- cleaning up after a lost connection -------------------------------------------------------

  /** A tag to be removed is of a connection that is lost for good. */
  lemma LeavingIsGone(net: Net, t: Tag)
    requires RoutersOk(net) && LeftInv(net) && t in net.lost.leaving
    ensures Gone(net, t.conn) && t.conn in net.lost.loss
  {
    assert LossOk(net, t.conn) && RouterOk(net, t.conn.Node(), net.routers[t.conn.Node()]);
  }

  /** So is a connection of which a message is read late. */
  lemma LateIsGone(net: Net, c: Conn)
    requires Shape(net) && LossInv(net) && HasNext(net, c)
    ensures Gone(net, c)
  {
    assert LossOk(net, c) && RouterOk(net, c.Node(), net.routers[c.Node()]);
    assert LinkOk(net, c.link) && c == Conn(c.link, c.up);
  }

  /** Which tags are to be removed and what is to be read late makes no difference to sending. */
  lemma SameSends(net: Net, net': Net, send: Send, stop: Option<Stop>)
    requires net'.routers == net.routers && net'.clientConns == net.clientConns
    requires net'.lost.loss.Keys == net.lost.loss.Keys
    requires forall c :: c in net.lost.loss ==> net'.lost.loss[c].closed == net.lost.loss[c].closed
    ensures OnOpen(net', send) == OnOpen(net, send)
    ensures StopOk(net, OnOpen(net, send), stop) ==> StopOk(net', OnOpen(net', send), stop)
  {
    SameOpen(net, net', send);
  }

  lemma RemovedSends(net: Net, c: Conn, s: Subject, stop: Option<Stop>)
    requires AtRouter(net, c) && StopOk(net, Removal(net, c, s).1, stop)
    ensures Removal(Removed(net, {Tag(c, s)}), c, s) == Removal(net, c, s)
    ensures StopOk(Removed(net, {Tag(c, s)}), Removal(net, c, s).1, stop)
  {
    SameSends(net, Removed(net, {Tag(c, s)}), Unsubscribe(net.routers[c.Node()], c, s).1, stop);
  }

  lemma RemovedLeft(net: Net, tags: set<Tag>)
    requires LeftInv(net) && RoutersOk(net)
    ensures LeftInv(Removed(net, tags)) && RoutersOk(Removed(net, tags))
  {
    SameRoutersOk(net, Removed(net, tags));
    forall c | c in net.lost.loss ensures LossOk(Removed(net, tags), c) {
      assert LossOk(net, c);
    }
  }

  lemma ForgetLeft(net: Net, c: Conn, s: Subject, stop: Option<Stop>)
    requires Inv(net) && LeftInv(net) && Enabled(net, Forget(c, s, stop))
    ensures LeftInv(Step(net, Forget(c, s, stop)))
  {
    LeavingIsGone(net, Tag(c, s));
    RemovedLeft(net, {Tag(c, s)});
    RemovedSends(net, c, s, stop);
    RemovalLeft(Removed(net, {Tag(c, s)}), net.lost.loss[c].task, c, s, stop);
  }

  lemma RemovalLeft(net: Net, task: Task, c: Conn, s: Subject, stop: Option<Stop>)
    requires LeftInv(net) && RoutersOk(net) && ClientsOk(net) && AtRouter(net, c) && c in net.lost.loss
    requires StopOk(net, Removal(net, c, s).1, stop)
    ensures var (r', send) := Removal(net, c, s); LeftInv(Carry(net, task, c, r', send, stop))
  {
    var (r', send) := Removal(net, c, s);
    assert RouterOk(net, c.Node(), net.routers[c.Node()]);
    UnsubscribeShape(net, c.Node(), net.routers[c.Node()], c, s);
    CarryLeft(net, task, c, r', send, stop);
  }

  lemma ForgetStep(net: Net, c: Conn, s: Subject, stop: Option<Stop>)
    requires Inv(net) && LeftInv(net) && Enabled(net, Forget(c, s, stop))
    ensures Inv(Step(net, Forget(c, s, stop)))
  {
    var net1 := Removed(net, {Tag(c, s)});
    LeavingIsGone(net, Tag(c, s));
    OnlyLeftovers(net, net1);
    RemovedSends(net, c, s, stop);
    ForgetKeeps(net1, net.lost.loss[c].task, c, s, stop);
  }

  lemma SetLossLeft(net: Net, c: Conn, loss: Loss)
    requires LeftInv(net) && RoutersOk(net) && c in net.lost.loss
    requires loss.unread != [] ==> loss.closed && loss.task == Relay(c) && c.link in net.arrived
    ensures LeftInv(SetLoss(net, c, loss)) && RoutersOk(SetLoss(net, c, loss))
  {
    SameRoutersOk(net, SetLoss(net, c, loss));
    forall d | d in net.lost.loss ensures LossOk(SetLoss(net, c, loss), d) {
      assert LossOk(net, d);
    }
  }

  lemma ShutLeft(net: Net, c: Conn, n: nat)
    requires Inv(net) && LeftInv(net) && Enabled(net, Shut(c, n))
    ensures LeftInv(Step(net, Shut(c, n)))
  {
    var l := net.lost.loss[c];
    assert LossOk(net, c) && LinkOk(net, c.link) && c == Conn(c.link, c.up);
    SetLossLeft(net, c, Loss(l.task, true, if l.task == Relay(c) then net.chan[c][..n] else []));
  }

  lemma TakeNextLeft(net: Net, c: Conn)
    requires Shape(net) && LeftInv(net) && HasNext(net, c)
    ensures LeftInv(TakeNext(net, c)) && RoutersOk(TakeNext(net, c)) && ClientsOk(TakeNext(net, c))
  {
    var l := net.lost.loss[c];
    assert LossOk(net, c);
    if l.closed {
      SetLossLeft(net, c, l.(unread := l.unread[1..]));
    } else {
      PopLeft(net, c);
    }
  }

  lemma TakeNextKeeps(net: Net, c: Conn)
    requires Inv(net) && HasNext(net, c)
    ensures InvBut(TakeNext(net, c), {c})
  {
    var l := net.lost.loss[c];
    if l.closed {
      OnlyLeftovers(net, TakeNext(net, c));
      InvIsMore(TakeNext(net, c), c);
    } else {
      PopKeeps(net, c);
    }
  }

  lemma InvIsMore(net: Net, c: Conn)
    requires Inv(net)
    ensures InvBut(net, {c})
  {
  }

  /** Taking the message does not change what its handler does. */
  lemma TakeNextSends(net: Net, c: Conn, m: Message, stop: Option<Stop>)
    requires HasNext(net, c) && StopOk(net, Response(net, c, m).1, stop)
    ensures StopOk(TakeNext(net, c), Response(TakeNext(net, c), c, m).1, stop)
    ensures Gone(net, c) ==> Gone(TakeNext(net, c), c)
  {
    SameSends(net, TakeNext(net, c), Handle(net.routers[c.Node()], c, m).1, stop);
  }

  lemma ReadOnLeft(net: Net, c: Conn, stop: Option<Stop>)
    requires Inv(net) && LeftInv(net) && Enabled(net, ReadOn(c, stop))
    ensures LeftInv(Step(net, ReadOn(c, stop)))
  {
    LateIsGone(net, c);
    TakeNextLeft(net, c);
    TakeNextSends(net, c, NextOf(net, c), stop);
    ProcessLeft(TakeNext(net, c), Relay(c), c, NextOf(net, c), stop);
  }

  lemma ReadOnStep(net: Net, c: Conn, stop: Option<Stop>)
    requires Inv(net) && LeftInv(net) && Enabled(net, ReadOn(c, stop))
    ensures Inv(Step(net, ReadOn(c, stop)))
  {
    LateIsGone(net, c);
    TakeNextKeeps(net, c);
    TakeNextSends(net, c, NextOf(net, c), stop);
    ReadOnKeeps(TakeNext(net, c), Relay(c), c, NextOf(net, c), stop);
  }

  // --- fan-outs that wait ---------------------------------------------------------------------------

  lemma UnstallKeeps(net: Net, i: nat)
    requires Inv(net) && i < |net.stalled|
    ensures Inv(Unstall(net, i))
    ensures forall d :: d in net.stalled[i].rest.to ==> StalledOk(Unstall(net, i), d)
  {
    forall f, d | f in Unstall(net, i).stalled && d in f.rest.to ensures StalledOk(net, d) {
      assert f in net.stalled;
    }
    OnlyStalled(net, Unstall(net, i));
    forall d | d in net.stalled[i].rest.to ensures StalledOk(Unstall(net, i), d) {
      assert StalledOk(net, d);
    }
  }

  lemma ResumeKeeps(net: Net, i: nat, stop: Option<Stop>)
    requires Inv(net) && Enabled(net, Resume(i, stop))
    ensures Inv(Step(net, Resume(i, stop)))
  {
    UnstallKeeps(net, i);
    SpreadKeeps(Unstall(net, i), net.stalled[i].task, OnOpen(net, net.stalled[i].rest), stop);
  }

  lemma ResumeLeft(net: Net, i: nat, stop: Option<Stop>)
    requires Inv(net) && LeftInv(net) && Enabled(net, Resume(i, stop))
    ensures LeftInv(Step(net, Resume(i, stop)))
  {
    OnlySends(net, Unstall(net, i));
    SpreadLeft(Unstall(net, i), net.stalled[i].task, OnOpen(net, net.stalled[i].rest), stop);
  }

  lemma AbandonLeft(net: Net, i: nat)
    requires Inv(net) && LeftInv(net) && Enabled(net, Abandon(i))
    ensures LeftInv(Step(net, Abandon(i)))
  {
    OnlySends(net, Unstall(net, i));
  }

  // --- every step -----------------------------------------------------------------------

  /** The event makes a connection or lets one take part. */
  predicate Joins(e: Event) {
    e.ClientConnect? || e.Establish? || e.Arrive? || e.Activate?
  }

  /** The event handles a message that is sent on a listed connection. */
  predicate Moves(e: Event) {
    e.ClientSend? || e.Receive? || e.Drain? || e.Drained?
  }

  /** The event reads late, or removes a tag. */
  predicate CleansUp(e: Event) {
    e.Forget? || e.ReadOn?
  }

  /** The event takes a connection off its list, or closes it. */
  predicate Loses(e: Event) {
    e.Lose? || e.Fail? || e.Shut? || e.GiveUp?
  }

  lemma JoinKeeps(net: Net, e: Event)
    requires Inv(net) && Enabled(net, e) && Joins(e)
    ensures Inv(Step(net, e))
  {
    match e
    case ClientConnect(l) => ClientConnectKeeps(net, l);
    case Establish(l) => EstablishNew(net, l);
    case Arrive(l, order) => ArriveKeeps(net, l, order);
    case Activate(c, order) => ActivateKeeps(net, c, order);
  }

  lemma EstablishNew(net: Net, l: Link)
    requires Inv(net) && Enabled(net, Establish(l))
    ensures Inv(Step(net, Establish(l)))
  {
    EstablishKeeps(net, l);
  }

  lemma MoveKeeps(net: Net, e: Event)
    requires Inv(net) && Enabled(net, e) && Moves(e)
    ensures Inv(Step(net, e))
  {
    if e.Receive? {
      ReceiveKeeps(net, e.conn, e.stop);
    } else if e.Drain? {
      DrainKeeps(net, e.conn, e.stop);
    } else if e.Drained? {
      DrainedKeeps(net, e.conn);
    } else {
      ClientSendKeeps(net, e.conn, e.message);
    }
  }

  lemma CleanUpKeeps(net: Net, e: Event)
    requires Inv(net) && LeftInv(net) && Enabled(net, e) && CleansUp(e)
    ensures Inv(Step(net, e))
  {
    if e.Forget? {
      ForgetStep(net, e.conn, e.subject, e.stop);
    } else {
      ReadOnStep(net, e.conn, e.stop);
    }
  }

  lemma LossKeeps(net: Net, e: Event)
    requires Inv(net) && Enabled(net, e) && Loses(e)
    ensures Inv(Step(net, e))
  {
    if e.Lose? {
      LoseKeeps(net, e.conn);
    } else if e.Fail? {
      FailKeeps(net, e.conn, e.over);
    } else if e.GiveUp? {
      GiveUpKeeps(net, e.conn);
    } else {
      ShutKeeps(net, e.conn, e.buffered);
    }
  }

  lemma GiveUpKeeps(net: Net, c: Conn)
    requires Inv(net) && Enabled(net, GiveUp(c))
    ensures Inv(Step(net, GiveUp(c)))
  {
    OnlyLeftovers(net, Step(net, GiveUp(c)));
  }

  lemma ShutKeeps(net: Net, c: Conn, n: nat)
    requires Inv(net) && Enabled(net, Shut(c, n))
    ensures Inv(Step(net, Shut(c, n)))
  {
    OnlyLeftovers(net, Step(net, Shut(c, n)));
  }

  lemma StepKeeps(net: Net, e: Event)
    requires Inv(net) && LeftInv(net) && Enabled(net, e)
    ensures Inv(Step(net, e))
  {
    if Joins(e) {
      JoinKeeps(net, e);
    } else if Moves(e) {
      MoveKeeps(net, e);
    } else if CleansUp(e) {
      CleanUpKeeps(net, e);
    } else if Loses(e) {
      LossKeeps(net, e);
    } else if e.Resume? {
      ResumeKeeps(net, e.index, e.stop);
    } else {
      UnstallKeeps(net, e.index);
    }
  }

  lemma JoinLosesNone(net: Net, e: Event)
    requires Inv(net) && LeftInv(net) && Enabled(net, e) && Joins(e)
    ensures NoneLost(net, Step(net, e))
  {
    match e
    case ClientConnect(l) => ClientConnectLeft(net, l);
    case Establish(l) => EstablishLeft(net, l);
    case Arrive(l, order) => ArriveLeft(net, l, order);
    case Activate(c, order) => ActivateLeft(net, c, order);
  }

  lemma JoinKeepsLeft(net: Net, e: Event)
    requires Inv(net) && LeftInv(net) && Enabled(net, e) && Joins(e)
    ensures LeftInv(Step(net, e))
  {
    JoinLosesNone(net, e);
    NoneLostKeeps(net, Step(net, e));
  }

  lemma MoveKeepsLeft(net: Net, e: Event)
    requires Inv(net) && LeftInv(net) && Enabled(net, e) && Moves(e)
    ensures LeftInv(Step(net, e))
  {
    if e.Receive? {
      ReceiveLeft(net, e.conn, e.stop);
    } else if e.Drain? {
      DrainLeft(net, e.conn, e.stop);
    } else if e.Drained? {
      DrainedLeft(net, e.conn);
    } else {
      ClientSendLeft(net, e.conn, e.message);
    }
  }

  lemma ClientSendLeft(net: Net, c: Conn, m: Message)
    requires Inv(net) && LeftInv(net) && Enabled(net, ClientSend(c, m))
    ensures LeftInv(Step(net, ClientSend(c, m)))
  {
    OnlySends(net, Queue(net, Send({c}, m)));
  }

  lemma CleanUpKeepsLeft(net: Net, e: Event)
    requires Inv(net) && LeftInv(net) && Enabled(net, e) && CleansUp(e)
    ensures LeftInv(Step(net, e))
  {
    if e.Forget? {
      ForgetLeft(net, e.conn, e.subject, e.stop);
    } else {
      ReadOnLeft(net, e.conn, e.stop);
    }
  }

  lemma LossKeepsLeft(net: Net, e: Event)
    requires Inv(net) && LeftInv(net) && Enabled(net, e) && Loses(e)
    ensures LeftInv(Step(net, e))
  {
    if e.Lose? {
      LoseLeft(net, e.conn);
    } else if e.Fail? {
      FailLeft(net, e.conn, e.over);
    } else if e.GiveUp? {
      GiveUpLeft(net, e.conn);
    } else {
      ShutLeft(net, e.conn, e.buffered);
    }
  }

  lemma GiveUpLeft(net: Net, c: Conn)
    requires Inv(net) && LeftInv(net) && Enabled(net, GiveUp(c))
    ensures LeftInv(Step(net, GiveUp(c)))
  {
    RemovedLeft(net, set t | t in net.lost.leaving && t.conn == c);
  }

  lemma LoseLeft(net: Net, c: Conn)
    requires Inv(net) && LeftInv(net) && Enabled(net, Lose(c))
    ensures LeftInv(Step(net, Lose(c)))
  {
    if c in net.clientConns {
      NodesSameLeft(net, Step(net, Lose(c)));
      NoneLostKeeps(net, Step(net, Lose(c)));
    } else {
      UnlistLeft(net, c, Other);
    }
  }

  lemma FailLeft(net: Net, c: Conn, over: bool)
    requires Inv(net) && LeftInv(net) && Enabled(net, Fail(c, over))
    ensures LeftInv(Step(net, Fail(c, over)))
  {
    if over {
      PopLeft(net, c);
      UnlistLeft(Pop(net, c), c, Relay(c));
    } else {
      UnlistLeft(net, c, Relay(c));
    }
  }

  lemma StepKeepsLeft(net: Net, e: Event)
    requires Inv(net) && LeftInv(net) && Enabled(net, e)
    ensures LeftInv(Step(net, e))
  {
    if Joins(e) {
      JoinKeepsLeft(net, e);
    } else if Moves(e) {
      MoveKeepsLeft(net, e);
    } else if CleansUp(e) {
      CleanUpKeepsLeft(net, e);
    } else if Loses(e) {
      LossKeepsLeft(net, e);
    } else if e.Resume? {
      ResumeLeft(net, e.index, e.stop);
    } else {
      AbandonLeft(net, e.index);
    }
  }

  lemma {:induction false} Invariant(trace: seq<Net>, events: seq<Event>, i: nat)
    requires Run(trace, events) && i < |trace|
    ensures Inv(trace[i]) && LeftInv(trace[i])
  {
    if i > 0 {
      var j := i - 1;
      Invariant(trace, events, j);
      assert Enabled(trace[j], events[j]) && trace[j + 1] == Step(trace[j], events[j]);
      StepKeeps(trace[j], events[j]);
      StepKeepsLeft(trace[j], events[j]);
    }
  }

  /** In every state of every run, what was last decided to tell each active neighbour is
      "subscribed" for exactly the subjects that some other connection of the node subscribes to. */
  lemma NeighboursAreTold(trace: seq<Net>, events: seq<Event>, i: nat, n: NodeId, c: Conn, s: Subject)
    requires Run(trace, events) && i < |trace| && n in trace[i].routers
    requires c in trace[i].routers[n].Active()
    ensures c in trace[i].decided
    ensures s in trace[i].decided[c] <==> exists d :: d != c && Tag(d, s) in trace[i].routers[n].tags
  {
    Invariant(trace, events, i);
    assert ToldOk(trace[i], trace[i].routers[n], c);
    assert Wanted(trace[i].routers[n], c, s) <==> exists d :: d != c && Tag(d, s) in trace[i].routers[n].tags;
  }

  /** In every state of every run, processing what is held from and on its way to a connection
      whose link is whole would leave it tagged with exactly what its sender told. */
  lemma QueuesReplay(trace: seq<Net>, events: seq<Event>, i: nat, n: NodeId, c: Conn)
    requires Run(trace, events) && i < |trace| && n in trace[i].routers
    requires c in trace[i].routers[n].conns && Listed(trace[i], c.Peer())
    ensures c in trace[i].chan && c.Peer() in trace[i].told
    ensures var r := trace[i].routers[n];
            Replay(TagsOf(r, c), HeldAt(r, c) + trace[i].chan[c]) == trace[i].told[c.Peer()]
  {
    Invariant(trace, events, i);
    HomeConn(trace[i], n, c);
    assert RouterOk(trace[i], n, trace[i].routers[n]);
    assert Joined(trace[i], c) && ReplayOk(trace[i], c);
  }
}
