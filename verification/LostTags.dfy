/** What each step does to the tags of a lost connection, and to what is on record about it. */
module LostTags {
  import opened Links
  import opened Results
  import opened Subjects
  import opened Routing
  import opened RoutingInvariant
  import opened RoutingRuns

  ghost function LeavingOf(net: Net, c: Conn): set<Subject> {
    set t | t in net.lost.leaving && t.conn == c :: t.subject
  }

  ghost function NodeTags(net: Net, c: Conn): set<Subject> {
    if AtRouter(net, c) then TagsOf(net.routers[c.Node()], c) else {}
  }

  lemma LeavingIs(net: Net, c: Conn, s: Subject)
    ensures s in LeavingOf(net, c) <==> Tag(c, s) in net.lost.leaving
  {
    if Tag(c, s) in net.lost.leaving {
      assert Tag(c, s).conn == c && Tag(c, s).subject == s;
    }
  }

  // --- what one step does to the tags of a lost connection ----------------------------------------

  /** The step changes neither the tags of `c` nor what is to be removed of them, nor the rest of
      what is on record about it. */
  ghost predicate Untouched(net: Net, net': Net, c: Conn) {
    && c in net.lost.loss && c in net'.lost.loss && net'.lost.loss[c] == net.lost.loss[c]
    && NodeTags(net', c) == NodeTags(net, c) && LeavingOf(net', c) == LeavingOf(net, c)
  }

  lemma SameTags(net: Net, net': Net, c: Conn)
    requires c in net.lost.loss && net'.lost == net.lost
    requires AtRouter(net, c) && AtRouter(net', c)
    requires net'.routers[c.Node()].tags == net.routers[c.Node()].tags
    ensures Untouched(net, net', c)
  {
    assert LeavingOf(net', c) == LeavingOf(net, c);
  }

  lemma UnlistUntouched(net: Net, d: Conn, task: Task, c: Conn)
    requires c in net.lost.loss && c != d && AtRouter(net, c) && AtRouter(net, d)
    ensures Untouched(net, Unlist(net, d, task), c)
  {
    var net' := Unlist(net, d, task);
    forall s ensures s in LeavingOf(net', c) <==> s in LeavingOf(net, c) {
      LeavingIs(net, c, s);
      LeavingIs(net', c, s);
    }
    assert net'.routers[c.Node()].tags == net.routers[c.Node()].tags;
  }

  lemma SpreadUntouched(net: Net, task: Task, send: Send, stop: Option<Stop>, c: Conn)
    requires LossInv(net) && c in net.lost.loss && StopOk(net, send, stop)
    ensures Untouched(net, Spread(net, task, send, stop), c)
  {
    LossIsOld(net, c);
    match stop
    case None => SameTags(net, Queue(net, send), c);
    case Some(Stop(at, late)) =>
      var net1 := Queue(net, Send(send.to - late - {at}, send.message))
                  .(stalled := if late == {} then net.stalled
                               else net.stalled + [Fanout(task, at, Send(late, send.message))]);
      NotLost(net, at);
      SameTags(net, net1, c);
      UnlistUntouched(net1, at, task, c);
  }

  /** What a step of the node at `d` does to the tags of `c` is what it does to the router. */
  lemma CarryTags(net: Net, task: Task, d: Conn, r': Router, send: Send, stop: Option<Stop>, c: Conn)
    requires LossInv(net) && RoutersOk(net) && AtRouter(net, d) && r'.conns == net.routers[d.Node()].conns
    requires c in net.lost.loss && StopOk(net, send, stop)
    ensures var net' := Carry(net, task, d, r', send, stop);
            && c in net'.lost.loss && net'.lost.loss[c] == net.lost.loss[c]
            && NodeTags(net', c) == NodeTags(SetRouter(net, d.Node(), r'), c)
            && LeavingOf(net', c) == LeavingOf(net, c)
  {
    var net1 := Decide(SetRouter(net, d.Node(), r'), send);
    forall b | b in net1.lost.loss ensures LossOk(net1, b) {
      assert LossOk(net, b);
    }
    SpreadUntouched(net1, task, send, stop, c);
    assert LeavingOf(net1, c) == LeavingOf(net, c);
    assert NodeTags(net1, c) == NodeTags(SetRouter(net, d.Node(), r'), c);
  }

  /** Handling a message from `d` changes the tags of `d` alone. */
  lemma ProcessTags(net: Net, task: Task, d: Conn, m: Message, stop: Option<Stop>, c: Conn)
    requires LossInv(net) && RoutersOk(net) && AtRouter(net, d) && c in net.lost.loss
    requires d.link in net.arrived && d !in net.routers[d.Node()].pending
    requires StopOk(net, Response(net, d, m).1, stop)
    ensures var net' := Process(net, task, d, m, stop);
            && c in net'.lost.loss && net'.lost.loss[c] == net.lost.loss[c]
            && NodeTags(net', c) == (if c == d then Apply(NodeTags(net, c), m) else NodeTags(net, c))
            && LeavingOf(net', c) == LeavingOf(net, c)
  {
    var (r', send) := Response(net, d, m);
    LossIsOld(net, c);
    assert RouterOk(net, d.Node(), net.routers[d.Node()]);
    HandleShape(net, d.Node(), net.routers[d.Node()], d, m);
    CarryTags(net, task, d, r', send, stop, c);
  }

  lemma RemovalTags(net: Net, task: Task, d: Conn, s: Subject, stop: Option<Stop>, c: Conn)
    requires LossInv(net) && RoutersOk(net) && AtRouter(net, d) && c in net.lost.loss
    requires StopOk(net, Removal(net, d, s).1, stop)
    ensures var (r', send) := Removal(net, d, s);
            var net' := Carry(net, task, d, r', send, stop);
            && c in net'.lost.loss && net'.lost.loss[c] == net.lost.loss[c]
            && NodeTags(net', c) == (if c == d then NodeTags(net, c) - {s} else NodeTags(net, c))
            && LeavingOf(net', c) == LeavingOf(net, c)
  {
    var (r', send) := Removal(net, d, s);
    LossIsOld(net, c);
    assert RouterOk(net, d.Node(), net.routers[d.Node()]);
    UnsubscribeShape(net, d.Node(), net.routers[d.Node()], d, s);
    CarryTags(net, task, d, r', send, stop, c);
  }

  lemma JoinUntouched(net: Net, e: Event, c: Conn)
    requires LossInv(net) && Enabled(net, e) && Joins(e) && c in net.lost.loss
    ensures Untouched(net, Step(net, e), c)
  {
    LossIsOld(net, c);
    if e.Arrive? {
      TellAllOnly(Arrived(net, e.link), Conn(e.link, false), e.order);
    } else if e.Activate? {
      var r := net.routers[e.conn.Node()];
      TellAllOnly(SetRouter(net, e.conn.Node(), r.(pending := r.pending - {e.conn})), e.conn, e.order);
    }
    SameTags(net, Step(net, e), c);
  }

  lemma Both(net: Net, net1: Net, net2: Net, c: Conn)
    requires Untouched(net, net1, c) && Untouched(net1, net2, c)
    ensures Untouched(net, net2, c)
  {
  }

  lemma ProcessUntouched(net: Net, task: Task, d: Conn, m: Message, stop: Option<Stop>, c: Conn)
    requires LossInv(net) && RoutersOk(net) && AtRouter(net, d) && c in net.lost.loss && c != d
    requires d.link in net.arrived && d !in net.routers[d.Node()].pending
    requires StopOk(net, Response(net, d, m).1, stop)
    ensures Untouched(net, Process(net, task, d, m, stop), c)
  {
    ProcessTags(net, task, d, m, stop, c);
  }

  lemma PopUntouched(net: Net, d: Conn, c: Conn)
    requires LossInv(net) && c in net.lost.loss && d in net.chan && net.chan[d] != []
    ensures Untouched(net, Pop(net, d), c)
  {
    LossIsOld(net, c);
    SameTags(net, Pop(net, d), c);
  }

  lemma ReceiveHandledUntouched(net: Net, d: Conn, stop: Option<Stop>, c: Conn)
    requires Inv(net) && LeftInv(net) && Enabled(net, Receive(d, stop)) && c in net.lost.loss
    requires AtRouter(net, d) && d in net.routers[d.Node()].conns && d !in net.routers[d.Node()].held
    ensures Untouched(net, Step(net, Receive(d, stop)), c)
  {
    InvAt(net, d);
    NotLost(net, d);
    HandledUntouched(net, d, net.chan[d][0], stop, c);
  }

  lemma HandledUntouched(net: Net, d: Conn, m: Message, stop: Option<Stop>, c: Conn)
    requires Shape(net) && LeftInv(net) && c in net.lost.loss && d !in net.lost.loss
    requires AtRouter(net, d) && d.link in net.arrived && d !in net.routers[d.Node()].pending
    requires d in net.chan && net.chan[d] != [] && StopOk(net, Response(net, d, m).1, stop)
    ensures Untouched(net, Process(Pop(net, d), Relay(d), d, m, stop), c)
  {
    PopLeft(net, d);
    PopUntouched(net, d, c);
    PopResponse(net, d, m, stop);
    ProcessUntouched(Pop(net, d), Relay(d), d, m, stop, c);
  }

  lemma ReceiveKeptUntouched(net: Net, d: Conn, stop: Option<Stop>, c: Conn)
    requires LossInv(net) && Enabled(net, Receive(d, stop)) && c in net.lost.loss
    requires AtRouter(net, d) ==> d in net.routers[d.Node()].held
    ensures Untouched(net, Step(net, Receive(d, stop)), c)
  {
    LossIsOld(net, c);
    SameTags(net, Step(net, Receive(d, stop)), c);
  }

  lemma ReceiveUntouched(net: Net, d: Conn, stop: Option<Stop>, c: Conn)
    requires Inv(net) && LeftInv(net) && Enabled(net, Receive(d, stop)) && c in net.lost.loss
    ensures Untouched(net, Step(net, Receive(d, stop)), c)
  {
    if AtRouter(net, d) && d !in net.routers[d.Node()].held {
      ListedAtRouter(net, d);
      ReceiveHandledUntouched(net, d, stop, c);
    } else {
      ReceiveKeptUntouched(net, d, stop, c);
    }
  }

  lemma UnheldUntouched(net: Net, d: Conn, c: Conn)
    requires LossInv(net) && c in net.lost.loss
    requires AtRouter(net, d) && d in net.routers[d.Node()].held && net.routers[d.Node()].held[d] != []
    ensures Untouched(net, Unheld(net, d), c)
  {
    LossIsOld(net, c);
    SameTags(net, Unheld(net, d), c);
  }

  lemma UnheldLeft(net: Net, d: Conn)
    requires Inv(net) && LeftInv(net) && AtRouter(net, d) && d !in net.routers[d.Node()].pending
    requires d in net.routers[d.Node()].held && net.routers[d.Node()].held[d] != []
    ensures LeftInv(Unheld(net, d)) && RoutersOk(Unheld(net, d)) && d.link in net.arrived && d !in net.lost.loss
  {
    var n, r := d.Node(), net.routers[d.Node()];
    HeldConn(net, d);
    InvAt(net, d);
    NotLost(net, d);
    SetHeld(net, n, r, d, r.held[d][1..]);
    HeldLeft(net, n, r.(held := r.held[d := r.held[d][1..]]), d);
  }

  lemma DrainUntouched(net: Net, d: Conn, stop: Option<Stop>, c: Conn)
    requires Inv(net) && LeftInv(net) && Enabled(net, Drain(d, stop)) && c in net.lost.loss
    ensures Untouched(net, Step(net, Drain(d, stop)), c)
  {
    var m := net.routers[d.Node()].held[d][0];
    UnheldLeft(net, d);
    DrainedUntouched(net, d, m, stop, c);
  }

  lemma DrainedUntouched(net: Net, d: Conn, m: Message, stop: Option<Stop>, c: Conn)
    requires AtRouter(net, d) && d.link in net.arrived && d !in net.lost.loss && d !in net.routers[d.Node()].pending
    requires d in net.routers[d.Node()].held && net.routers[d.Node()].held[d] != []
    requires LeftInv(net) && LeftInv(Unheld(net, d)) && RoutersOk(Unheld(net, d)) && c in net.lost.loss
    requires StopOk(net, Response(net, d, m).1, stop)
    ensures Untouched(net, Process(Unheld(net, d), Checker(d), d, m, stop), c)
  {
    UnheldUntouched(net, d, c);
    UnheldResponse(net, d, m, stop);
    ProcessUntouched(Unheld(net, d), Checker(d), d, m, stop, c);
  }

  lemma NodesSameUntouched(net: Net, e: Event, c: Conn)
    requires LossInv(net) && Enabled(net, e) && (e.ClientSend? || e.Drained?) && c in net.lost.loss
    ensures Untouched(net, Step(net, e), c)
  {
    LossIsOld(net, c);
    SameTags(net, Step(net, e), c);
  }

  lemma FanoutUntouched(net: Net, e: Event, c: Conn)
    requires LossInv(net) && Enabled(net, e) && (e.Resume? || e.Abandon?) && c in net.lost.loss
    ensures Untouched(net, Step(net, e), c)
  {
    var net1 := Unstall(net, e.index);
    LossIsOld(net, c);
    SameTags(net, net1, c);
    if e.Resume? {
      forall d | d in net1.lost.loss ensures LossOk(net1, d) {
        assert LossOk(net, d);
      }
      SpreadUntouched(net1, net.stalled[e.index].task, OnOpen(net, net.stalled[e.index].rest), e.stop, c);
    }
  }

  /** A connection is lost once. */
  lemma LostOnce(net: Net, d: Conn, c: Conn)
    requires LossInv(net) && Listed(net, d) && c in net.lost.loss
    ensures d != c
  {
    LossIsOld(net, c);
  }

  lemma LoseUntouched(net: Net, e: Event, c: Conn)
    requires LossInv(net) && Enabled(net, e) && (e.Lose? || e.Fail?) && c in net.lost.loss
    ensures Untouched(net, Step(net, e), c)
  {
    var d := e.conn;
    LostOnce(net, d, c);
    LossIsOld(net, c);
    if e.Lose? {
      if d in net.clientConns {
        SameTags(net, Step(net, e), c);
      } else {
        UnlistUntouched(net, d, Other, c);
      }
    } else if e.over {
      SameTags(net, Pop(net, d), c);
      UnlistUntouched(Pop(net, d), d, Relay(d), c);
    } else {
      UnlistUntouched(net, d, Relay(d), c);
    }
  }

  /** How the tags of a lost connection and those to be removed of them change. */
  ghost predicate TagsNext(net: Net, e: Event, net': Net, c: Conn) {
    && NodeTags(net', c) == (if e.ReadOn? && e.conn == c && HasNext(net, c) then Apply(NodeTags(net, c), NextOf(net, c))
                             else if e.Forget? && e.conn == c then NodeTags(net, c) - {e.subject}
                             else NodeTags(net, c))
    && LeavingOf(net', c) == (if e.Forget? && e.conn == c then LeavingOf(net, c) - {e.subject}
                              else if e.GiveUp? && e.conn == c then {}
                              else LeavingOf(net, c))
  }

  /** How the rest of what is on record about it changes. */
  ghost predicate LossNext(net: Net, e: Event, net': Net, c: Conn)
    requires Enabled(net, e) && c in net.lost.loss
  {
    var l := net.lost.loss[c];
    && c in net'.lost.loss
    && net'.lost.loss[c] == if e.Shut? && e.conn == c then
                              Loss(l.task, true, if l.task == Relay(c) then net.chan[c][..e.buffered] else [])
                            else if e.ReadOn? && e.conn == c && l.closed then l.(unread := l.unread[1..])
                            else l
  }

  lemma ForgetNext(net: Net, d: Conn, s: Subject, stop: Option<Stop>, c: Conn)
    requires Inv(net) && LeftInv(net) && Enabled(net, Forget(d, s, stop)) && c in net.lost.loss
    ensures var e := Forget(d, s, stop); TagsNext(net, e, Step(net, e), c) && LossNext(net, e, Step(net, e), c)
  {
    ForgetTags(net, d, s, stop, c);
  }

  lemma ForgetTags(net: Net, d: Conn, s: Subject, stop: Option<Stop>, c: Conn)
    requires LeftInv(net) && RoutersOk(net) && AtRouter(net, d) && c in net.lost.loss && d in net.lost.loss
    requires StopOk(net, Removal(net, d, s).1, stop)
    ensures var (r', send) := Removal(net, d, s);
            var net' := Carry(Removed(net, {Tag(d, s)}), net.lost.loss[d].task, d, r', send, stop);
            && c in net'.lost.loss && net'.lost.loss[c] == net.lost.loss[c]
            && NodeTags(net', c) == (if c == d then NodeTags(net, c) - {s} else NodeTags(net, c))
            && LeavingOf(net', c) == (if c == d then LeavingOf(net, c) - {s} else LeavingOf(net, c))
  {
    RemovedLeft(net, {Tag(d, s)});
    RemovedSends(net, d, s, stop);
    LeavingLess(net, d, s, c);
    ForgetsTags(net, Removed(net, {Tag(d, s)}), d, s, stop, c);
  }

  lemma ForgetsTags(net: Net, net1: Net, d: Conn, s: Subject, stop: Option<Stop>, c: Conn)
    requires LossInv(net1) && RoutersOk(net1) && AtRouter(net1, d) && c in net.lost.loss && d in net.lost.loss
    requires net1 == net.(lost := net1.lost) && net1.lost.loss == net.lost.loss
    requires Removal(net1, d, s) == Removal(net, d, s) && StopOk(net1, Removal(net1, d, s).1, stop)
    requires LeavingOf(net1, c) == if c == d then LeavingOf(net, c) - {s} else LeavingOf(net, c)
    ensures var (r', send) := Removal(net, d, s);
            var net' := Carry(net1, net.lost.loss[d].task, d, r', send, stop);
            && c in net'.lost.loss && net'.lost.loss[c] == net.lost.loss[c]
            && NodeTags(net', c) == (if c == d then NodeTags(net, c) - {s} else NodeTags(net, c))
            && LeavingOf(net', c) == (if c == d then LeavingOf(net, c) - {s} else LeavingOf(net, c))
  {
    RemovalTags(net1, net.lost.loss[d].task, d, s, stop, c);
  }

  lemma LeavingLess(net: Net, d: Conn, s: Subject, c: Conn)
    ensures LeavingOf(Removed(net, {Tag(d, s)}), c) == if c == d then LeavingOf(net, c) - {s} else LeavingOf(net, c)
  {
    forall k ensures k in LeavingOf(Removed(net, {Tag(d, s)}), c)
                     <==> k in LeavingOf(net, c) && !(c == d && k == s) {
      LeavingIs(net, c, k);
      LeavingIs(Removed(net, {Tag(d, s)}), c, k);
    }
  }

  lemma GiveUpNext(net: Net, d: Conn, c: Conn)
    requires LossInv(net) && Enabled(net, GiveUp(d)) && c in net.lost.loss
    ensures TagsNext(net, GiveUp(d), Step(net, GiveUp(d)), c) && LossNext(net, GiveUp(d), Step(net, GiveUp(d)), c)
  {
    var net' := Step(net, GiveUp(d));
    forall k ensures k in LeavingOf(net', c) <==> k in LeavingOf(net, c) && c != d {
      LeavingIs(net, c, k);
      LeavingIs(net', c, k);
    }
    LossIsOld(net, c);
  }

  lemma ShutNext(net: Net, d: Conn, n: nat, c: Conn)
    requires LossInv(net) && Enabled(net, Shut(d, n)) && c in net.lost.loss
    ensures TagsNext(net, Shut(d, n), Step(net, Shut(d, n)), c)
    ensures LossNext(net, Shut(d, n), Step(net, Shut(d, n)), c)
  {
    LossIsOld(net, c);
    assert LeavingOf(Step(net, Shut(d, n)), c) == LeavingOf(net, c);
  }

  lemma TakeNextTags(net: Net, d: Conn, c: Conn)
    requires LossInv(net) && HasNext(net, d) && c in net.lost.loss
    ensures NodeTags(TakeNext(net, d), c) == NodeTags(net, c) && LeavingOf(TakeNext(net, d), c) == LeavingOf(net, c)
    ensures c in TakeNext(net, d).lost.loss
    ensures TakeNext(net, d).lost.loss[c] == if c == d && net.lost.loss[c].closed
                                             then net.lost.loss[c].(unread := net.lost.loss[c].unread[1..])
                                             else net.lost.loss[c]
  {
    LossIsOld(net, c);
    assert LeavingOf(TakeNext(net, d), c) == LeavingOf(net, c);
  }

  lemma ReadOnNext(net: Net, d: Conn, stop: Option<Stop>, c: Conn)
    requires Inv(net) && LeftInv(net) && Enabled(net, ReadOn(d, stop)) && c in net.lost.loss
    ensures var e := ReadOn(d, stop); TagsNext(net, e, Step(net, e), c) && LossNext(net, e, Step(net, e), c)
  {
    LateReadTags(net, TakeNext(net, d), d, NextOf(net, d), stop, c);
    ReadNext(net, d, stop, Step(net, ReadOn(d, stop)), c);
  }

  lemma ReadNext(net: Net, d: Conn, stop: Option<Stop>, net': Net, c: Conn)
    requires Enabled(net, ReadOn(d, stop)) && c in net.lost.loss && Read(net, net', d, NextOf(net, d), c)
    ensures TagsNext(net, ReadOn(d, stop), net', c) && LossNext(net, ReadOn(d, stop), net', c)
  {
  }

  /** What reading `m` late on `d` does to the tags and the record of `c`. */
  ghost predicate Read(net: Net, net': Net, d: Conn, m: Message, c: Conn)
    requires c in net.lost.loss
  {
    var l := net.lost.loss[c];
    && c in net'.lost.loss
    && (c != d || !l.closed ==> net'.lost.loss[c] == l)
    && (c == d && l.closed && l.unread != [] ==> net'.lost.loss[c] == l.(unread := l.unread[1..]))
    && NodeTags(net', c) == (if c == d then Apply(NodeTags(net, c), m) else NodeTags(net, c))
    && LeavingOf(net', c) == LeavingOf(net, c)
  }

  lemma LateReadTags(net: Net, net1: Net, d: Conn, m: Message, stop: Option<Stop>, c: Conn)
    requires Inv(net) && LeftInv(net) && HasNext(net, d) && StopOk(net, Response(net, d, m).1, stop)
    requires c in net.lost.loss && net1 == TakeNext(net, d) && net1.routers == net.routers
    ensures Read(net, Process(net1, Relay(d), d, m, stop), d, m, c)
  {
    LateIsGone(net, d);
    TakeNextLeft(net, d);
    TakeNextTags(net, d, c);
    TakeNextSends(net, d, m, stop);
    ReadsTags(net, net1, d, m, stop, c);
  }

  lemma ReadsTags(net: Net, net1: Net, d: Conn, m: Message, stop: Option<Stop>, c: Conn)
    requires LossInv(net1) && RoutersOk(net1) && c in net1.lost.loss && Gone(net1, d)
    requires NodeTags(net1, c) == NodeTags(net, c) && LeavingOf(net1, c) == LeavingOf(net, c)
    requires StopOk(net1, Response(net1, d, m).1, stop)
    ensures var net' := Process(net1, Relay(d), d, m, stop);
            && c in net'.lost.loss && net'.lost.loss[c] == net1.lost.loss[c]
            && NodeTags(net', c) == (if c == d then Apply(NodeTags(net, c), m) else NodeTags(net, c))
            && LeavingOf(net', c) == LeavingOf(net, c)
  {
    ProcessTags(net1, Relay(d), d, m, stop, c);
  }

  lemma UntouchedNext(net: Net, e: Event, net': Net, c: Conn)
    requires Enabled(net, e) && c in net.lost.loss && Untouched(net, net', c)
    requires !(e.ReadOn? || e.Forget? || e.GiveUp? || e.Shut?)
    ensures TagsNext(net, e, net', c) && LossNext(net, e, net', c)
  {
  }

  lemma StepNext(net: Net, e: Event, c: Conn)
    requires Inv(net) && LeftInv(net) && Enabled(net, e) && c in net.lost.loss
    ensures TagsNext(net, e, Step(net, e), c) && LossNext(net, e, Step(net, e), c)
  {
    if e.ReadOn? {
      ReadOnNext(net, e.conn, e.stop, c);
    } else if e.Forget? {
      ForgetNext(net, e.conn, e.subject, e.stop, c);
    } else if e.GiveUp? {
      GiveUpNext(net, e.conn, c);
    } else if e.Shut? {
      ShutNext(net, e.conn, e.buffered, c);
    } else {
      RestUntouched(net, e, c);
      UntouchedNext(net, e, Step(net, e), c);
    }
  }

  lemma RestUntouched(net: Net, e: Event, c: Conn)
    requires Inv(net) && LeftInv(net) && Enabled(net, e) && c in net.lost.loss
    requires !(e.ReadOn? || e.Forget? || e.GiveUp? || e.Shut?)
    ensures Untouched(net, Step(net, e), c)
  {
    if Joins(e) {
      JoinUntouched(net, e, c);
    } else if e.Receive? {
      ReceiveUntouched(net, e.conn, e.stop, c);
    } else if e.Drain? {
      DrainUntouched(net, e.conn, e.stop, c);
    } else if e.ClientSend? || e.Drained? {
      NodesSameUntouched(net, e, c);
    } else if e.Lose? || e.Fail? {
      LoseUntouched(net, e, c);
    } else {
      FanoutUntouched(net, e, c);
    }
  }

  // --- losing one ------------------------------------------------------------------------------------

  lemma UnlistAll(net: Net, c: Conn, task: Task)
    requires AtRouter(net, c)
    ensures NodeTags(Unlist(net, c, task), c) <= LeavingOf(Unlist(net, c, task), c)
  {
    var net' := Unlist(net, c, task);
    forall s | s in NodeTags(net', c) ensures s in LeavingOf(net', c) {
      TagsAre(net'.routers[c.Node()], c);
      LeavingIs(net', c, s);
    }
  }

  /** A connection that a step loses is the one it unlists, and all its tags are to be removed. */
  lemma SpreadLoses(net: Net, task: Task, send: Send, stop: Option<Stop>, c: Conn)
    requires StopOk(net, send, stop) && c !in net.lost.loss && c in Spread(net, task, send, stop).lost.loss
    ensures NodeTags(Spread(net, task, send, stop), c) <= LeavingOf(Spread(net, task, send, stop), c)
    ensures Spread(net, task, send, stop).lost.loss[c] == Loss(task, false, [])
  {
    match stop
    case Some(Stop(at, late)) =>
      var net1 := Queue(net, Send(send.to - late - {at}, send.message))
                  .(stalled := if late == {} then net.stalled
                               else net.stalled + [Fanout(task, at, Send(late, send.message))]);
      UnlistAll(net1, at, task);
  }

  /** A connection that has just been lost: its tags are to be removed, and nothing was read late. */
  ghost predicate JustLost(net: Net, c: Conn) {
    c in net.lost.loss && NodeTags(net, c) <= LeavingOf(net, c) && !net.lost.loss[c].closed
  }

  lemma ProcessLoses(net: Net, task: Task, d: Conn, m: Message, stop: Option<Stop>, c: Conn)
    requires AtRouter(net, d) && StopOk(net, Response(net, d, m).1, stop)
    requires c !in net.lost.loss && c in Process(net, task, d, m, stop).lost.loss
    ensures JustLost(Process(net, task, d, m, stop), c)
  {
    var (r', send) := Response(net, d, m);
    SpreadLoses(Decide(SetRouter(net, d.Node(), r'), send), task, send, stop, c);
  }

  lemma ReceiveLoses(net: Net, d: Conn, stop: Option<Stop>, c: Conn)
    requires Enabled(net, Receive(d, stop)) && c !in net.lost.loss && c in Step(net, Receive(d, stop)).lost.loss
    ensures JustLost(Step(net, Receive(d, stop)), c)
  {
    PopResponse(net, d, net.chan[d][0], stop);
    ProcessLoses(Pop(net, d), Relay(d), d, net.chan[d][0], stop, c);
  }

  lemma DrainLoses(net: Net, d: Conn, stop: Option<Stop>, c: Conn)
    requires Enabled(net, Drain(d, stop)) && c !in net.lost.loss && c in Step(net, Drain(d, stop)).lost.loss
    ensures JustLost(Step(net, Drain(d, stop)), c)
  {
    UnheldResponse(net, d, net.routers[d.Node()].held[d][0], stop);
    ProcessLoses(Unheld(net, d), Checker(d), d, net.routers[d.Node()].held[d][0], stop, c);
  }

  lemma ForgetLoses(net: Net, d: Conn, s: Subject, stop: Option<Stop>, c: Conn)
    requires Enabled(net, Forget(d, s, stop)) && c !in net.lost.loss
    requires c in Step(net, Forget(d, s, stop)).lost.loss
    ensures JustLost(Step(net, Forget(d, s, stop)), c)
  {
    var (r', send) := Removal(net, d, s);
    RemovedSends(net, d, s, stop);
    SpreadLoses(Decide(SetRouter(Removed(net, {Tag(d, s)}), d.Node(), r'), send), net.lost.loss[d].task, send, stop, c);
  }

  lemma ReadOnLoses(net: Net, d: Conn, stop: Option<Stop>, c: Conn)
    requires Enabled(net, ReadOn(d, stop)) && c !in net.lost.loss && c in Step(net, ReadOn(d, stop)).lost.loss
    ensures JustLost(Step(net, ReadOn(d, stop)), c)
  {
    TakeNextSends(net, d, NextOf(net, d), stop);
    ProcessLoses(TakeNext(net, d), Relay(d), d, NextOf(net, d), stop, c);
  }

  lemma ResumeLoses(net: Net, i: nat, stop: Option<Stop>, c: Conn)
    requires Enabled(net, Resume(i, stop)) && c !in net.lost.loss && c in Step(net, Resume(i, stop)).lost.loss
    ensures JustLost(Step(net, Resume(i, stop)), c)
  {
    SpreadLoses(Unstall(net, i), net.stalled[i].task, OnOpen(net, net.stalled[i].rest), stop, c);
  }

  lemma UnlistLoses(net: Net, e: Event, c: Conn)
    requires Enabled(net, e) && (e.Lose? || e.Fail?) && c !in net.lost.loss && c in Step(net, e).lost.loss
    ensures JustLost(Step(net, e), c)
  {
    if e.Lose? {
      UnlistAll(net, e.conn, Other);
    } else {
      UnlistAll(if e.over then Pop(net, e.conn) else net, e.conn, Relay(e.conn));
    }
  }

  lemma JoinLosesNobody(net: Net, e: Event)
    requires Enabled(net, e) && Joins(e)
    ensures Step(net, e).lost == net.lost
  {
    if e.Arrive? {
      TellAllOnly(Arrived(net, e.link), Conn(e.link, false), e.order);
    } else if e.Activate? {
      var r := net.routers[e.conn.Node()];
      TellAllOnly(SetRouter(net, e.conn.Node(), r.(pending := r.pending - {e.conn})), e.conn, e.order);
    }
  }

  lemma StepLoses(net: Net, e: Event, c: Conn)
    requires Enabled(net, e) && c !in net.lost.loss && c in Step(net, e).lost.loss
    ensures JustLost(Step(net, e), c)
  {
    if Joins(e) {
      JoinLosesNobody(net, e);
    } else if e.Receive? {
      ReceiveLoses(net, e.conn, e.stop, c);
    } else if e.Drain? {
      DrainLoses(net, e.conn, e.stop, c);
    } else if e.Forget? {
      ForgetLoses(net, e.conn, e.subject, e.stop, c);
    } else if e.ReadOn? {
      ReadOnLoses(net, e.conn, e.stop, c);
    } else if e.Resume? {
      ResumeLoses(net, e.index, e.stop, c);
    } else if e.Lose? || e.Fail? {
      UnlistLoses(net, e, c);
    }
  }
}
