/** Every query that a node gets is answered, in every run, whatever the timing. */
module CheckAnswers {
  import opened Links
  import opened CycleCheck
  import opened CheckLifecycle

  predicate Registered(nd: Node, q: QueryId, origin: Origin) {
    q in nd.queries && nd.queries[q].origin == origin
  }

  /** A check that asks keeps its own query, until the node is closed. */
  ghost predicate OwnHeld(nd: Node) {
    && (nd.closed ==> nd.conns == {})
    && forall c :: Asks(nd, c) ==> nd.closed || Registered(nd, nd.checks[c].query, Own(c))
  }

  ghost predicate OwnHeldInv(s: State) {
    forall n :: n in s.nodes ==> OwnHeld(s.nodes[n])
  }

  /** A query for another node keeps its place, or its answer goes out, or its source is gone. */
  ghost predicate Honours(nd: Node, out: set<Msg>, c: Conn, q: QueryId) {
    c in nd.conns ==> Registered(nd, q, Forward(c)) || exists r :: Msg(c.Peer(), Answer(q, r)) in out
  }

  // --- one event at one node ---------------------------------------------------------------

  /** No query is dropped, and every check goes on as it was or ends asking. */
  ghost predicate KeepsQueries(nd: Node, nd': Node) {
    && (forall q :: q in nd.queries ==> q in nd'.queries && nd'.queries[q].origin == nd.queries[q].origin)
    && nd'.closed == nd.closed && nd'.conns <= nd.conns
    && forall c :: Asks(nd', c) ==> Asks(nd, c) && nd'.checks[c].query == nd.checks[c].query
  }

  lemma KeptOwn(nd: Node, nd': Node)
    requires OwnHeld(nd) && KeepsQueries(nd, nd')
    ensures OwnHeld(nd')
  {
  }

  lemma KeptHonours(nd: Node, nd': Node, out: set<Msg>, c: Conn, q: QueryId)
    requires Registered(nd, q, Forward(c)) && KeepsQueries(nd, nd')
    ensures Honours(nd', out, c, q)
  {
  }

  lemma ForgetKeepsQueries(nd: Node, c: Conn)
    ensures KeepsQueries(nd, nd.Forget(c)) && KeepsQueries(nd, nd.Refuse(c))
  {
  }

  lemma AskKeepsQueries(self: NodeId, nd: Node, c: Conn, q: QueryId, target: NodeId)
    ensures KeepsQueries(nd, HandleQuery(self, nd, c, q, target).0)
  {
  }

  lemma ReplyKeepsQueries(nd: Node, c: Conn, q: QueryId, r: Result)
    ensures KeepsQueries(nd, HandleReply(nd, c, q, r))
  {
  }

  lemma DeliverKeepsQueries(nd: Node, m: Msg, next: QueryId)
    requires Possible(nd, Deliver(m))
    ensures KeepsQueries(nd, React(nd, Deliver(m), next).0)
  {
    match m.body
    case Hello(_) =>
    case Ask(q, target) => AskKeepsQueries(m.to.Node(), nd, m.to, q, target);
    case Answer(q, r) => ReplyKeepsQueries(nd, m.to, q, r);
  }

  /** What the event does to the queries, unless it opens or closes one. */
  lemma ReactKeepsQueries(nd: Node, e: Event, next: QueryId)
    requires Possible(nd, e)
    requires e.Deliver? || e.Acquire? || e.NoHello? || e.Greet? || e.Act? || e.Release? || e.Lose?
    ensures KeepsQueries(nd, React(nd, e, next).0)
  {
    if e.Deliver? {
      DeliverKeepsQueries(nd, e.msg, next);
    } else if e.Act? {
      ActKeepsQueries(nd, e.conn);
    } else if e.NoHello? || e.Greet? || e.Lose? {
      ForgetKeepsQueries(nd, e.conn);
    }
  }

  lemma ActKeepsQueries(nd: Node, c: Conn)
    requires c in nd.checks && nd.checks[c].Decided?
    ensures KeepsQueries(nd, Decide(nd, c))
  {
    ForgetKeepsQueries(nd, c);
  }

  lemma ConcludeOwnHeld(n: NodeId, nd: Node, q: QueryId, r: Result)
    requires LifeOk(n, nd) && OwnHeld(nd) && q in nd.queries
    ensures OwnHeld(Conclude(nd, q, r).0)
  {
    var nd' := Conclude(nd, q, r).0;
    forall c | Asks(nd', c) ensures nd'.closed || Registered(nd', nd'.checks[c].query, Own(c)) {
      assert Asks(nd, c) && nd'.checks[c] == nd.checks[c];
    }
  }

  lemma AbortOwnHeld(n: NodeId, nd: Node, c: Conn)
    requires LifeOk(n, nd) && OwnHeld(nd) && c in nd.checks
    ensures OwnHeld(Abort(nd, c))
  {
    var nd' := Abort(nd, c);
    forall d | Asks(nd', d) ensures nd'.closed || Registered(nd', nd'.checks[d].query, Own(d)) {
      assert Asks(nd, d) && Holds(nd, d) && d != c;
      assert nd.checks[c].Asking? ==> Holds(nd, c);
    }
  }

  lemma StartOwnHeld(n: NodeId, nd: Node, c: Conn, q: QueryId)
    requires LifeOk(n, nd) && OwnHeld(nd) && c in nd.checks && nd.checks[c].Ready? && q !in nd.queries
    ensures OwnHeld(StartAttempt(nd, c, q).0)
  {
    var nd' := StartAttempt(nd, c, q).0;
    forall d | Asks(nd', d) ensures nd'.closed || Registered(nd', nd'.checks[d].query, Own(d)) {
      assert d != c ==> Asks(nd, d) && Holds(nd, d) && Holds(nd, c);
    }
  }

  lemma OwnHeldStep(n: NodeId, nd: Node, e: Event, next: QueryId)
    requires LifeOk(n, nd) && OwnHeld(nd) && Possible(nd, e) && next !in nd.queries
    ensures OwnHeld(React(nd, e, next).0)
  {
    match e
    case Start(c) => StartOwnHeld(n, nd, c, next);
    case Finish(_, q) => ConcludeOwnHeld(n, nd, q, nd.queries[q].result.value);
    case Timeout(_, q) => ConcludeOwnHeld(n, nd, q, Unknown);
    case GiveUp(c) => AbortOwnHeld(n, nd, c);
    case Establish(l) => JoinOwnHeld(nd, e, next);
    case Arrive(l) => JoinOwnHeld(nd, e, next);
    case Close(_) =>
    case _ =>
      ReactKeepsQueries(nd, e, next);
      KeptOwn(nd, React(nd, e, next).0);
  }

  lemma JoinOwnHeld(nd: Node, e: Event, next: QueryId)
    requires OwnHeld(nd) && Possible(nd, e) && (e.Establish? || e.Arrive?)
    ensures OwnHeld(React(nd, e, next).0)
  {
    var nd' := React(nd, e, next).0;
    forall c | Asks(nd', c) ensures Registered(nd', nd'.checks[c].query, Own(c)) {
      assert Asks(nd, c) && nd'.checks[c] == nd.checks[c];
    }
  }

  /** Only its end takes a query of another node away, and that sends the answer. */
  lemma ConcludeHonours(nd: Node, k: QueryId, r: Result, c: Conn, q: QueryId)
    requires k in nd.queries && Registered(nd, q, Forward(c))
    ensures Honours(Conclude(nd, k, r).0, Conclude(nd, k, r).1, c, q)
  {
    if k == q && c in nd.conns {
      assert Msg(c.Peer(), Answer(q, r)) in Conclude(nd, k, r).1;
    }
  }

  lemma AbortHonours(nd: Node, d: Conn, c: Conn, q: QueryId)
    requires OwnHeld(nd) && d in nd.checks && Registered(nd, q, Forward(c))
    ensures Honours(Abort(nd, d), {}, c, q)
  {
    if nd.checks[d].Asking? && nd.checks[d].query == q {
      assert Asks(nd, d) && nd.closed;
    }
  }

  lemma HonoursStep(nd: Node, e: Event, next: QueryId, c: Conn, q: QueryId)
    requires OwnHeld(nd) && Possible(nd, e) && next !in nd.queries && Registered(nd, q, Forward(c))
    ensures Honours(React(nd, e, next).0, React(nd, e, next).1, c, q)
  {
    match e
    case Finish(_, k) => ConcludeHonours(nd, k, nd.queries[k].result.value, c, q);
    case Timeout(_, k) => ConcludeHonours(nd, k, Unknown, c, q);
    case GiveUp(d) => AbortHonours(nd, d, c, q);
    case Start(_) =>
    case Establish(_) =>
    case Arrive(_) =>
    case Close(_) =>
    case _ =>
      ReactKeepsQueries(nd, e, next);
      KeptHonours(nd, React(nd, e, next).0, React(nd, e, next).1, c, q);
  }

  /** A query that arrives is answered at once or registered, if it was not registered already. */
  lemma AskHonoured(n: NodeId, nd: Node, c: Conn, q: QueryId, target: NodeId)
    ensures var (nd', out) := HandleQuery(n, nd, c, q, target); Honours(nd', out, c, q)
  {
    var (nd', out) := HandleQuery(n, nd, c, q, target);
    match AnswerNow(n, nd, c, q, target)
    case Some(r) => assert Msg(c.Peer(), Answer(q, r)) in out;
    case None =>
      if nd.ActiveNodeConns() - {c} == {} {
        assert Msg(c.Peer(), Answer(q, NotFound)) in out;
      }
  }

  // --- every run -----------------------------------------------------------------------------

  lemma OwnHeldNext(s: State, e: Event)
    requires LifeInv(s) && OwnHeldInv(s) && Enabled(s, e)
    ensures OwnHeldInv(Step(s, e))
  {
    assert FreshNode(s, s.nodes[At(e)]);
    OwnHeldStep(At(e), s.nodes[At(e)], e, |s.asks|);
  }

  lemma {:induction false} OwnHeldInvariant(trace: seq<State>, events: seq<Event>, i: nat)
    requires Run(trace, events) && i < |trace|
    ensures OwnHeldInv(trace[i])
  {
    if i > 0 {
      OwnHeldInvariant(trace, events, i - 1);
      LifeInvariant(trace, events, i - 1);
      assert trace[i - 1 + 1] == Step(trace[i - 1], events[i - 1]);
      OwnHeldNext(trace[i - 1], events[i - 1]);
    }
  }

  /** The node at `c` still holds the query `q` that it got on `c`, or has answered it, or has lost
      the connection. */
  ghost predicate Answered(s: State, c: Conn, q: QueryId) {
    c.Node() in s.nodes && Honours(s.nodes[c.Node()], s.net, c, q)
  }

  /** Connections are made once. */
  lemma GoneForGood(s: State, e: Event, c: Conn)
    requires LifeInv(s) && Enabled(s, e) && c.Node() in s.nodes && c !in s.nodes[c.Node()].conns
    requires c.link in s.made && (c.up || c.link in s.arrived)
    ensures c !in Step(s, e).nodes[c.Node()].conns
  {
    NewThings(s.nodes[At(e)], e, |s.asks|);
    assert c == Conn(c.link, c.up);
  }

  lemma AnsweredStep(s: State, e: Event, c: Conn, q: QueryId)
    requires LifeInv(s) && OwnHeldInv(s) && Enabled(s, e) && Answered(s, c, q)
    requires c.link in s.made && (c.up || c.link in s.arrived)
    ensures Answered(Step(s, e), c, q)
  {
    var n := c.Node();
    var nd := s.nodes[n];
    if c !in nd.conns {
      GoneForGood(s, e, c);
    } else if r :| Msg(c.Peer(), Answer(q, r)) in s.net {
      assert Msg(c.Peer(), Answer(q, r)) in Step(s, e).net;
    } else if At(e) == n {
      assert FreshNode(s, nd);
      HonoursStep(nd, e, |s.asks|, c, q);
      var out := React(nd, e, |s.asks|).1;
      if r :| Msg(c.Peer(), Answer(q, r)) in out {
        assert Msg(c.Peer(), Answer(q, r)) in Step(s, e).net;
      }
    }
  }

  lemma AskedAnswered(s: State, m: Msg)
    requires LifeInv(s) && Enabled(s, Deliver(m)) && m.body.Ask?
    ensures Answered(Step(s, Deliver(m)), m.to, m.body.query)
    ensures m.to.link in s.made && (m.to.up || m.to.link in s.arrived)
  {
    var n := m.to.Node();
    assert FreshNode(s, s.nodes[n]);
    AskHonoured(n, s.nodes[n], m.to, m.body.query, m.body.target);
    var out := HandleQuery(n, s.nodes[n], m.to, m.body.query, m.body.target).1;
    if r :| Msg(m.to.Peer(), Answer(m.body.query, r)) in out {
      assert Msg(m.to.Peer(), Answer(m.body.query, r)) in Step(s, Deliver(m)).net;
    }
  }

  /** In every run: from the moment a node gets query `q` on `c` it holds the query for `c`, or it
      has sent the answer back on `c`, or it has lost the connection or been closed. */
  lemma QueriesAreAnswered(trace: seq<State>, events: seq<Event>, i: nat, j: nat, c: Conn, q: QueryId,
                           target: NodeId)
    requires Run(trace, events) && i < j < |trace| && events[i] == Deliver(Msg(c, Ask(q, target)))
    ensures c.Node() in trace[j].nodes
    ensures var nd := trace[j].nodes[c.Node()];
            || c !in nd.conns
            || (q in nd.queries && nd.queries[q].origin == Forward(c))
            || exists r :: Msg(c.Peer(), Answer(q, r)) in trace[j].net
  {
    AnsweredAt(trace, events, i, j, c, q, target);
  }

  lemma {:induction false} AnsweredAt(trace: seq<State>, events: seq<Event>, i: nat, j: nat, c: Conn, q: QueryId,
                                      target: NodeId)
    requires Run(trace, events) && i < j < |trace| && events[i] == Deliver(Msg(c, Ask(q, target)))
    ensures Answered(trace[j], c, q) && c.link in trace[j].made && (c.up || c.link in trace[j].arrived)
    decreases j
  {
    var h := j - 1;
    LifeInvariant(trace, events, h);
    assert Enabled(trace[h], events[h]) && trace[h + 1] == Step(trace[h], events[h]);
    if h == i {
      AskedAnswered(trace[i], Msg(c, Ask(q, target)));
    } else {
      AnsweredAt(trace, events, i, h, c, q, target);
      OwnHeldInvariant(trace, events, h);
      AnsweredStep(trace[h], events[h], c, q);
    }
  }

  /** What a node does with a query, in any state: which answer it gives at once and when, and that it
      asks every other node connection in use exactly when it gives none. */
  lemma AnswersWhen(self: NodeId, nd: Node, source: Conn, q: QueryId, target: NodeId)
    ensures var (nd', out) := HandleQuery(self, nd, source, q, target);
            var others := set d | d in nd.conns && d !in nd.pending && d in nd.peers && d != source;
            var busy := nd.checking || (source !in nd.pending && q in nd.queries);
            && (Msg(source.Peer(), Answer(q, Found)) in out <==> source !in nd.pending && target == self)
            && (Msg(source.Peer(), Answer(q, Unknown)) in out <==> busy && (source in nd.pending || target != self))
            && (Msg(source.Peer(), Answer(q, NotFound)) in out <==>
                  !busy && (source in nd.pending || (target != self && others == {})))
            && (forall m :: m in out && m.body.Ask? <==>
                  !busy && source !in nd.pending && target != self
                  && m.to.Peer() in others && m.body == Ask(q, target))
            && (forall m :: m in out && !m.body.Ask? ==> m.to == source.Peer() && m.body.Answer? && m.body.query == q)
            && (if exists m :: m in out && m.body.Ask?
                then nd' == nd.(queries := nd.queries[q := NewQuery(Forward(source), target, others)]) else nd' == nd)
  {
    var (nd', out) := HandleQuery(self, nd, source, q, target);
    var others := set d | d in nd.conns && d !in nd.pending && d in nd.peers && d != source;
    assert others == nd.ActiveNodeConns() - {source};
    if AnswerNow(self, nd, source, q, target).None? && others != {} {
      var d :| d in others;
      assert Msg(d.Peer(), Ask(q, target)) in out;
      forall m: Msg | m.to.Peer() in others && m.body == Ask(q, target) ensures m in out {
        assert m == Msg(m.to.Peer().Peer(), Ask(q, target));
      }
    }
  }

  // --- greetings ------------------------------------------------------------------------------------

  /** The node has told the other end of each of its connections who it is. */
  ghost predicate Greets(s: State) {
    forall n, c :: n in s.nodes && c in s.nodes[n].conns ==> Msg(c.Peer(), Hello(n)) in s.net
  }

  lemma NewConns(nd: Node, e: Event, q: QueryId)
    requires Possible(nd, e)
    ensures var (nd', out) := React(nd, e, q);
            forall c :: c in nd'.conns && c !in nd.conns ==> Msg(c.Peer(), Hello(At(e))) in out
  {
    if e.Deliver? {
      DeliverKeepsQueries(nd, e.msg, q);
    } else if e.Greet? || e.Act? {
      ReactKeepsQueries(nd, e, q);
    }
  }

  lemma GreetsOn(s: State, e: Event)
    requires Greets(s) && Enabled(s, e)
    ensures Greets(Step(s, e))
  {
    NewConns(s.nodes[At(e)], e, |s.asks|);
  }

  /** In every run, the other end of every connection is sent the Node ID: the check that waits for it
      waits for a message that is on its way. */
  lemma HellosAreSent(trace: seq<State>, events: seq<Event>, i: nat, n: NodeId, c: Conn)
    requires Run(trace, events) && i < |trace| && n in trace[i].nodes && c in trace[i].nodes[n].conns
    ensures Msg(c.Peer(), Hello(n)) in trace[i].net
  {
    GreetsAt(trace, events, i);
  }

  lemma {:induction false} GreetsAt(trace: seq<State>, events: seq<Event>, i: nat)
    requires Run(trace, events) && i < |trace|
    ensures Greets(trace[i])
  {
    if i > 0 {
      GreetsAt(trace, events, i - 1);
      assert Enabled(trace[i - 1], events[i - 1]) && trace[i] == Step(trace[i - 1], events[i - 1]);
      GreetsOn(trace[i - 1], events[i - 1]);
    }
  }

  lemma PeerStays(nd: Node, e: Event, q: QueryId, c: Conn)
    requires Possible(nd, e) && c in nd.peers && c in nd.conns
    ensures var nd' := React(nd, e, q).0; c in nd'.conns ==> c in nd'.peers
  {
  }

  lemma HelloArrives(s: State, c: Conn, id: NodeId)
    requires LifeInv(s) && Enabled(s, Deliver(Msg(c, Hello(id))))
    ensures var s' := Step(s, Deliver(Msg(c, Hello(id))));
            && c.Node() in s'.nodes && c in s'.nodes[c.Node()].peers && s'.nodes[c.Node()].peers[c] == id
            && c.link in s'.made && (c.up || c.link in s'.arrived)
  {
    assert FreshNode(s, s.nodes[c.Node()]);
  }

  lemma {:induction false} NamedAt(trace: seq<State>, events: seq<Event>, i: nat, j: nat, c: Conn, id: NodeId)
    requires Run(trace, events) && i < j < |trace| && events[i] == Deliver(Msg(c, Hello(id)))
    ensures c.Node() in trace[j].nodes && c.link in trace[j].made && (c.up || c.link in trace[j].arrived)
    ensures c in trace[j].nodes[c.Node()].conns ==> c in trace[j].nodes[c.Node()].peers
    decreases j
  {
    var h := j - 1;
    LifeInvariant(trace, events, h);
    assert Enabled(trace[h], events[h]) && trace[h + 1] == Step(trace[h], events[h]);
    if h == i {
      HelloArrives(trace[i], c, id);
    } else {
      NamedAt(trace, events, i, h, c, id);
      PeerNext(trace[h], events[h], c);
    }
  }

  /** From a Hello on, the node knows who is at the other end, for as long as it has the connection. */
  lemma HelloNamesPeer(trace: seq<State>, events: seq<Event>, i: nat, j: nat, c: Conn, id: NodeId)
    requires Run(trace, events) && i < j < |trace| && events[i] == Deliver(Msg(c, Hello(id)))
    ensures c.Node() in trace[i + 1].nodes && c in trace[i + 1].nodes[c.Node()].peers
    ensures trace[i + 1].nodes[c.Node()].peers[c] == id
    ensures c.Node() in trace[j].nodes
    ensures c in trace[j].nodes[c.Node()].conns ==> c in trace[j].nodes[c.Node()].peers
  {
    LifeInvariant(trace, events, i);
    assert Enabled(trace[i], events[i]) && trace[i + 1] == Step(trace[i], events[i]);
    HelloArrives(trace[i], c, id);
    NamedAt(trace, events, i, j, c, id);
  }

  lemma PeerNext(s: State, e: Event, c: Conn)
    requires LifeInv(s) && Enabled(s, e) && c.Node() in s.nodes
    requires c in s.nodes[c.Node()].conns ==> c in s.nodes[c.Node()].peers
    requires c.link in s.made && (c.up || c.link in s.arrived)
    ensures c.Node() in Step(s, e).nodes
    ensures var nd' := Step(s, e).nodes[c.Node()]; c in nd'.conns ==> c in nd'.peers
  {
    var nd := s.nodes[c.Node()];
    if c !in nd.conns {
      GoneForGood(s, e, c);
    } else if At(e) == c.Node() {
      PeerStays(nd, e, |s.asks|, c);
    }
  }

  // --- nothing is stuck -------------------------------------------------------------------------------

  /** The check of `c` can do its next step now. */
  ghost predicate CanGoOn(s: State, c: Conn) {
    exists e :: Enabled(s, e) && GoesOnBy(s, e, c)
  }

  /** The event takes the check of `c` a step further, also by ending its own query. */
  predicate GoesOnBy(s: State, e: Event, c: Conn) {
    && c.Node() in s.nodes && c in s.nodes[c.Node()].checks
    && if e.Timeout? then e.node == c.Node() && s.nodes[c.Node()].checks[c].Asking?
                          && s.nodes[c.Node()].checks[c].query == e.query
       else (e.Acquire? || e.NoHello? || e.Start? || e.Act? || e.Release? || e.GiveUp?) && e.conn == c
  }

  /** In every run, no check is stuck: it can go on, or it waits for the lock, and the check of the same
      node that holds the lock can go on. */
  lemma NoCheckIsStuck(trace: seq<State>, events: seq<Event>, i: nat, n: NodeId, c: Conn)
    requires Run(trace, events) && i < |trace| && n in trace[i].nodes && c in trace[i].nodes[n].checks
    ensures CanGoOn(trace[i], c)
            || (trace[i].nodes[n].checks[c].Waiting?
                && exists d :: d in trace[i].nodes[n].checks && d != c && CanGoOn(trace[i], d))
  {
    LifeInvariant(trace, events, i);
    OwnHeldInvariant(trace, events, i);
    var nd := trace[i].nodes[n];
    if nd.checks[c].Waiting? && nd.locked && c in nd.pending {
      var d :| Holds(nd, d);
      HolderGoesOn(trace[i], n, d);
    } else {
      HolderGoesOn(trace[i], n, c);
    }
  }

  lemma HolderGoesOn(s: State, n: NodeId, c: Conn)
    requires LifeInv(s) && OwnHeldInv(s) && n in s.nodes && c in s.nodes[n].checks
    requires s.nodes[n].checks[c].Waiting? && c in s.nodes[n].pending ==> !s.nodes[n].locked
    ensures CanGoOn(s, c)
  {
    var nd := s.nodes[n];
    assert LifeOk(n, nd) && OwnHeld(nd);
    var e := match nd.checks[c]
             case Accepted => Release(c)
             case Waiting => if c in nd.pending then Acquire(c) else GiveUp(c)
             case Greeting => if c in nd.pending then NoHello(c) else GiveUp(c)
             case Ready(_, _) => if c in nd.pending then Start(c) else GiveUp(c)
             case Asking(_, _, q) => if c in nd.pending then Timeout(n, q) else GiveUp(c)
             case Decided(_, _, _, _) => if c in nd.pending then Act(c) else GiveUp(c);
    assert Enabled(s, e) && GoesOnBy(s, e, c);
  }
}
