/** What one node's checks keep over every run, whatever the timing: no guard is assumed. */
module CheckLifecycle {
  import opened Links
  import opened CycleCheck

  /** The check has the lock. */
  predicate Holds(nd: Node, c: Conn) {
    c in nd.checks && !nd.checks[c].Waiting?
  }

  predicate Asks(nd: Node, c: Conn) {
    c in nd.checks && nd.checks[c].Asking?
  }

  ghost predicate LifeOk(n: NodeId, nd: Node) {
    && (forall c :: c in nd.conns || c in nd.checks ==> c.Node() == n)
    && (forall c :: c in nd.checks ==> c.up)
    && (forall c :: c in nd.pending ==> c in nd.conns && c in nd.checks && !nd.checks[c].Accepted?)
    && (forall c :: c in nd.conns && c in nd.checks && !nd.checks[c].Accepted? ==> c in nd.pending)
    && (forall c, d :: Holds(nd, c) && Holds(nd, d) ==> c == d)
    && (nd.locked <==> exists c :: Holds(nd, c))
    && (nd.checking <==> exists c :: Asks(nd, c))
    && (forall c :: c in nd.pending && Asks(nd, c) ==>
          nd.checks[c].query in nd.queries && nd.queries[nd.checks[c].query].origin == Own(c))
    && (forall q :: q in nd.queries && nd.queries[q].origin.Own? ==>
          var c := nd.queries[q].origin.conn; Asks(nd, c) && nd.checks[c].query == q)
  }

  /** Link and query identifiers are used once only. */
  ghost predicate FreshNode(s: State, nd: Node) {
    && (forall c :: c in nd.conns || c in nd.checks ==> c.link in s.made && (c.up || c.link in s.arrived))
    && (forall q :: q in nd.queries ==> q < |s.asks|)
  }

  ghost predicate LifeInv(s: State) {
    && (forall n :: n in s.nodes ==> LifeOk(n, s.nodes[n]) && FreshNode(s, s.nodes[n]))
    && (forall m :: m in s.net && m.body.Ask? ==> m.body.query < |s.asks|)
    && s.arrived <= s.made
  }

  // --- what the handlers do to one node --------------------------------------------

  lemma ForgetLife(n: NodeId, nd: Node, c: Conn)
    requires LifeOk(n, nd)
    ensures LifeOk(n, nd.Forget(c))
  {
    assert forall d :: Holds(nd.Forget(c), d) == Holds(nd, d) && Asks(nd.Forget(c), d) == Asks(nd, d);
  }

  lemma RefuseLife(n: NodeId, nd: Node, c: Conn)
    requires LifeOk(n, nd) && Holds(nd, c) && !nd.checks[c].Asking?
    ensures LifeOk(n, nd.Refuse(c))
  {
    var nd' := nd.Refuse(c);
    assert forall d :: Holds(nd', d) ==> Holds(nd, d) && d != c;
    assert forall d :: Asks(nd', d) == Asks(nd, d);
  }

  /** A check that holds the lock goes on to a phase that asks no query. */
  lemma PhaseLife(n: NodeId, nd: Node, c: Conn, p: Phase)
    requires LifeOk(n, nd) && c in nd.checks && !nd.checks[c].Asking? && !nd.checks[c].Accepted?
    requires (nd.checks[c].Waiting? ==> !nd.locked) && !p.Waiting? && !p.Asking? && !p.Accepted?
    ensures LifeOk(n, nd.(locked := true, checks := nd.checks[c := p]))
  {
    var nd' := nd.(locked := true, checks := nd.checks[c := p]);
    assert Holds(nd', c);
    assert forall d :: d != c ==> Holds(nd', d) == Holds(nd, d);
    assert forall d :: Holds(nd', d) ==> d == c by {
      assert Holds(nd, c) || forall d :: !Holds(nd, d);
    }
    assert forall d :: Asks(nd', d) == Asks(nd, d);
    assert forall d :: d in nd.checks && d != c ==> d in nd'.checks && nd'.checks[d] == nd.checks[d];
  }

  lemma AcceptLife(n: NodeId, nd: Node, c: Conn)
    requires LifeOk(n, nd) && c in nd.checks && nd.checks[c].Decided? && nd.checks[c].result.NotFound?
    ensures LifeOk(n, Decide(nd, c))
  {
    var nd' := Decide(nd, c);
    assert Holds(nd', c);
    assert forall d :: Holds(nd', d) == Holds(nd, d) && Asks(nd', d) == Asks(nd, d);
    assert forall d :: d in nd.checks && d != c ==> d in nd'.checks && nd'.checks[d] == nd.checks[d];
  }

  lemma StartLife(n: NodeId, nd: Node, c: Conn, q: QueryId)
    requires LifeOk(n, nd) && c in nd.checks && nd.checks[c].Ready? && q !in nd.queries
    ensures LifeOk(n, StartAttempt(nd, c, q).0)
  {
    var nd' := StartAttempt(nd, c, q).0;
    assert Holds(nd', c) && Holds(nd, c);
    assert forall d :: Holds(nd', d) == Holds(nd, d);
    assert forall d :: Asks(nd, d) ==> Holds(nd, d);
    assert forall d :: Asks(nd', d) ==> Holds(nd', d);
    assert forall d :: Asks(nd', d) ==> d == c;
    assert nd'.checking ==> Asks(nd', c);
    assert forall d :: d in nd.checks && d != c ==> d in nd'.checks && nd'.checks[d] == nd.checks[d];
  }

  lemma ConcludeLife(n: NodeId, nd: Node, q: QueryId, r: Result)
    requires LifeOk(n, nd) && q in nd.queries
    ensures LifeOk(n, Conclude(nd, q, r).0)
  {
    var nd' := Conclude(nd, q, r).0;
    assert forall d :: Holds(nd', d) == Holds(nd, d);
    assert forall d :: Asks(nd, d) ==> Holds(nd, d);
    if nd.queries[q].origin.Own? {
      var c := nd.queries[q].origin.conn;
      assert Asks(nd, c) && Holds(nd, c);
      assert forall d :: Asks(nd', d) ==> Asks(nd, d) && d != c;
      assert forall d :: !Asks(nd', d);
      assert forall d :: d in nd.checks && d != c ==> d in nd'.checks && nd'.checks[d] == nd.checks[d];
    } else {
      assert forall d :: Asks(nd', d) == Asks(nd, d);
    }
  }

  lemma AbortWaiting(n: NodeId, nd: Node, c: Conn)
    requires LifeOk(n, nd) && c in nd.checks && c !in nd.pending && nd.checks[c].Waiting?
    ensures LifeOk(n, Abort(nd, c))
  {
    var nd' := Abort(nd, c);
    assert forall d :: Holds(nd', d) == Holds(nd, d) && Asks(nd', d) == Asks(nd, d);
  }

  lemma AbortAsking(n: NodeId, nd: Node, c: Conn)
    requires LifeOk(n, nd) && c in nd.checks && c !in nd.pending && nd.checks[c].Asking?
    ensures LifeOk(n, Abort(nd, c))
  {
    var nd' := Abort(nd, c);
    assert Holds(nd, c);
    assert forall d :: Holds(nd', d) ==> Holds(nd, d) && d != c;
    assert forall d :: Asks(nd, d) ==> Holds(nd, d);
    assert forall d :: Asks(nd', d) ==> Holds(nd', d);
  }

  lemma AbortHolding(n: NodeId, nd: Node, c: Conn)
    requires LifeOk(n, nd) && c in nd.checks && c !in nd.pending && !nd.checks[c].Waiting? && !nd.checks[c].Asking?
    ensures LifeOk(n, Abort(nd, c))
  {
    var nd' := Abort(nd, c);
    assert Holds(nd, c);
    assert forall d :: Holds(nd', d) ==> Holds(nd, d) && d != c;
    assert forall d :: Asks(nd', d) == Asks(nd, d);
  }

  lemma AbortLife(n: NodeId, nd: Node, c: Conn)
    requires LifeOk(n, nd) && c in nd.checks && c !in nd.pending
    ensures LifeOk(n, Abort(nd, c))
  {
    if nd.checks[c].Waiting? {
      AbortWaiting(n, nd, c);
    } else if nd.checks[c].Asking? {
      AbortAsking(n, nd, c);
    } else {
      AbortHolding(n, nd, c);
    }
  }

  lemma QueryLife(n: NodeId, nd: Node, source: Conn, q: QueryId, target: NodeId)
    requires LifeOk(n, nd)
    ensures LifeOk(n, HandleQuery(n, nd, source, q, target).0)
  {
    var nd' := HandleQuery(n, nd, source, q, target).0;
    assert forall d :: Holds(nd', d) == Holds(nd, d) && Asks(nd', d) == Asks(nd, d);
  }

  lemma ReplyLife(n: NodeId, nd: Node, c: Conn, q: QueryId, r: Result)
    requires LifeOk(n, nd)
    ensures LifeOk(n, HandleReply(nd, c, q, r))
  {
    var nd' := HandleReply(nd, c, q, r);
    assert forall d :: Holds(nd', d) == Holds(nd, d) && Asks(nd', d) == Asks(nd, d);
  }

  // --- every step ----------------------------------------------------------------------

  lemma DeliverLife(n: NodeId, nd: Node, m: Msg, q: QueryId)
    requires LifeOk(n, nd) && Possible(nd, Deliver(m)) && m.to.Node() == n
    ensures LifeOk(n, React(nd, Deliver(m), q).0)
  {
    var nd' := React(nd, Deliver(m), q).0;
    match m.body
    case Hello(_) => assert forall d :: Holds(nd', d) == Holds(nd, d) && Asks(nd', d) == Asks(nd, d);
    case Ask(k, t) => QueryLife(n, nd, m.to, k, t);
    case Answer(k, r) => ReplyLife(n, nd, m.to, k, r);
  }

  lemma EstablishLife(n: NodeId, nd: Node, c: Conn)
    requires LifeOk(n, nd) && c.up && c.Node() == n && c !in nd.checks && c !in nd.conns
    ensures LifeOk(n, nd.(conns := nd.conns + {c}, pending := nd.pending + {c}, checks := nd.checks[c := Waiting]))
  {
    var nd' := nd.(conns := nd.conns + {c}, pending := nd.pending + {c}, checks := nd.checks[c := Waiting]);
    assert forall d :: d in nd.checks ==> d in nd'.checks && nd'.checks[d] == nd.checks[d];
    assert forall d :: Holds(nd', d) == Holds(nd, d) && Asks(nd', d) == Asks(nd, d);
  }

  lemma ListLife(n: NodeId, nd: Node, e: Event, q: QueryId)
    requires LifeOk(n, nd) && Possible(nd, e) && At(e) == n && (e.Arrive? || e.Close?)
    ensures LifeOk(n, React(nd, e, q).0)
  {
    var nd' := React(nd, e, q).0;
    assert nd'.checks == nd.checks;
    assert forall d :: Holds(nd', d) == Holds(nd, d) && Asks(nd', d) == Asks(nd, d);
  }

  /** What an event does to its node, given the node alone. */
  lemma LifeStep(n: NodeId, nd: Node, e: Event, q: QueryId)
    requires Possible(nd, e) && LifeOk(n, nd) && At(e) == n && q !in nd.queries
    requires e.Establish? ==> Conn(e.link, true) !in nd.checks && Conn(e.link, true) !in nd.conns
    ensures LifeOk(n, React(nd, e, q).0)
  {
    match e
    case Establish(l) => EstablishLife(n, nd, Conn(l, true));
    case Arrive(_) => ListLife(n, nd, e, q);
    case Deliver(m) => DeliverLife(n, nd, m, q);
    case Acquire(c) => PhaseLife(n, nd, c, Greeting);
    case NoHello(c) => RefuseLife(n, nd, c);
    case Greet(c) => GreetLife(n, nd, c);
    case Start(c) => StartLife(n, nd, c, q);
    case Finish(_, k) => ConcludeLife(n, nd, k, nd.queries[k].result.value);
    case Timeout(_, k) => ConcludeLife(n, nd, k, Unknown);
    case Act(c) => ActLife(n, nd, c);
    case Release(c) => ReleaseLife(n, nd, c);
    case Lose(c) => ForgetLife(n, nd, c);
    case GiveUp(c) => AbortLife(n, nd, c);
    case Close(_) => ListLife(n, nd, e, q);
  }

  lemma GreetLife(n: NodeId, nd: Node, c: Conn)
    requires LifeOk(n, nd) && c in nd.checks && nd.checks[c].Greeting? && c in nd.peers
    ensures LifeOk(n, Greeted(n, nd, c))
  {
    assert Holds(nd, c) && nd.locked;
    RefuseLife(n, nd, c);
    PhaseLife(n, nd, c, Ready(0, nd.peers[c]));
    assert nd.(locked := true, checks := nd.checks[c := Ready(0, nd.peers[c])])
           == nd.(checks := nd.checks[c := Ready(0, nd.peers[c])]);
  }

  lemma ActLife(n: NodeId, nd: Node, c: Conn)
    requires LifeOk(n, nd) && c in nd.checks && nd.checks[c].Decided?
    ensures LifeOk(n, Decide(nd, c))
  {
    assert Holds(nd, c) && nd.locked;
    if nd.checks[c].result.NotFound? {
      AcceptLife(n, nd, c);
    } else {
      RefuseLife(n, nd, c);
      PhaseLife(n, nd, c, Ready(nd.checks[c].attempt + 1, nd.checks[c].peer));
    }
  }

  lemma ReleaseLife(n: NodeId, nd: Node, c: Conn)
    requires LifeOk(n, nd) && c in nd.checks && nd.checks[c].Accepted?
    ensures LifeOk(n, nd.(locked := false, checks := nd.checks - {c}))
  {
    var nd' := nd.(locked := false, checks := nd.checks - {c});
    assert Holds(nd, c);
    assert forall d :: Holds(nd', d) ==> Holds(nd, d) && d != c;
    assert forall d :: Asks(nd', d) == Asks(nd, d);
  }

  /** The connection that the event adds, and the query that it may open. */
  function Added(e: Event): set<Conn> {
    match e
    case Establish(l) => {Conn(l, true)}
    case Arrive(l) => {Conn(l, false)}
    case _ => {}
  }

  function Opened(e: Event, q: QueryId): set<QueryId> {
    match e
    case Start(_) => {q}
    case Deliver(m) => if m.body.Ask? then {m.body.query} else {}
    case _ => {}
  }

  /** The node gets nothing new but these. */
  ghost predicate GetsOnly(nd: Node, nd': Node, conns: set<Conn>, checks: set<Conn>, queries: set<QueryId>) {
    && nd'.conns <= nd.conns + conns && nd'.checks.Keys <= nd.checks.Keys + checks
    && nd'.queries.Keys <= nd.queries.Keys + queries
  }

  lemma DeliverGets(nd: Node, m: Msg, q: QueryId)
    requires Possible(nd, Deliver(m))
    ensures GetsOnly(nd, React(nd, Deliver(m), q).0, {}, {}, Opened(Deliver(m), q))
  {
    match m.body
    case Ask(_, _) =>
    case _ =>
  }

  lemma StartGets(nd: Node, c: Conn, q: QueryId)
    requires c in nd.checks && nd.checks[c].Ready?
    ensures GetsOnly(nd, StartAttempt(nd, c, q).0, {}, {}, {q})
  {
  }

  lemma ConcludeGets(nd: Node, q: QueryId, r: Result)
    requires q in nd.queries
    ensures GetsOnly(nd, Conclude(nd, q, r).0, {}, {}, {})
  {
  }

  lemma CheckGets(nd: Node, e: Event, q: QueryId)
    requires Possible(nd, e) && (e.Greet? || e.Act? || e.GiveUp?)
    ensures GetsOnly(nd, React(nd, e, q).0, {}, {}, {})
  {
    if e.Greet? {
    } else if e.Act? {
    }
  }

  /** A node gets new connections, checks and queries only as the event says. */
  lemma NewThings(nd: Node, e: Event, q: QueryId)
    requires Possible(nd, e)
    ensures GetsOnly(nd, React(nd, e, q).0, Added(e), if e.Establish? then Added(e) else {}, Opened(e, q))
  {
    if e.Deliver? {
      DeliverGets(nd, e.msg, q);
    } else if e.Start? {
      StartGets(nd, e.conn, q);
    } else if e.Finish? {
      ConcludeGets(nd, e.query, nd.queries[e.query].result.value);
    } else if e.Timeout? {
      ConcludeGets(nd, e.query, Unknown);
    } else if e.Greet? || e.Act? || e.GiveUp? {
      CheckGets(nd, e, q);
    }
  }

  lemma NewAsks(nd: Node, e: Event, q: QueryId, m: Msg)
    requires Possible(nd, e) && m in React(nd, e, q).1 && m.body.Ask?
    ensures (e.Start? && m.body.query == q) || (e.Deliver? && e.msg.body.Ask? && m.body.query == e.msg.body.query)
  {
  }

  lemma FreshStep(s: State, e: Event)
    requires LifeInv(s) && Enabled(s, e)
    ensures FreshNode(Step(s, e), Step(s, e).nodes[At(e)])
    ensures forall m :: m in Step(s, e).net && m.body.Ask? ==> m.body.query < |Step(s, e).asks|
  {
    var s', nd, q := Step(s, e), s.nodes[At(e)], |s.asks|;
    var nd' := React(nd, e, q).0;
    assert FreshNode(s, nd) && s'.nodes[At(e)] == nd';
    assert s.made <= s'.made && s.arrived <= s'.arrived && |s.asks| <= |s'.asks|;
    NewThings(nd, e, q);
    forall c | c in nd'.conns || c in nd'.checks ensures c.link in s'.made && (c.up || c.link in s'.arrived) {
      assert c in nd.conns || c in nd.checks || c in Added(e);
    }
    forall k | k in nd'.queries ensures k < |s'.asks| {
      assert k in nd.queries || k in Opened(e, q);
    }
    forall m | m in s'.net && m.body.Ask? ensures m.body.query < |s'.asks| {
      if m !in s.net {
        NewAsks(nd, e, q, m);
      }
    }
  }

  lemma StepKeepsLife(s: State, e: Event)
    requires LifeInv(s) && Enabled(s, e)
    ensures LifeInv(Step(s, e))
  {
    var s' := Step(s, e);
    FreshStep(s, e);
    LifeStep(At(e), s.nodes[At(e)], e, |s.asks|);
    forall n | n in s'.nodes ensures LifeOk(n, s'.nodes[n]) && FreshNode(s', s'.nodes[n]) {
      if n != At(e) {
        assert s'.nodes[n] == s.nodes[n] && FreshNode(s, s.nodes[n]);
      }
    }
  }

  lemma {:induction false} LifeInvariant(trace: seq<State>, events: seq<Event>, i: nat)
    requires Run(trace, events) && i < |trace|
    ensures LifeInv(trace[i])
  {
    if i > 0 {
      LifeInvariant(trace, events, i - 1);
      StepKeepsLife(trace[i - 1], events[i - 1]);
      assert trace[i - 1 + 1] == Step(trace[i - 1], events[i - 1]);
    }
  }

  predicate OwnQuery(nd: Node, q: QueryId) {
    q in nd.queries && nd.queries[q].origin.Own?
  }

  // --- the theorems ----------------------------------------------------------------------

  /** In every state of every run: at most one check of a node has the lock, the lock is free
      when none has, the node answers as "checking" exactly while one of its own queries is
      open or its connection has just been lost, and it has at most one own query. */
  lemma OneCheckAtATime(trace: seq<State>, events: seq<Event>, i: nat, n: NodeId)
    requires Run(trace, events) && i < |trace| && n in trace[i].nodes
    ensures var nd := trace[i].nodes[n];
            && (forall c, d :: Holds(nd, c) && Holds(nd, d) ==> c == d)
            && (nd.locked <==> exists c :: Holds(nd, c))
            && (nd.checking ==> nd.locked)
            && (forall q, k :: OwnQuery(nd, q) && OwnQuery(nd, k) ==> q == k)
            && ((exists q :: OwnQuery(nd, q)) ==> nd.checking)
            && (nd.checking ==> exists c :: Holds(nd, c) && Asks(nd, c)
                                 && (c in nd.pending ==> nd.checks[c].query in nd.queries))
  {
    LifeInvariant(trace, events, i);
    var nd := trace[i].nodes[n];
    forall q, k | OwnQuery(nd, q) && OwnQuery(nd, k) ensures q == k {
      assert Holds(nd, nd.queries[q].origin.conn) && Holds(nd, nd.queries[k].origin.conn);
    }
    if nd.checking {
      var c :| Asks(nd, c);
      assert Holds(nd, c);
    }
  }

  /** However the check of `c` ends, it leaves nothing behind: its lock is free, the node is
      not checking, its query is gone, and unless it was accepted the connection is neither
      pending nor listed. */
  lemma CheckEndsCleanly(trace: seq<State>, events: seq<Event>, i: nat, n: NodeId, c: Conn)
    requires Run(trace, events) && i < |events| && n in trace[i].nodes && n in trace[i + 1].nodes
    requires c in trace[i].nodes[n].checks && c !in trace[i + 1].nodes[n].checks
    ensures var nd, nd' := trace[i].nodes[n], trace[i + 1].nodes[n];
            && c !in nd'.pending
            && (c in nd'.conns ==> nd.checks[c].Accepted?)
            && (Holds(nd, c) ==> !nd'.locked && !nd'.checking && forall q :: !OwnQuery(nd', q))
  {
    LifeInvariant(trace, events, i);
    LifeInvariant(trace, events, i + 1);
    var s, e := trace[i], events[i];
    assert trace[i + 1] == Step(s, e) && At(e) == n;
    var nd, nd' := s.nodes[n], trace[i + 1].nodes[n];
    EndingEvents(n, nd, e, |s.asks|, c);
    assert forall d :: Holds(nd', d) ==> Holds(nd, d) && d != c;
    assert forall d :: Asks(nd', d) ==> Holds(nd', d);
    assert forall q :: OwnQuery(nd', q) ==> Asks(nd', nd'.queries[q].origin.conn);
  }

  lemma ChecksStay(nd: Node, e: Event, q: QueryId, c: Conn)
    requires Possible(nd, e) && c in nd.checks && !MayEnd(e)
    ensures c in React(nd, e, q).0.checks
  {
  }

  lemma RefusedAll(nd: Node, c: Conn)
    ensures nd.Refuse(c).checks == nd.checks - {c} && c !in nd.Refuse(c).conns
  {
  }

  lemma AbortedAll(nd: Node, c: Conn)
    requires c in nd.checks
    ensures Abort(nd, c).checks == nd.checks - {c} && Abort(nd, c).conns == nd.conns
  {
  }

  predicate MayEnd(e: Event) {
    e.NoHello? || e.Greet? || e.Act? || e.Release? || e.GiveUp?
  }

  lemma EndsOwn(nd: Node, e: Event, q: QueryId, c: Conn)
    requires Possible(nd, e) && MayEnd(e) && c in nd.checks && c !in React(nd, e, q).0.checks
    ensures e.conn == c && React(nd, e, q).0.checks == nd.checks - {c}
    ensures e.Release? || e.GiveUp? || c !in React(nd, e, q).0.conns
    ensures e.GiveUp? ==> React(nd, e, q).0.conns == nd.conns
  {
    if e.GiveUp? {
      AbortedAll(nd, e.conn);
    } else if e.Greet? {
      RefusedAll(nd, e.conn);
    } else if e.Act? {
      RefusedAll(nd, e.conn);
    }
  }

  /** Only these events end a check, and only the check of their own connection. */
  lemma EndingEvents(n: NodeId, nd: Node, e: Event, q: QueryId, c: Conn)
    requires Possible(nd, e) && LifeOk(n, nd) && c in nd.checks && c !in React(nd, e, q).0.checks
    ensures MayEnd(e) && e.conn == c
    ensures React(nd, e, q).0.checks == nd.checks - {c}
    ensures e.Release? || c !in React(nd, e, q).0.conns
  {
    if MayEnd(e) {
      EndsOwn(nd, e, q, c);
    } else {
      ChecksStay(nd, e, q, c);
    }
  }
}
