/** What a query has been told, in every run: its result is what the replies of its targets combine to,
    a lost connection counting as "not found", and that is what its origin is told. */
module CheckReplies {
  import opened Links
  import opened CycleCheck
  import opened CheckLifecycle
  import opened CheckOutcomes

  /** What a query at `n` learns in the step: a reply to it, or that a connection leaves its list. */
  function GivenIn(s: State, e: Event, n: NodeId, q: QueryId): seq<Given>
    requires Enabled(s, e) && n in s.nodes
  {
    if At(e) != n then []
    else if e.Deliver? && e.msg.body.Answer? && e.msg.body.query == q then [(e.msg.to, e.msg.body.result)]
    else if (e.Lose? || e.NoHello? || e.Greet? || e.Act?)
            && e.conn in s.nodes[n].conns && e.conn !in Step(s, e).nodes[n].conns then [(e.conn, NotFound)]
    else []
  }

  lemma ForgetReplies(nd: Node, c: Conn, q: QueryId)
    requires q in nd.queries
    ensures q in nd.Forget(c).queries && nd.Forget(c).queries[q] == nd.queries[q].Reply(c, NotFound)
    ensures nd.Refuse(c).queries == nd.Forget(c).queries && c !in nd.Forget(c).conns && c !in nd.Refuse(c).conns
  {
  }

  lemma ReplyOne(Q: Query, g: Given)
    ensures ReplyAll(Q, []) == Q && ReplyAll(Q, [g]) == Q.Reply(g.0, g.1)
  {
    assert [g][..0] == [];
  }

  /** What the events that leave queries open do to one of them. */
  lemma LeavesList(nd: Node, e: Event, next: QueryId, q: QueryId)
    requires Possible(nd, e) && q in nd.queries && (e.Lose? || e.NoHello? || e.Greet? || e.Act?) && e.conn in nd.conns
    ensures var nd' := React(nd, e, next).0;
            && q in nd'.queries
            && nd'.queries[q] == if e.conn !in nd'.conns then nd.queries[q].Reply(e.conn, NotFound) else nd.queries[q]
  {
    ForgetReplies(nd, e.conn, q);
    if e.Act? {
      DecideLeaves(nd, e.conn, q);
    } else if e.Greet? {
      GreetLeaves(At(e), nd, e.conn, q);
    }
  }

  lemma DecideLeaves(nd: Node, c: Conn, q: QueryId)
    requires c in nd.checks && nd.checks[c].Decided? && c in nd.conns && q in nd.queries
    ensures var nd' := Decide(nd, c);
            && q in nd'.queries
            && nd'.queries[q] == if c !in nd'.conns then nd.queries[q].Reply(c, NotFound) else nd.queries[q]
  {
    ForgetReplies(nd, c, q);
  }

  lemma GreetLeaves(n: NodeId, nd: Node, c: Conn, q: QueryId)
    requires c in nd.peers && c in nd.conns && q in nd.queries
    ensures var nd' := Greeted(n, nd, c);
            && q in nd'.queries
            && nd'.queries[q] == if c !in nd'.conns then nd.queries[q].Reply(c, NotFound) else nd.queries[q]
  {
    ForgetReplies(nd, c, q);
  }

  lemma DeliverKeeps(nd: Node, m: Msg, next: QueryId, q: QueryId)
    requires Possible(nd, Deliver(m)) && q in nd.queries
    ensures var nd' := React(nd, Deliver(m), next).0;
            && q in nd'.queries
            && nd'.queries[q] == if m.body.Answer? && m.body.query == q then nd.queries[q].Reply(m.to, m.body.result)
                                 else nd.queries[q]
  {
    match m.body
    case Hello(_) =>
    case Ask(_, _) =>
    case Answer(_, _) =>
  }

  /** No other event changes a query that it leaves open. */
  lemma OthersKeep(nd: Node, e: Event, next: QueryId, q: QueryId)
    requires Possible(nd, e) && q in nd.queries && q in React(nd, e, next).0.queries && q != next
    requires !e.Deliver? && !e.Lose? && !e.NoHello? && !e.Greet? && !e.Act?
    ensures React(nd, e, next).0.queries[q] == nd.queries[q]
  {
  }

  lemma QueryNext(s: State, e: Event, n: NodeId, q: QueryId)
    requires LifeInv(s) && Enabled(s, e) && n in s.nodes && q in s.nodes[n].queries
    requires q in Step(s, e).nodes[n].queries
    ensures Step(s, e).nodes[n].queries[q] == ReplyAll(s.nodes[n].queries[q], GivenIn(s, e, n, q))
  {
    var nd, next := s.nodes[n], |s.asks|;
    assert FreshNode(s, nd) && LifeOk(n, nd);
    if At(e) == n {
      if e.Deliver? {
        DeliverKeeps(nd, e.msg, next, q);
        ReplyOne(nd.queries[q], (e.msg.to, if e.msg.body.Answer? then e.msg.body.result else NotFound));
      } else if e.Lose? || e.NoHello? || e.Greet? || e.Act? {
        LeavesList(nd, e, next, q);
        ReplyOne(nd.queries[q], (e.conn, NotFound));
      } else {
        OthersKeep(nd, e, next, q);
      }
    }
  }

  // --- how a query begins and ends ------------------------------------------------------------------

  /** The connections that a query with this origin is sent on. */
  function AskedBy(nd: Node, origin: Origin): set<Conn> {
    nd.ActiveNodeConns() - (if origin.Forward? then {origin.source} else {})
  }

  /** A query that the step registers is new, and asks every other connection in use. */
  lemma OpensNew(s: State, e: Event, n: NodeId, q: QueryId)
    requires Enabled(s, e) && n in s.nodes && q !in s.nodes[n].queries && q in Step(s, e).nodes[n].queries
    ensures var Q := Step(s, e).nodes[n].queries[q];
            Q == NewQuery(Q.origin, Q.target, AskedBy(s.nodes[n], Q.origin)) && Q.targets != {}
  {
    var nd := s.nodes[n];
    if e.Start? {
      assert nd.ActiveNodeConns() - {} == nd.ActiveNodeConns();
    } else if e.Deliver? && e.msg.body.Ask? {
    } else {
      OpensNone(nd, e, |s.asks|, q);
    }
  }

  lemma OpensNone(nd: Node, e: Event, next: QueryId, q: QueryId)
    requires Possible(nd, e) && q !in nd.queries && !e.Start? && !(e.Deliver? && e.msg.body.Ask?)
    ensures q !in React(nd, e, next).0.queries
  {
    if e.Deliver? {
      match e.msg.body
      case Hello(_) =>
      case Answer(_, _) =>
    }
  }

  /** Whoever asked is told the result: the node on whose behalf the query was passed on, if it is still
      connected, or the check. */
  ghost predicate ToldOf(s': State, nd: Node, q: QueryId, r: Result)
    requires q in nd.queries
  {
    match nd.queries[q].origin
    case Forward(c) => c in nd.conns ==> Msg(c.Peer(), Answer(q, r)) in s'.net
    case Own(c) =>
      && c.Node() in s'.nodes && c in s'.nodes[c.Node()].checks
      && s'.nodes[c.Node()].checks[c].Decided?
      && s'.nodes[c.Node()].checks[c].query == q && s'.nodes[c.Node()].checks[c].result == r
  }

  lemma EndTells(s: State, n: NodeId, q: QueryId, r: Result)
    requires LifeInv(s) && n in s.nodes && q in s.nodes[n].queries
    ensures var (nd', out) := Conclude(s.nodes[n], q, r);
            q !in nd'.queries && ToldOf(Put(s, n, nd', out), s.nodes[n], q, r)
  {
    assert LifeOk(n, s.nodes[n]);
  }

  // --- every run ------------------------------------------------------------------------------------

  /** What the query learns from step `i` up to state `j`. */
  ghost function Replies(trace: seq<State>, events: seq<Event>, i: nat, j: nat, n: NodeId, q: QueryId): seq<Given>
    requires Run(trace, events) && i <= j < |trace|
    requires forall h :: i <= h <= j ==> n in trace[h].nodes
    decreases j
  {
    if i == j then []
    else
      assert Enabled(trace[j - 1], events[j - 1]);
      Replies(trace, events, i, j - 1, n, q) + GivenIn(trace[j - 1], events[j - 1], n, q)
  }

  lemma {:induction false} ReplyAllConcat(Q: Query, a: seq<Given>, b: seq<Given>)
    ensures ReplyAll(Q, a + b) == ReplyAll(ReplyAll(Q, a), b)
    decreases |b|
  {
    if b == [] {
      assert a + b == a;
    } else {
      var n := |b| - 1;
      ReplyAllConcat(Q, a, b[..n]);
      assert (a + b)[..|a| + n] == a + b[..n] && (a + b)[|a| + n] == b[n];
    }
  }

  /** The query is open from state `i` to state `j`. */
  ghost predicate OpenFrom(trace: seq<State>, i: nat, j: nat, n: NodeId, q: QueryId)
    requires j < |trace|
  {
    forall h :: i <= h <= j ==> n in trace[h].nodes && q in trace[h].nodes[n].queries
  }

  lemma NextReplies(trace: seq<State>, events: seq<Event>, h: nat, n: NodeId, q: QueryId)
    requires Run(trace, events) && h < |events| && OpenFrom(trace, h, h + 1, n, q)
    ensures Enabled(trace[h], events[h])
    ensures trace[h + 1].nodes[n].queries[q]
            == ReplyAll(trace[h].nodes[n].queries[q], GivenIn(trace[h], events[h], n, q))
  {
    LifeInvariant(trace, events, h);
    assert Enabled(trace[h], events[h]) && trace[h + 1] == Step(trace[h], events[h]);
    QueryNext(trace[h], events[h], n, q);
  }

  lemma ReplyOn(Q: Query, Q': Query, Q'': Query, a: seq<Given>, b: seq<Given>, replies: seq<Given>)
    requires Q' == ReplyAll(Q, a) && Q'' == ReplyAll(Q', b) && replies == a + b
    ensures Q'' == ReplyAll(Q, replies)
  {
    ReplyAllConcat(Q, a, b);
  }

  lemma {:induction false} LearnsReplies(trace: seq<State>, events: seq<Event>, i: nat, j: nat, n: NodeId, q: QueryId)
    requires Run(trace, events) && i <= j < |trace| && OpenFrom(trace, i, j, n, q)
    ensures trace[j].nodes[n].queries[q] == ReplyAll(trace[i].nodes[n].queries[q], Replies(trace, events, i, j, n, q))
    decreases j
  {
    if i < j {
      var h := j - 1;
      LearnsReplies(trace, events, i, h, n, q);
      NextReplies(trace, events, h, n, q);
      ReplyOn(trace[i].nodes[n].queries[q], trace[h].nodes[n].queries[q], trace[j].nodes[n].queries[q],
              Replies(trace, events, i, h, n, q), GivenIn(trace[h], events[h], n, q),
              Replies(trace, events, i, j, n, q));
    } else {
      assert Replies(trace, events, i, j, n, q) == [];
    }
  }

  lemma {:induction false} ReplyAllKeeps(Q: Query, replies: seq<Given>)
    ensures var R := ReplyAll(Q, replies); R.origin == Q.origin && R.target == Q.target && R.targets == Q.targets
    decreases |replies|
  {
    if replies != [] {
      ReplyAllKeeps(Q, replies[..|replies| - 1]);
    }
  }

  /** In every run, the result of a query that a node opened at step `i` is what the first replies of
      the connections combine to that it used then, but for the source; one that left the list counts
      as "not found". */
  lemma QueryTallies(trace: seq<State>, events: seq<Event>, i: nat, j: nat, n: NodeId, q: QueryId)
    requires Run(trace, events) && i < j < |trace| && n in trace[i].nodes && q !in trace[i].nodes[n].queries
    requires OpenFrom(trace, i + 1, j, n, q)
    ensures var Q := trace[j].nodes[n].queries[q];
            && Q.targets == AskedBy(trace[i].nodes[n], Q.origin)
            && Q.result == Combined(Q.targets, Replies(trace, events, i + 1, j, n, q))
  {
    assert Enabled(trace[i], events[i]) && trace[i + 1] == Step(trace[i], events[i]);
    var Q, replies := trace[i + 1].nodes[n].queries[q], Replies(trace, events, i + 1, j, n, q);
    OpensNew(trace[i], events[i], n, q);
    LearnsReplies(trace, events, i + 1, j, n, q);
    ReplyAllKeeps(Q, replies);
    RepliesCombine(Q.origin, Q.target, Q.targets, replies);
  }

  /** In every run, when such a query has ended, whoever asked is told that result, or "unknown" if it
      has timed out. */
  lemma OriginIsTold(trace: seq<State>, events: seq<Event>, i: nat, j: nat, n: NodeId, q: QueryId)
    requires Run(trace, events) && i < j < |events| && n in trace[i].nodes && q !in trace[i].nodes[n].queries
    requires OpenFrom(trace, i + 1, j, n, q) && (events[j] == Finish(n, q) || events[j] == Timeout(n, q))
    ensures n in trace[j + 1].nodes && q !in trace[j + 1].nodes[n].queries
    ensures events[j] == Timeout(n, q) ==> ToldOf(trace[j + 1], trace[j].nodes[n], q, Unknown)
    ensures events[j] == Finish(n, q) ==>
              var r := Combined(trace[j].nodes[n].queries[q].targets, Replies(trace, events, i + 1, j, n, q));
              r.Some? && ToldOf(trace[j + 1], trace[j].nodes[n], q, r.value)
  {
    QueryTallies(trace, events, i, j, n, q);
    LifeInvariant(trace, events, j);
    assert Enabled(trace[j], events[j]) && trace[j + 1] == Step(trace[j], events[j]);
    EndTells(trace[j], n, q, if events[j].Timeout? then Unknown else trace[j].nodes[n].queries[q].result.value);
  }
}
