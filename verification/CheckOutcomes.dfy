/** What the answers of the cycle check are worth: how replies combine, that "found" is true, and
    how often a check tries. */
module CheckOutcomes {
  import opened Graphs
  import opened Links
  import opened Results
  import opened CycleCheck
  import opened CheckNames
  import opened CheckLifecycle

  // --- combining replies ------------------------------------------------------------------------

  type Given = (Conn, Result)

  function ReplyAll(Q: Query, replies: seq<Given>): Query
    decreases |replies|
  {
    if replies == [] then Q
    else
      var n := |replies| - 1;
      ReplyAll(Q, replies[..n]).Reply(replies[n].0, replies[n].1)
  }

  /** What `c` replied first, if it has replied. */
  function FirstReply(replies: seq<Given>, c: Conn): Option<Result>
    decreases |replies|
  {
    if replies == [] then None
    else
      var n := |replies| - 1;
      var before := FirstReply(replies[..n], c);
      if before.Some? then before else if replies[n].0 == c then Some(replies[n].1) else None
  }

  ghost predicate AnyReplied(targets: set<Conn>, replies: seq<Given>, r: Option<Result>) {
    exists c :: c in targets && FirstReply(replies, c) == r
  }

  /** "Found" if any target found it; else nothing while a target has not replied; else "unknown"
      if any target did not know; else "not found". */
  ghost function Combined(targets: set<Conn>, replies: seq<Given>): Option<Result> {
    if AnyReplied(targets, replies, Some(Found)) then Some(Found)
    else if AnyReplied(targets, replies, None) then None
    else if AnyReplied(targets, replies, Some(Unknown)) then Some(Unknown)
    else Some(NotFound)
  }

  ghost predicate Tallies(Q: Query, targets: set<Conn>, replies: seq<Given>) {
    && Q.result == Combined(targets, replies)
    && (Q.result != Some(Found) ==>
          && (forall c :: c in Q.waiting <==> c in targets && FirstReply(replies, c) == None)
          && (Q.sawUnknown <==> AnyReplied(targets, replies, Some(Unknown))))
  }

  lemma OneMoreReply(replies: seq<Given>, g: Given, c: Conn)
    ensures FirstReply(replies + [g], c) ==
            if FirstReply(replies, c).Some? then FirstReply(replies, c) else if g.0 == c then Some(g.1) else None
  {
    assert (replies + [g])[..|replies|] == replies;
  }

  lemma TallyKept(Q: Query, targets: set<Conn>, replies: seq<Given>, g: Given)
    requires Tallies(Q, targets, replies)
    ensures Tallies(Q.Reply(g.0, g.1), targets, replies + [g])
  {
    forall c ensures FirstReply(replies + [g], c) ==
                     if FirstReply(replies, c).Some? then FirstReply(replies, c)
                     else if g.0 == c then Some(g.1) else None {
      OneMoreReply(replies, g, c);
    }
    if g.0 in targets && FirstReply(replies, g.0) == None {
      TallyCounts(Q, targets, replies, g);
    } else {
      forall r ensures AnyReplied(targets, replies + [g], r) <==> AnyReplied(targets, replies, r) {
        SameSome(targets, replies, replies + [g], r);
      }
    }
  }

  lemma SameSome(targets: set<Conn>, replies: seq<Given>, replies': seq<Given>, r: Option<Result>)
    requires forall c :: c in targets ==> FirstReply(replies', c) == FirstReply(replies, c)
    ensures AnyReplied(targets, replies', r) <==> AnyReplied(targets, replies, r)
  {
    if AnyReplied(targets, replies, r) {
      var c :| c in targets && FirstReply(replies, c) == r;
      assert FirstReply(replies', c) == r;
    }
    if AnyReplied(targets, replies', r) {
      var c :| c in targets && FirstReply(replies', c) == r;
      assert FirstReply(replies, c) == r;
    }
  }

  /** The first reply of a target counts, and the other targets' replies stay what they were. */
  lemma SomeAfter(targets: set<Conn>, replies: seq<Given>, g: Given, r: Option<Result>)
    requires g.0 in targets && FirstReply(replies, g.0) == None
    requires forall c :: c != g.0 ==> FirstReply(replies + [g], c) == FirstReply(replies, c)
    requires FirstReply(replies + [g], g.0) == Some(g.1)
    ensures r.Some? ==> (AnyReplied(targets, replies + [g], r) <==> AnyReplied(targets, replies, r) || r == Some(g.1))
  {
    if r.Some? && AnyReplied(targets, replies, r) {
      var c :| c in targets && FirstReply(replies, c) == r;
      assert FirstReply(replies + [g], c) == r;
    }
    if r == Some(g.1) {
      assert FirstReply(replies + [g], g.0) == r;
    }
    if AnyReplied(targets, replies + [g], r) {
      var c :| c in targets && FirstReply(replies + [g], c) == r;
      assert c != g.0 ==> FirstReply(replies, c) == r;
    }
  }

  lemma TallyCounts(Q: Query, targets: set<Conn>, replies: seq<Given>, g: Given)
    requires Tallies(Q, targets, replies) && g.0 in targets && FirstReply(replies, g.0) == None
    requires forall c :: c != g.0 ==> FirstReply(replies + [g], c) == FirstReply(replies, c)
    requires FirstReply(replies + [g], g.0) == Some(g.1)
    ensures Tallies(Q.Reply(g.0, g.1), targets, replies + [g])
  {
    SomeAfter(targets, replies, g, Some(Found));
    SomeAfter(targets, replies, g, Some(Unknown));
    assert AnyReplied(targets, replies, None);
    if Q.result != Some(Found) {
      var left := Q.waiting - {g.0};
      if left != {} {
        assert Any(left) in targets && FirstReply(replies + [g], Any(left)) == None;
        assert AnyReplied(targets, replies + [g], None);
      }
      if AnyReplied(targets, replies + [g], None) {
        var c :| c in targets && FirstReply(replies + [g], c) == None;
        assert c in left;
      }
    }
  }

  /** Whatever the order, the repeats and the strangers among the replies, a query's result is what
      the first replies of its targets combine to. */
  lemma {:induction false} RepliesCombine(origin: Origin, target: NodeId, targets: set<Conn>, replies: seq<Given>)
    requires targets != {}
    ensures ReplyAll(NewQuery(origin, target, targets), replies).result == Combined(targets, replies)
    ensures Tallies(ReplyAll(NewQuery(origin, target, targets), replies), targets, replies)
    decreases |replies|
  {
    if replies == [] {
      assert FirstReply(replies, Any(targets)) == None;
    } else {
      var n := |replies| - 1;
      RepliesCombine(origin, target, targets, replies[..n]);
      TallyKept(ReplyAll(NewQuery(origin, target, targets), replies[..n]), targets, replies[..n], replies[n]);
      assert replies == replies[..n] + [replies[n]];
    }
  }

  // --- which links have been accepted --------------------------------------------------------------

  /** The link that the event accepts, if it does: its own query ended "not found". */
  function NewlyAccepted(s: State, e: Event): set<Link>
    requires Enabled(s, e)
  {
    if e.Act? && s.nodes[At(e)].checks[e.conn].result.NotFound? then {e.conn.link} else {}
  }

  /** The links that their establishers have accepted by then. */
  ghost function Accepted(trace: seq<State>, events: seq<Event>, i: nat): set<Link>
    requires Run(trace, events) && i < |trace|
    decreases i
  {
    if i == 0 then {}
    else
      assert Enabled(trace[i - 1], events[i - 1]);
      Accepted(trace, events, i - 1) + NewlyAccepted(trace[i - 1], events[i - 1])
  }

  /** "Found" comes only over an accepted link, and a query reaches an acceptor only over one. */
  ghost predicate MsgAccepted(A: set<Link>, m: Msg) {
    && (m.body.Ask? && !m.to.up ==> m.to.link in A)
    && (m.body.Answer? && m.body.result.Found? ==> m.to.link in A)
  }

  ghost predicate NodeAccepted(A: set<Link>, nd: Node) {
    && (forall c :: c in nd.conns && c.up && c !in nd.pending ==> c.link in A)
    && (forall q :: q in nd.queries && nd.queries[q].origin.Forward? ==> nd.queries[q].origin.source.link in A)
  }

  ghost predicate AcceptInv(s: State, A: set<Link>) {
    && (forall n :: n in s.nodes ==> NodeAccepted(A, s.nodes[n]))
    && (forall m :: m in s.net ==> MsgAccepted(A, m))
  }

  lemma QueryAccepted(A: set<Link>, n: NodeId, nd: Node, source: Conn, q: QueryId, target: NodeId)
    requires NodeAccepted(A, nd) && source in nd.conns && (!source.up ==> source.link in A)
    ensures var (nd', out) := HandleQuery(n, nd, source, q, target);
            NodeAccepted(A, nd') && forall m :: m in out ==> MsgAccepted(A, m)
  {
    assert source !in nd.pending ==> source.link in A;
  }

  lemma ConcludeAccepted(A: set<Link>, nd: Node, q: QueryId, r: Result)
    requires NodeAccepted(A, nd) && q in nd.queries
    ensures var (nd', out) := Conclude(nd, q, r);
            NodeAccepted(A, nd') && forall m :: m in out ==> MsgAccepted(A, m)
  {
  }

  lemma StartAccepted(A: set<Link>, nd: Node, c: Conn, q: QueryId)
    requires NodeAccepted(A, nd) && c in nd.checks && nd.checks[c].Ready?
    ensures var (nd', out) := StartAttempt(nd, c, q);
            NodeAccepted(A, nd') && forall m :: m in out ==> MsgAccepted(A, m)
  {
  }

  lemma DeliverAccepted(A: set<Link>, nd: Node, m: Msg, q: QueryId)
    requires NodeAccepted(A, nd) && MsgAccepted(A, m) && Possible(nd, Deliver(m))
    ensures var (nd', out) := React(nd, Deliver(m), q);
            NodeAccepted(A, nd') && forall k :: k in out ==> MsgAccepted(A, k)
  {
    match m.body
    case Hello(_) =>
    case Ask(k, target) => QueryAccepted(A, m.to.Node(), nd, m.to, k, target);
    case Answer(_, _) =>
  }

  lemma MoreAccepted(A: set<Link>, A': set<Link>, nd: Node, out: set<Msg>)
    requires A <= A' && NodeAccepted(A, nd) && forall m :: m in out ==> MsgAccepted(A, m)
    ensures NodeAccepted(A', nd) && forall m :: m in out ==> MsgAccepted(A', m)
  {
  }

  lemma DecideAccepted(A: set<Link>, nd: Node, c: Conn)
    requires NodeAccepted(A, nd) && c in nd.checks && nd.checks[c].Decided?
    ensures NodeAccepted(A + (if nd.checks[c].result.NotFound? then {c.link} else {}), Decide(nd, c))
  {
  }

  lemma OtherAccepted(A: set<Link>, nd: Node, e: Event, q: QueryId)
    requires NodeAccepted(A, nd) && Possible(nd, e)
    requires !e.Deliver? && !e.Finish? && !e.Timeout? && !e.Start? && !e.Act?
    ensures var (nd', out) := React(nd, e, q); NodeAccepted(A, nd') && forall m :: m in out ==> MsgAccepted(A, m)
  {
    match e
    case Greet(_) =>
    case GiveUp(_) =>
    case _ =>
  }

  lemma ReactAccepted(s: State, A: set<Link>, e: Event)
    requires AcceptInv(s, A) && Enabled(s, e)
    ensures var (nd', out) := React(s.nodes[At(e)], e, |s.asks|);
            var A' := A + NewlyAccepted(s, e);
            NodeAccepted(A', nd') && forall m :: m in out ==> MsgAccepted(A', m)
  {
    var nd := s.nodes[At(e)];
    var (nd', out) := React(nd, e, |s.asks|);
    if e.Act? {
      DecideAccepted(A, nd, e.conn);
    } else {
      if e.Deliver? {
        DeliverAccepted(A, nd, e.msg, |s.asks|);
      } else if e.Finish? {
        ConcludeAccepted(A, nd, e.query, nd.queries[e.query].result.value);
      } else if e.Timeout? {
        ConcludeAccepted(A, nd, e.query, Unknown);
      } else if e.Start? {
        StartAccepted(A, nd, e.conn, |s.asks|);
      } else {
        OtherAccepted(A, nd, e, |s.asks|);
      }
      MoreAccepted(A, A + NewlyAccepted(s, e), nd', out);
    }
  }

  lemma {:induction false} AcceptInvariant(trace: seq<State>, events: seq<Event>, i: nat)
    requires Run(trace, events) && i < |trace|
    ensures AcceptInv(trace[i], Accepted(trace, events, i))
  {
    if i > 0 {
      var j := i - 1;
      AcceptInvariant(trace, events, j);
      assert Enabled(trace[j], events[j]) && trace[j + 1] == Step(trace[j], events[j]);
      ReactAccepted(trace[j], Accepted(trace, events, j), events[j]);
    }
  }

  /** In every run, whatever the timing, a connection that its establisher uses has been accepted:
      an own query about it ended "not found". */
  lemma UsedMeansAccepted(trace: seq<State>, events: seq<Event>, i: nat, n: NodeId, c: Conn)
    requires Run(trace, events) && i < |trace| && n in trace[i].nodes
    requires c in trace[i].nodes[n].conns && c.up && c !in trace[i].nodes[n].pending
    ensures c.link in Accepted(trace, events, i)
  {
    AcceptInvariant(trace, events, i);
    assert NodeAccepted(Accepted(trace, events, i), trace[i].nodes[n]);
  }

  // --- "found" is true ----------------------------------------------------------------------------

  /** The establisher still waits for the replies to its own query `q`. */
  ghost predicate Open(s: State, q: QueryId) {
    && q < |s.asks| && s.asks[q].a in s.nodes
    && OwnQuery(s.nodes[s.asks[q].a], q)
  }

  /** Links of `A`, other than the one asked about, lead from `x` to the target of `q`. */
  ghost predicate Leads(s: State, A: set<Link>, q: QueryId, x: NodeId)
    requires q < |s.asks|
  {
    Connected(A - {s.asks[q]}, x, s.asks[q].b)
  }

  ghost predicate QueryTrue(s: State, A: set<Link>, n: NodeId, q: QueryId, Q: Query)
    requires q < |s.asks|
  {
    && Q.waiting <= Q.targets
    && (forall c :: c in Q.targets ==> c.Node() == n && c.link != s.asks[q])
    && (Q.result == Some(Found) ==> Leads(s, A, q, n))
  }

  ghost predicate PhaseTrue(A: set<Link>, c: Conn, p: Phase) {
    p.Decided? && p.result.Found? ==> Connected(A - {c.link}, c.link.a, c.link.b)
  }

  ghost predicate NodeTrue(s: State, A: set<Link>, n: NodeId, nd: Node) {
    && (forall q :: q in nd.queries && Open(s, q) ==> QueryTrue(s, A, n, q, nd.queries[q]))
    && (forall c :: c in nd.checks ==> PhaseTrue(A, c, nd.checks[c]))
  }

  ghost predicate MsgTrue(s: State, A: set<Link>, m: Msg) {
    m.body.Answer? && m.body.result.Found? && Open(s, m.body.query) ==> Leads(s, A, m.body.query, m.to.Peer().Node())
  }

  ghost predicate TruthInv(s: State, A: set<Link>) {
    && (forall n :: n in s.nodes ==> NodeTrue(s, A, n, s.nodes[n]))
    && (forall m :: m in s.net ==> MsgTrue(s, A, m))
  }

  /** The step opens no query that was there before. */
  ghost predicate Older(s: State, s': State) {
    && s.asks <= s'.asks
    && forall q: nat :: q < |s.asks| && Open(s', q) ==> Open(s, q)
  }

  lemma QueryStillTrue(s: State, s': State, A: set<Link>, A': set<Link>, n: NodeId, q: QueryId, Q: Query)
    requires Older(s, s') && A <= A' && q < |s.asks| && QueryTrue(s, A, n, q, Q)
    ensures QueryTrue(s', A', n, q, Q)
  {
    if Q.result == Some(Found) {
      Monotone(A - {s.asks[q]}, A' - {s'.asks[q]}, n, s.asks[q].b);
    }
  }

  lemma PhaseStillTrue(A: set<Link>, A': set<Link>, c: Conn, p: Phase)
    requires A <= A' && PhaseTrue(A, c, p)
    ensures PhaseTrue(A', c, p)
  {
    if p.Decided? && p.result.Found? {
      Monotone(A - {c.link}, A' - {c.link}, c.link.a, c.link.b);
    }
  }

  lemma MsgStillTrue(s: State, s': State, A: set<Link>, A': set<Link>, m: Msg)
    requires Older(s, s') && A <= A' && MsgTrue(s, A, m) && (m.body.Answer? ==> m.body.query < |s.asks|)
    ensures MsgTrue(s', A', m)
  {
    if m.body.Answer? && m.body.result.Found? && Open(s', m.body.query) {
      var q := m.body.query;
      Monotone(A - {s.asks[q]}, A' - {s'.asks[q]}, m.to.Peer().Node(), s.asks[q].b);
    }
  }

  lemma NodeStillTrue(s: State, s': State, A: set<Link>, A': set<Link>, n: NodeId, nd: Node)
    requires Older(s, s') && A <= A' && NodeTrue(s, A, n, nd) && forall q :: q in nd.queries ==> q < |s.asks|
    ensures NodeTrue(s', A', n, nd)
  {
    forall q | q in nd.queries && Open(s', q) ensures QueryTrue(s', A', n, q, nd.queries[q]) {
      QueryStillTrue(s, s', A, A', n, q, nd.queries[q]);
    }
    forall c | c in nd.checks ensures PhaseTrue(A', c, nd.checks[c]) {
      PhaseStillTrue(A, A', c, nd.checks[c]);
    }
  }

  lemma StepOlder(s: State, e: Event)
    requires LifeInv(s) && Enabled(s, e)
    ensures Older(s, Step(s, e))
  {
    var s' := Step(s, e);
    forall q: nat | q < |s.asks| && Open(s', q) ensures Open(s, q) {
      var a := s.asks[q].a;
      if a == At(e) {
        OwnQueryStays(s.nodes[a], e, |s.asks|, q);
      }
    }
  }

  /** A node's own query is opened when its attempt starts, and at no other time. */
  lemma OwnQueryStays(nd: Node, e: Event, next: QueryId, q: QueryId)
    requires Possible(nd, e) && OwnQuery(React(nd, e, next).0, q) && q < next
    ensures OwnQuery(nd, q)
  {
    match e
    case Deliver(m) => DeliverOpensForwards(nd, m, q);
    case Finish(_, _) =>
    case Timeout(_, _) =>
    case Start(_) =>
    case Greet(_) =>
    case Act(_) =>
    case GiveUp(_) =>
    case _ =>
  }

  lemma DeliverOpensForwards(nd: Node, m: Msg, q: QueryId)
    requires Possible(nd, Deliver(m)) && OwnQuery(React(nd, Deliver(m), 0).0, q)
    ensures OwnQuery(nd, q)
  {
    match m.body
    case Hello(_) =>
    case Ask(_, _) =>
    case Answer(_, _) =>
  }

  /** A reply that comes over another link than the one asked about leads on from there. */
  lemma ReplyTrue(s: State, A: set<Link>, n: NodeId, q: QueryId, Q: Query, c: Conn, r: Result)
    requires q < |s.asks| && QueryTrue(s, A, n, q, Q)
    requires r.Found? ==> c.link in A && Leads(s, A, q, c.Peer().Node())
    ensures QueryTrue(s, A, n, q, Q.Reply(c, r))
  {
    if r.Found? && c in Q.waiting {
      var G := A - {s.asks[q]};
      OneEdge(G, c.link);
      Transitive(G, n, c.Peer().Node(), s.asks[q].b);
    }
  }

  lemma ForgetTrue(s: State, A: set<Link>, n: NodeId, nd: Node, c: Conn)
    requires NodeTrue(s, A, n, nd) && forall q :: q in nd.queries ==> q < |s.asks|
    ensures NodeTrue(s, A, n, nd.Forget(c)) && NodeTrue(s, A, n, nd.Refuse(c))
  {
    forall q | q in nd.queries && Open(s, q) ensures QueryTrue(s, A, n, q, nd.queries[q].Reply(c, NotFound)) {
      ReplyTrue(s, A, n, q, nd.queries[q], c, NotFound);
    }
  }

  /** A node that sends a query on, while the query is open, is neither of the nodes at the ends of
      the link: so it sends it on over other links. */
  lemma ForwarderIsElsewhere(s: State, n: NodeId, q: QueryId)
    requires LifeInv(s) && n in s.nodes && !s.nodes[n].checking && Open(s, q)
    ensures n != s.asks[q].a
  {
    var nd := s.nodes[s.asks[q].a];
    assert LifeOk(s.asks[q].a, nd);
    assert Asks(nd, nd.queries[q].origin.conn);
  }

  lemma AskTrue(s: State, A: set<Link>, n: NodeId, source: Conn, q: QueryId)
    requires LifeInv(s) && n in s.nodes && NodeTrue(s, A, n, s.nodes[n]) && source.Node() == n && q < |s.asks|
    requires forall k :: k in s.nodes[n].queries ==> k < |s.asks|
    ensures var (nd', out) := HandleQuery(n, s.nodes[n], source, q, s.asks[q].b);
            NodeTrue(s, A, n, nd') && forall m :: m in out ==> MsgTrue(s, A, m)
  {
    var nd := s.nodes[n];
    var (nd', out) := HandleQuery(n, nd, source, q, s.asks[q].b);
    assert source.Peer().Peer() == source;
    Reflexive(A - {s.asks[q]}, n);
    if AnswerNow(n, nd, source, q, s.asks[q].b).None? && Open(s, q) && q in nd'.queries {
      ForwarderIsElsewhere(s, n, q);
      assert LifeOk(n, nd) && FreshNode(s, nd);
      assert QueryTrue(s, A, n, q, nd'.queries[q]);
    }
  }

  lemma ConcludeTrue(s: State, A: set<Link>, n: NodeId, q: QueryId, r: Result)
    requires LifeInv(s) && n in s.nodes && NodeTrue(s, A, n, s.nodes[n]) && q in s.nodes[n].queries
    requires r.Unknown? || s.nodes[n].queries[q].result == Some(r)
    requires QueryNames(s.asks, q, s.nodes[n].queries[q])
    ensures var (nd', out) := Conclude(s.nodes[n], q, r);
            NodeTrue(s, A, n, nd') && forall m :: m in out ==> MsgTrue(s, A, m)
  {
    var nd := s.nodes[n];
    var Q := nd.queries[q];
    match Q.origin
    case Forward(source) => assert source.Peer().Peer() == source;
    case Own(c) =>
      assert LifeOk(n, nd) && Asks(nd, c) && c.up;
      assert OwnQuery(nd, q) && s.asks[q] == c.link && Open(s, q);
  }

  /** A link between two nodes has one end at each. */
  lemma OtherConn(c: Conn, d: Conn)
    requires c.Node() == d.Node() != c.Peer().Node() && c != d
    ensures c.link != d.link
  {
    assert c == Conn(c.link, c.up) && d == Conn(d.link, d.up);
  }

  lemma StartTrue(s: State, A: set<Link>, c: Conn)
    requires NamesInv(s) && LifeInv(s) && TruthInv(s, A) && Enabled(s, Start(c))
    ensures NodeTrue(Step(s, Start(c)), A, c.Node(), Step(s, Start(c)).nodes[c.Node()])
  {
    var n, s' := c.Node(), Step(s, Start(c));
    var nd, nd', q := s.nodes[n], s'.nodes[n], |s.asks|;
    StepOlder(s, Start(c));
    assert LifeOk(n, nd) && FreshNode(s, nd);
    NodeStillTrue(s, s', A, A, n, nd);
    assert NodeNames(s.asks, nd) && PhaseNames(s.asks, c, nd.checks[c]);
    if q in nd'.queries {
      forall d | d in nd.ActiveNodeConns() ensures d.Node() == n && d.link != c.link {
        OtherConn(c, d);
      }
      assert QueryTrue(s', A, n, q, nd'.queries[q]);
    }
  }

  lemma DeliverTrue(s: State, A: set<Link>, m: Msg)
    requires NamesInv(s) && LifeInv(s) && TruthInv(s, A) && Enabled(s, Deliver(m)) && AcceptInv(s, A)
    ensures var n := m.to.Node();
            var (nd', out) := React(s.nodes[n], Deliver(m), |s.asks|);
            NodeTrue(s, A, n, nd') && forall k :: k in out ==> MsgTrue(s, A, k)
  {
    var n := m.to.Node();
    var nd := s.nodes[n];
    assert MsgNames(s.asks, m) && MsgTrue(s, A, m) && FreshNode(s, nd) && MsgAccepted(A, m);
    match m.body
    case Hello(_) =>
    case Ask(q, target) => AskTrue(s, A, n, m.to, q);
    case Answer(q, r) => AnswerTrue(s, A, n, nd, m.to, q, r);
  }

  lemma AnswerTrue(s: State, A: set<Link>, n: NodeId, nd: Node, c: Conn, q: QueryId, r: Result)
    requires NodeTrue(s, A, n, nd) && q < |s.asks| && (r.Found? ==> c.link in A)
    requires r.Found? && Open(s, q) ==> Leads(s, A, q, c.Peer().Node())
    ensures NodeTrue(s, A, n, HandleReply(nd, c, q, r))
  {
    if q in nd.queries && Open(s, q) {
      ReplyTrue(s, A, n, q, nd.queries[q], c, r);
    }
  }

  /** No query is new, and no check has newly been told "found". */
  lemma FewerTrue(s: State, A: set<Link>, n: NodeId, nd: Node, nd': Node)
    requires NodeTrue(s, A, n, nd)
    requires forall q :: q in nd'.queries ==> q in nd.queries && nd'.queries[q] == nd.queries[q]
    requires forall c :: c in nd'.checks ==>
               (c in nd.checks && nd'.checks[c] == nd.checks[c]) || !nd'.checks[c].Decided?
    requires forall q :: q in nd.queries ==> q < |s.asks|
    ensures NodeTrue(s, A, n, nd')
  {
  }

  ghost predicate KnownQueries(s: State, nd: Node) {
    forall q :: q in nd.queries ==> q < |s.asks|
  }

  lemma GreetTrue(s: State, A: set<Link>, n: NodeId, nd: Node, c: Conn)
    requires NodeTrue(s, A, n, nd) && KnownQueries(s, nd) && c in nd.peers
    ensures NodeTrue(s, A, n, Greeted(n, nd, c))
  {
    ForgetTrue(s, A, n, nd, c);
    FewerTrue(s, A, n, nd, nd.(checks := nd.checks[c := Ready(0, nd.peers[c])]));
  }

  lemma ReadyTrue(s: State, A: set<Link>, n: NodeId, nd: Node, c: Conn, attempt: nat, peer: NodeId)
    requires NodeTrue(s, A, n, nd) && KnownQueries(s, nd)
    ensures NodeTrue(s, A, n, nd.(checks := nd.checks[c := Ready(attempt, peer)]))
  {
    FewerTrue(s, A, n, nd, nd.(checks := nd.checks[c := Ready(attempt, peer)]));
  }

  lemma UsingTrue(s: State, A: set<Link>, n: NodeId, nd: Node, c: Conn)
    requires NodeTrue(s, A, n, nd) && KnownQueries(s, nd)
    ensures NodeTrue(s, A, n, nd.(pending := nd.pending - {c}, checks := nd.checks[c := Phase.Accepted]))
  {
    FewerTrue(s, A, n, nd, nd.(pending := nd.pending - {c}, checks := nd.checks[c := Phase.Accepted]));
  }

  lemma DecideTrue(s: State, A: set<Link>, n: NodeId, nd: Node, c: Conn)
    requires NodeTrue(s, A, n, nd) && KnownQueries(s, nd) && c in nd.checks && nd.checks[c].Decided?
    ensures NodeTrue(s, A, n, Decide(nd, c))
  {
    var p := nd.checks[c];
    if p.result.NotFound? {
      UsingTrue(s, A, n, nd, c);
    } else if p.result.Unknown? && p.attempt + 1 < MAX_CHECK_ATTEMPTS {
      ReadyTrue(s, A, n, nd, c, p.attempt + 1, p.peer);
    } else {
      ForgetTrue(s, A, n, nd, c);
    }
  }

  lemma AbortTrue(s: State, A: set<Link>, n: NodeId, nd: Node, c: Conn)
    requires NodeTrue(s, A, n, nd) && KnownQueries(s, nd) && c in nd.checks
    ensures NodeTrue(s, A, n, Abort(nd, c))
  {
    FewerTrue(s, A, n, nd, Abort(nd, c));
  }

  lemma ReactTrue(s: State, A: set<Link>, e: Event)
    requires NamesInv(s) && LifeInv(s) && TruthInv(s, A) && AcceptInv(s, A) && Enabled(s, e) && !e.Start?
    ensures var (nd', out) := React(s.nodes[At(e)], e, |s.asks|);
            NodeTrue(s, A, At(e), nd') && forall m :: m in out ==> MsgTrue(s, A, m)
  {
    var n := At(e);
    var nd := s.nodes[n];
    assert NodeTrue(s, A, n, nd) && NodeNames(s.asks, nd) && FreshNode(s, nd);
    match e
    case Deliver(m) => DeliverTrue(s, A, m);
    case Finish(_, q) => ConcludeTrue(s, A, n, q, nd.queries[q].result.value);
    case Timeout(_, q) => ConcludeTrue(s, A, n, q, Unknown);
    case NoHello(c) => ForgetTrue(s, A, n, nd, c);
    case Greet(c) => GreetTrue(s, A, n, nd, c);
    case Act(c) => DecideTrue(s, A, n, nd, c);
    case Lose(c) => ForgetTrue(s, A, n, nd, c);
    case GiveUp(c) => AbortTrue(s, A, n, nd, c);
    case Establish(_) =>
    case Arrive(_) =>
    case Acquire(_) =>
    case Release(_) =>
    case Close(_) =>
  }

  lemma StepNodeTrue(s: State, A: set<Link>, A': set<Link>, e: Event)
    requires NamesInv(s) && LifeInv(s) && TruthInv(s, A) && AcceptInv(s, A) && A <= A' && Enabled(s, e)
    ensures NodeTrue(Step(s, e), A', At(e), Step(s, e).nodes[At(e)])
  {
    FreshStep(s, e);
    if e.Start? {
      StartTrue(s, A, e.conn);
      assert Older(Step(s, e), Step(s, e));
      NodeStillTrue(Step(s, e), Step(s, e), A, A', At(e), Step(s, e).nodes[At(e)]);
    } else {
      ReactTrue(s, A, e);
      StepOlder(s, e);
      NodeStillTrue(s, Step(s, e), A, A', At(e), Step(s, e).nodes[At(e)]);
    }
  }

  lemma StepMsgTrue(s: State, A: set<Link>, A': set<Link>, e: Event, m: Msg)
    requires NamesInv(s) && LifeInv(s) && TruthInv(s, A) && AcceptInv(s, A) && A <= A' && Enabled(s, e)
    requires m in Step(s, e).net
    ensures MsgTrue(Step(s, e), A', m)
  {
    StepOlder(s, e);
    if m in s.net {
      assert MsgNames(s.asks, m) && MsgTrue(s, A, m);
      MsgStillTrue(s, Step(s, e), A, A', m);
    } else if !e.Start? {
      ReactTrue(s, A, e);
      if m.body.Answer? {
        StepKeepsAnswers(s, e, m);
      }
      MsgStillTrue(s, Step(s, e), A, A', m);
    }
  }

  /** A node answers only queries that exist. */
  lemma StepKeepsAnswers(s: State, e: Event, m: Msg)
    requires NamesInv(s) && Enabled(s, e) && !e.Start? && m in React(s.nodes[At(e)], e, |s.asks|).1 && m.body.Answer?
    ensures m.body.query < |s.asks|
  {
    assert e.Deliver? ==> MsgNames(s.asks, e.msg);
    ReactNames(s.asks, s.nodes[At(e)], e);
  }

  lemma {:induction false} TruthInvariant(trace: seq<State>, events: seq<Event>, i: nat)
    requires Run(trace, events) && i < |trace|
    ensures TruthInv(trace[i], Accepted(trace, events, i))
  {
    if i > 0 {
      var j := i - 1;
      var s, e := trace[j], events[j];
      var A, A' := Accepted(trace, events, j), Accepted(trace, events, i);
      TruthInvariant(trace, events, j);
      AcceptInvariant(trace, events, j);
      NamesInvariant(trace, events, j);
      LifeInvariant(trace, events, j);
      assert Enabled(s, e) && trace[j + 1] == Step(s, e);
      StepNodeTrue(s, A, A', e);
      StepOlder(s, e);
      forall n | n in trace[i].nodes ensures NodeTrue(trace[i], A', n, trace[i].nodes[n]) {
        if n != At(e) {
          assert FreshNode(s, s.nodes[n]);
          NodeStillTrue(s, Step(s, e), A, A', n, s.nodes[n]);
        }
      }
      forall m | m in trace[i].net ensures MsgTrue(trace[i], A', m) {
        StepMsgTrue(s, A, A', e, m);
      }
    }
  }

  /** In every run, whatever the timing: a check ends with "it would create a cycle" only if it
      would. Other links, accepted by then, join the two nodes. */
  lemma FoundIsTrue(trace: seq<State>, events: seq<Event>, i: nat, n: NodeId, c: Conn)
    requires Run(trace, events) && i < |trace| && n in trace[i].nodes && c in trace[i].nodes[n].checks
    requires trace[i].nodes[n].checks[c].Decided? && trace[i].nodes[n].checks[c].result.Found?
    ensures Connected(Accepted(trace, events, i) - {c.link}, c.link.a, c.link.b)
  {
    TruthInvariant(trace, events, i);
    assert NodeTrue(trace[i], Accepted(trace, events, i), n, trace[i].nodes[n]);
  }

  // --- how often a check tries ----------------------------------------------------------------------

  function Attempts(asks: seq<Link>, l: Link): nat {
    if asks == [] then 0 else Attempts(asks[..|asks| - 1], l) + if asks[|asks| - 1] == l then 1 else 0
  }

  lemma OneMoreAttempt(asks: seq<Link>, l: Link, k: Link)
    ensures Attempts(asks + [l], k) == Attempts(asks, k) + if l == k then 1 else 0
  {
    assert (asks + [l])[..|asks|] == asks;
  }

  ghost predicate Tried(s: State, c: Conn, p: Phase) {
    var n := Attempts(s.asks, c.link);
    match p
    case Waiting => n == 0
    case Greeting => n == 0
    case Ready(attempt, _) => n == attempt < MAX_CHECK_ATTEMPTS
    case Asking(attempt, _, _) => n == attempt + 1 <= MAX_CHECK_ATTEMPTS
    case Decided(attempt, _, _, _) => n == attempt + 1 <= MAX_CHECK_ATTEMPTS
    case Accepted => n <= MAX_CHECK_ATTEMPTS
  }

  ghost predicate TriesInv(s: State) {
    && (forall l :: Attempts(s.asks, l) <= MAX_CHECK_ATTEMPTS && (l !in s.made ==> Attempts(s.asks, l) == 0))
    && forall n, c :: n in s.nodes && c in s.nodes[n].checks ==> Tried(s, c, s.nodes[n].checks[c])
  }

  function PhaseOf(nd: Node, c: Conn): Option<Phase> {
    if c in nd.checks then Some(nd.checks[c]) else None
  }

  /** The order of a check: the lock, the Hello, and then attempts numbered one after another, each
      asking unless there is nobody to ask, up to the limit. */
  ghost predicate Follows(p: Option<Phase>, p': Phase) {
    p == Some(p') ||
    match p'
    case Waiting => p.None?
    case Greeting => p.Some? && p.value.Waiting?
    case Ready(attempt, _) =>
      p.Some? && ((p.value.Greeting? && attempt == 0)
                  || (p.value.Decided? && attempt == p.value.attempt + 1 < MAX_CHECK_ATTEMPTS))
    case Asking(attempt, _, _) => p.Some? && p.value.Ready? && attempt == p.value.attempt
    case Decided(attempt, _, _, _) => p.Some? && (p.value.Asking? || p.value.Ready?) && attempt == p.value.attempt
    case Accepted => p.Some? && p.value.Decided?
  }

  /** The step that starts an attempt. */
  ghost predicate Begins(p: Option<Phase>, p': Phase) {
    p.Some? && p.value.Ready? && (p'.Asking? || p'.Decided?)
  }

  lemma DeliverFollows(nd: Node, m: Msg, q: QueryId)
    requires Possible(nd, Deliver(m))
    ensures React(nd, Deliver(m), q).0.checks == nd.checks
  {
    match m.body
    case Hello(_) =>
    case Ask(_, _) =>
    case Answer(_, _) =>
  }

  lemma ConcludeFollows(nd: Node, q: QueryId, r: Result, c: Conn)
    requires q in nd.queries && c in Conclude(nd, q, r).0.checks
    ensures Follows(PhaseOf(nd, c), Conclude(nd, q, r).0.checks[c])
    ensures !Begins(PhaseOf(nd, c), Conclude(nd, q, r).0.checks[c])
  {
  }

  lemma DecideFollows(nd: Node, d: Conn, c: Conn)
    requires d in nd.checks && nd.checks[d].Decided? && c in Decide(nd, d).checks
    ensures Follows(PhaseOf(nd, c), Decide(nd, d).checks[c])
    ensures !Begins(PhaseOf(nd, c), Decide(nd, d).checks[c])
  {
  }

  lemma StartFollows(nd: Node, d: Conn, q: QueryId, c: Conn)
    requires d in nd.checks && nd.checks[d].Ready? && c in StartAttempt(nd, d, q).0.checks
    ensures Follows(PhaseOf(nd, c), StartAttempt(nd, d, q).0.checks[c])
    ensures Begins(PhaseOf(nd, c), StartAttempt(nd, d, q).0.checks[c]) <==> c == d
  {
  }

  /** Whatever happens at a node, each of its checks goes on in order or stays where it is, and only
      a start begins an attempt. */
  lemma StepFollows(nd: Node, e: Event, q: QueryId, c: Conn)
    requires Possible(nd, e) && c in React(nd, e, q).0.checks
    requires e.Establish? ==> Conn(e.link, true) !in nd.checks
    ensures Follows(PhaseOf(nd, c), React(nd, e, q).0.checks[c])
    ensures Begins(PhaseOf(nd, c), React(nd, e, q).0.checks[c]) <==> e == Start(c)
  {
    match e
    case Deliver(m) => DeliverFollows(nd, m, q);
    case Finish(_, k) => ConcludeFollows(nd, k, nd.queries[k].result.value, c);
    case Timeout(_, k) => ConcludeFollows(nd, k, Unknown, c);
    case Act(d) => DecideFollows(nd, d, c);
    case Start(d) => StartFollows(nd, d, q, c);
    case Greet(_) =>
    case GiveUp(_) =>
    case Close(_) =>
    case _ =>
  }

  lemma FollowsTried(s: State, c: Conn, p: Option<Phase>, p': Phase)
    requires Follows(p, p') && !Begins(p, p') && (p.Some? ==> Tried(s, c, p.value))
    requires p.None? ==> Attempts(s.asks, c.link) == 0
    ensures Tried(s, c, p')
  {
  }

  lemma StartTried(s: State, c: Conn)
    requires LifeInv(s) && TriesInv(s) && Enabled(s, Start(c))
    ensures TriesInv(Step(s, Start(c)))
  {
    var s' := Step(s, Start(c));
    assert FreshNode(s, s.nodes[c.Node()]) && Tried(s, c, s.nodes[c.Node()].checks[c]);
    forall l ensures Attempts(s'.asks, l) <= MAX_CHECK_ATTEMPTS && (l !in s'.made ==> Attempts(s'.asks, l) == 0) {
      OneMoreAttempt(s.asks, c.link, l);
    }
    forall n, d | n in s'.nodes && d in s'.nodes[n].checks ensures Tried(s', d, s'.nodes[n].checks[d]) {
      StartTriedOne(s, c, n, d);
    }
  }

  lemma StartTriedOne(s: State, c: Conn, n: NodeId, d: Conn)
    requires LifeInv(s) && TriesInv(s) && Enabled(s, Start(c))
    requires n in s.nodes && d in Step(s, Start(c)).nodes[n].checks
    ensures Tried(Step(s, Start(c)), d, Step(s, Start(c)).nodes[n].checks[d])
  {
    OneMoreAttempt(s.asks, c.link, d.link);
    if n == c.Node() {
      StartedChecks(s.nodes[n], c, |s.asks|, d);
    }
    SameEnd(s, n, d, c);
    assert Tried(s, d, s.nodes[n].checks[d]);
  }

  lemma StartedChecks(nd: Node, c: Conn, q: QueryId, d: Conn)
    requires c in nd.checks && nd.checks[c].Ready? && d in StartAttempt(nd, c, q).0.checks
    ensures d in nd.checks
    ensures var p, p' := nd.checks[d], StartAttempt(nd, c, q).0.checks[d];
            if d == c then (p'.Asking? || p'.Decided?) && p'.attempt == p.attempt else p' == p
  {
  }

  /** No other check is about the same link. */
  lemma SameEnd(s: State, n: NodeId, d: Conn, c: Conn)
    requires LifeInv(s) && n in s.nodes && d in s.nodes[n].checks
    requires c.Node() in s.nodes && c in s.nodes[c.Node()].checks
    ensures d.link == c.link ==> d == c && n == c.Node()
  {
    assert LifeOk(n, s.nodes[n]) && LifeOk(c.Node(), s.nodes[c.Node()]);
    assert d == Conn(d.link, d.up) && c == Conn(c.link, c.up);
  }

  lemma OtherTriedOne(s: State, e: Event, n: NodeId, nd: Node, c: Conn)
    requires LifeInv(s) && TriesInv(s) && Enabled(s, e) && !e.Start? && n == At(e) && nd == s.nodes[n]
    requires c in React(nd, e, |s.asks|).0.checks
    ensures Tried(s, c, React(nd, e, |s.asks|).0.checks[c])
  {
    assert c in nd.checks ==> Tried(s, c, nd.checks[c]);
    NewThings(nd, e, |s.asks|);
    assert FreshNode(s, nd);
    StepFollows(nd, e, |s.asks|, c);
    FollowsTried(s, c, PhaseOf(nd, c), React(nd, e, |s.asks|).0.checks[c]);
  }

  lemma OtherTried(s: State, e: Event)
    requires LifeInv(s) && TriesInv(s) && Enabled(s, e) && !e.Start?
    ensures TriesInv(Step(s, e))
  {
    var s' := Step(s, e);
    forall n, c | n in s'.nodes && c in s'.nodes[n].checks ensures Tried(s', c, s'.nodes[n].checks[c]) {
      if n == At(e) {
        OtherTriedOne(s, e, n, s.nodes[n], c);
      } else {
        assert Tried(s, c, s.nodes[n].checks[c]);
      }
    }
  }

  lemma {:induction false} TriesInvariant(trace: seq<State>, events: seq<Event>, i: nat)
    requires Run(trace, events) && i < |trace|
    ensures TriesInv(trace[i])
  {
    if i > 0 {
      var j := i - 1;
      TriesInvariant(trace, events, j);
      LifeInvariant(trace, events, j);
      assert Enabled(trace[j], events[j]) && trace[j + 1] == Step(trace[j], events[j]);
      if events[j].Start? {
        StartTried(trace[j], events[j].conn);
      } else {
        OtherTried(trace[j], events[j]);
      }
    }
  }

  /** No connection is asked about more than five times, in any run. */
  lemma AttemptsAreBounded(trace: seq<State>, events: seq<Event>, i: nat, l: Link)
    requires Run(trace, events) && i < |trace|
    ensures Attempts(trace[i].asks, l) <= MAX_CHECK_ATTEMPTS
  {
    TriesInvariant(trace, events, i);
  }

  // --- how a check goes on ---------------------------------------------------------------------

  /** In every run: the peer has said who it is, and the check goes on to its first attempt exactly
      if that is another node to which no accepted connection leads yet. Else it is refused. */
  lemma GreetingDecides(trace: seq<State>, events: seq<Event>, i: nat, c: Conn)
    requires Run(trace, events) && i < |events| && events[i] == Greet(c)
    ensures Enabled(trace[i], events[i]) && c.Node() in trace[i + 1].nodes
    ensures var n, nd, nd' := c.Node(), trace[i].nodes[c.Node()], trace[i + 1].nodes[c.Node()];
            if c.Peer().Node() != n && forall d :: d in nd.ActiveNodeConns() ==> d.Peer().Node() != c.Peer().Node()
            then c in nd'.pending && c in nd'.checks && nd'.checks[c] == Ready(0, c.Peer().Node())
            else c !in nd'.conns && c !in nd'.checks && !nd'.locked
  {
    assert Enabled(trace[i], events[i]) && trace[i + 1] == Step(trace[i], events[i]);
    NamesInvariant(trace, events, i);
    assert NodeNames(trace[i].asks, trace[i].nodes[c.Node()]);
  }

  /** In every run: "not found" accepts the connection, "found" refuses it, and an unknown result
      is followed by another attempt, until the fifth refuses it. */
  lemma ResultDecides(trace: seq<State>, events: seq<Event>, i: nat, c: Conn)
    requires Run(trace, events) && i < |events| && events[i] == Act(c)
    ensures Enabled(trace[i], events[i]) && c.Node() in trace[i + 1].nodes
    ensures var p, nd' := trace[i].nodes[c.Node()].checks[c], trace[i + 1].nodes[c.Node()];
            match p.result
            case NotFound => c in nd'.conns && c !in nd'.pending && c in nd'.checks && nd'.checks[c].Accepted?
            case Found => c !in nd'.conns && c !in nd'.checks && !nd'.locked
            case Unknown =>
              if p.attempt < 4 then c in nd'.pending && c in nd'.checks && nd'.checks[c] == Ready(p.attempt + 1, p.peer)
              else c !in nd'.conns && c !in nd'.checks && !nd'.locked
  {
    assert Enabled(trace[i], events[i]) && trace[i + 1] == Step(trace[i], events[i]);
    LifeInvariant(trace, events, i);
  }
}
