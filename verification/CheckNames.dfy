/** Who is who in the cycle check, in every run, whatever the timing: nodes, phases, queries and
    messages name the node, the link and the target that they are about. */
module CheckNames {
  import opened Links
  import opened CycleCheck

  /** The attempts of the check of `c` are about its link, which leads to another node. */
  ghost predicate PhaseNames(asks: seq<Link>, c: Conn, p: Phase) {
    match p
    case Ready(_, peer) => peer == c.Peer().Node() != c.Node()
    case Asking(_, peer, q) => peer == c.Peer().Node() != c.Node() && q < |asks| && asks[q] == c.link
    case Decided(_, peer, q, _) => peer == c.Peer().Node() != c.Node() && q < |asks| && asks[q] == c.link
    case _ => true
  }

  ghost predicate QueryNames(asks: seq<Link>, q: QueryId, Q: Query) {
    q < |asks| && Q.target == asks[q].b && (Q.origin.Own? ==> Q.origin.conn.link == asks[q])
  }

  ghost predicate NodeNames(asks: seq<Link>, nd: Node) {
    && (forall c :: c in nd.peers ==> nd.peers[c] == c.Peer().Node())
    && (forall c :: c in nd.checks ==> c.up && PhaseNames(asks, c, nd.checks[c]))
    && (forall q :: q in nd.queries ==> QueryNames(asks, q, nd.queries[q]))
  }

  ghost predicate MsgNames(asks: seq<Link>, m: Msg) {
    match m.body
    case Hello(id) => id == m.to.Peer().Node()
    case Ask(q, target) => q < |asks| && target == asks[q].b
    case Answer(q, _) => q < |asks|
  }

  ghost predicate NamesInv(s: State) {
    && (forall n :: n in s.nodes ==> NodeNames(s.asks, s.nodes[n]))
    && (forall m :: m in s.net ==> MsgNames(s.asks, m))
  }

  ghost predicate Named(asks: seq<Link>, nd: Node, out: set<Msg>) {
    NodeNames(asks, nd) && forall m :: m in out ==> MsgNames(asks, m)
  }

  // --- one handler after another -----------------------------------------------------

  lemma ForgetNames(asks: seq<Link>, nd: Node, c: Conn)
    requires NodeNames(asks, nd)
    ensures NodeNames(asks, nd.Forget(c)) && NodeNames(asks, nd.Refuse(c))
  {
  }

  lemma QueryHandled(asks: seq<Link>, n: NodeId, nd: Node, source: Conn, q: QueryId, target: NodeId)
    requires NodeNames(asks, nd) && q < |asks| && target == asks[q].b
    ensures var (nd', out) := HandleQuery(n, nd, source, q, target); Named(asks, nd', out)
  {
  }

  lemma DeliverNames(asks: seq<Link>, nd: Node, m: Msg, next: QueryId)
    requires NodeNames(asks, nd) && MsgNames(asks, m) && Possible(nd, Deliver(m))
    ensures var (nd', out) := React(nd, Deliver(m), next); Named(asks, nd', out)
  {
    match m.body
    case Hello(_) =>
    case Ask(q, target) => QueryHandled(asks, m.to.Node(), nd, m.to, q, target);
    case Answer(_, _) =>
  }

  /** A check goes on to a phase that names its link. */
  lemma PhaseChanged(asks: seq<Link>, nd: Node, nd': Node, c: Conn, p: Phase)
    requires NodeNames(asks, nd) && c.up && PhaseNames(asks, c, p)
    requires nd'.peers == nd.peers && nd'.checks == nd.checks[c := p]
    requires forall q :: q in nd'.queries ==> q in nd.queries && nd'.queries[q] == nd.queries[q]
    ensures NodeNames(asks, nd')
  {
  }

  lemma ConcludeNames(asks: seq<Link>, nd: Node, q: QueryId, r: Result)
    requires NodeNames(asks, nd) && q in nd.queries
    ensures var (nd', out) := Conclude(nd, q, r); Named(asks, nd', out)
  {
    var Q := nd.queries[q];
    assert QueryNames(asks, q, Q);
    if Q.origin.Own? && Q.origin.conn in nd.checks && nd.checks[Q.origin.conn].Asking? {
      var c := Q.origin.conn;
      var p := nd.checks[c];
      assert PhaseNames(asks, c, p);
      PhaseChanged(asks, nd, Conclude(nd, q, r).0, c, Decided(p.attempt, p.peer, q, r));
    }
  }

  lemma AttemptNames(asks: seq<Link>, nd: Node, c: Conn)
    requires c in nd.checks && nd.checks[c].Ready? && PhaseNames(asks, c, nd.checks[c])
    ensures |asks| < |asks + [c.link]| && (asks + [c.link])[|asks|] == c.link
    ensures c in StartAttempt(nd, c, |asks|).0.checks
    ensures PhaseNames(asks + [c.link], c, StartAttempt(nd, c, |asks|).0.checks[c])
  {
  }

  lemma StartNames(asks: seq<Link>, nd: Node, c: Conn)
    requires NodeNames(asks, nd) && c in nd.checks && nd.checks[c].Ready?
    ensures var (nd', out) := StartAttempt(nd, c, |asks|); Named(asks + [c.link], nd', out)
  {
    var p, nd', asks' := nd.checks[c], StartAttempt(nd, c, |asks|).0, asks + [c.link];
    assert c.up && PhaseNames(asks, c, p);
    AttemptNames(asks, nd, c);
    MoreNames(asks, c.link, nd);
    PhaseChanged(asks', nd, nd.(checks := nd.checks[c := nd'.checks[c]]), c, nd'.checks[c]);
    assert QueryNames(asks', |asks|, NewQuery(Own(c), p.peer, nd.ActiveNodeConns()));
  }

  lemma GreetNames(asks: seq<Link>, n: NodeId, nd: Node, c: Conn)
    requires NodeNames(asks, nd) && c in nd.checks && c in nd.peers && c.Node() == n
    ensures NodeNames(asks, Greeted(n, nd, c))
  {
    ForgetNames(asks, nd, c);
    if nd.peers[c] != n {
      PhaseChanged(asks, nd, nd.(checks := nd.checks[c := Ready(0, nd.peers[c])]), c, Ready(0, nd.peers[c]));
    }
  }

  lemma DecideNames(asks: seq<Link>, nd: Node, c: Conn)
    requires NodeNames(asks, nd) && c in nd.checks && nd.checks[c].Decided?
    ensures NodeNames(asks, Decide(nd, c))
  {
    var p := nd.checks[c];
    assert PhaseNames(asks, c, p);
    if p.result.NotFound? {
      PhaseChanged(asks, nd, Decide(nd, c), c, Accepted);
    } else if p.result.Unknown? && p.attempt + 1 < MAX_CHECK_ATTEMPTS {
      PhaseChanged(asks, nd, Decide(nd, c), c, Ready(p.attempt + 1, p.peer));
    } else {
      ForgetNames(asks, nd, c);
    }
  }

  lemma AbortNames(asks: seq<Link>, nd: Node, c: Conn)
    requires NodeNames(asks, nd) && c in nd.checks
    ensures NodeNames(asks, Abort(nd, c))
  {
  }

  lemma CheckNamesKept(asks: seq<Link>, nd: Node, e: Event)
    requires NodeNames(asks, nd) && Possible(nd, e) && (e.Greet? || e.Act? || e.NoHello? || e.GiveUp? || e.Lose?)
    ensures Named(asks, React(nd, e, |asks|).0, {}) && React(nd, e, |asks|).1 == {}
  {
    if e.Greet? {
      GreetNames(asks, e.conn.Node(), nd, e.conn);
    } else if e.Act? {
      DecideNames(asks, nd, e.conn);
    } else if e.GiveUp? {
      AbortNames(asks, nd, e.conn);
    } else {
      ForgetNames(asks, nd, e.conn);
    }
  }

  lemma OtherNames(asks: seq<Link>, nd: Node, e: Event)
    requires NodeNames(asks, nd) && Possible(nd, e)
    requires e.Establish? || e.Arrive? || e.Acquire? || e.Release? || e.Close?
    ensures var (nd', out) := React(nd, e, |asks|); Named(asks, nd', out)
  {
  }

  // --- every step -----------------------------------------------------------------------

  lemma MoreNames(asks: seq<Link>, l: Link, nd: Node)
    requires NodeNames(asks, nd)
    ensures NodeNames(asks + [l], nd)
  {
    forall c | c in nd.checks ensures PhaseNames(asks + [l], c, nd.checks[c]) {
      assert PhaseNames(asks, c, nd.checks[c]);
    }
    forall q | q in nd.queries ensures QueryNames(asks + [l], q, nd.queries[q]) {
      assert QueryNames(asks, q, nd.queries[q]);
    }
  }

  lemma MoreMsgNames(asks: seq<Link>, l: Link, m: Msg)
    requires MsgNames(asks, m)
    ensures MsgNames(asks + [l], m)
  {
  }

  lemma ReactNames(asks: seq<Link>, nd: Node, e: Event)
    requires NodeNames(asks, nd) && Possible(nd, e) && !e.Start? && (e.Deliver? ==> MsgNames(asks, e.msg))
    ensures var (nd', out) := React(nd, e, |asks|); Named(asks, nd', out)
  {
    if e.Deliver? {
      DeliverNames(asks, nd, e.msg, |asks|);
    } else if e.Finish? {
      ConcludeNames(asks, nd, e.query, nd.queries[e.query].result.value);
    } else if e.Timeout? {
      ConcludeNames(asks, nd, e.query, Unknown);
    } else if e.Greet? || e.Act? || e.NoHello? || e.GiveUp? || e.Lose? {
      CheckNamesKept(asks, nd, e);
    } else {
      OtherNames(asks, nd, e);
    }
  }

  lemma StartStep(s: State, c: Conn)
    requires NamesInv(s) && Enabled(s, Start(c))
    ensures NamesInv(Step(s, Start(c)))
  {
    var s' := Step(s, Start(c));
    StartNames(s.asks, s.nodes[c.Node()], c);
    forall n | n in s'.nodes ensures NodeNames(s'.asks, s'.nodes[n]) {
      if n != c.Node() {
        MoreNames(s.asks, c.link, s.nodes[n]);
      }
    }
    forall m | m in s'.net ensures MsgNames(s'.asks, m) {
      if m in s.net {
        MoreMsgNames(s.asks, c.link, m);
      }
    }
  }

  lemma StepKeepsNames(s: State, e: Event)
    requires NamesInv(s) && Enabled(s, e)
    ensures NamesInv(Step(s, e))
  {
    if e.Start? {
      StartStep(s, e.conn);
    } else {
      ReactNames(s.asks, s.nodes[At(e)], e);
    }
  }

  lemma {:induction false} NamesInvariant(trace: seq<State>, events: seq<Event>, i: nat)
    requires Run(trace, events) && i < |trace|
    ensures NamesInv(trace[i])
  {
    if i > 0 {
      var j := i - 1;
      NamesInvariant(trace, events, j);
      assert Enabled(trace[j], events[j]) && trace[j + 1] == Step(trace[j], events[j]);
      StepKeepsNames(trace[j], events[j]);
    }
  }
}
