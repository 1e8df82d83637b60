/** What a check finds out when nothing comes in between: "found" if the links in use join the two
    nodes, and else "not found". */
module CheckCompleteness {
  import opened Graphs
  import opened Links
  import opened CycleCheck
  import opened CycleSafety
  import Trees

  // --- where a query comes from -------------------------------------------------------------

  /** What arrives on `d` comes from the side of `a`. */
  ghost predicate From(E: set<Link>, a: NodeId, d: Conn) {
    d.link in E ==> Connected(E - {d.link}, d.Peer().Node(), a)
  }

  lemma FromStart(E: set<Link>, d: Conn)
    ensures From(E, d.Node(), d.Peer())
  {
    Reflexive(E - {d.link}, d.Node());
    assert d.Peer().Peer() == d;
  }

  lemma NeverBackAtStart(E: set<Link>, a: NodeId, d: Conn)
    requires Forest(E) && d.link in E && From(E, a, d)
    ensures d.Node() != a
  {
    Trees.CutOff(E, d.Peer());
    assert d.Peer().Peer() == d;
  }

  /** Passed on over `out`, the query still comes from the side of `a`. */
  lemma FromOnward(E: set<Link>, a: NodeId, d: Conn, out: Conn)
    requires Forest(E) && d.link in E && From(E, a, d) && out.Node() == d.Node() && out != d
    ensures From(E, a, out.Peer())
  {
    assert out.Peer().Peer() == out;
    if out.link in E {
      Trees.SubtreeInside(E, {a}, out, d);
      assert a in Trees.Ahead(E, {a}, d.Peer());
    }
  }

  /** It reaches a node on one connection alone. */
  lemma OneWay(E: set<Link>, a: NodeId, d: Conn, f: Conn)
    requires Forest(E) && d.link in E && f.link in E && d.Node() == f.Node()
    requires From(E, a, d) && From(E, a, f)
    ensures d == f
  {
    if d != f {
      assert a in Trees.Ahead(E, {a}, d.Peer()) && a in Trees.Ahead(E, {a}, f.Peer());
      Trees.SubtreesDisjoint(E, {a}, d, f);
    }
  }

  /** The target is joined to `a` if the query gets there. */
  lemma Reaches(E: set<Link>, a: NodeId, d: Conn)
    requires d.link in E && From(E, a, d)
    ensures Connected(E, a, d.Node())
  {
    var u := d.Peer().Node();
    Monotone(E - {d.link}, E, u, a);
    OneEdge(E, d.link);
    Symmetric(E, u, a);
    Transitive(E, a, u, d.Node());
  }

  // --- a check on its own ---------------------------------------------------------------------

  /** No other connection is pending, and no other node is checking. */
  ghost predicate OnlyCheck(s: State, c: Conn) {
    forall n :: n in s.nodes ==> s.nodes[n].pending <= {c} && (s.nodes[n].checking ==> n == c.Node())
  }

  /** Nothing ends the check from outside, and `q` is not timed out anywhere. */
  predicate Calm(e: Event, q: QueryId) {
    !e.Lose? && !e.GiveUp? && !e.Close? && !e.Act? && !(e.Timeout? && e.query == q)
  }

  /** Every query is delivered once, as TCP does. */
  predicate Once(events: seq<Event>, i: nat, j: nat)
    requires j <= |events|
  {
    forall g, h :: i < g < h < j && events[g].Deliver? && events[g].msg.body.Ask? ==> events[h] != events[g]
  }

  ghost predicate Undisturbed(trace: seq<State>, events: seq<Event>, i: nat, j: nat, c: Conn, q: QueryId)
    requires j < |trace| && |trace| == |events| + 1
  {
    && (forall h :: i <= h <= j ==> OnlyCheck(trace[h], c))
    && (forall h :: i < h < j ==> Calm(events[h], q))
    && Once(events, i, j)
  }

  // --- what is kept until the result is there --------------------------------------------------

  /** The links that the query goes over in the end, whose check it is, and which query. */
  datatype Setting = Setting(E: set<Link>, c: Conn, q: QueryId) {
    ghost predicate Joined() {
      Connected(E, c.Node(), c.Peer().Node())
    }

    /** A result that may be told. */
    ghost predicate True(r: Result) {
      !r.Unknown? && (r.Found? ==> Joined())
    }
  }

  /** The node has sent the query over a connection that it uses. */
  ghost predicate AskOk(s: State, x: Setting, to: Conn) {
    var n := to.Peer().Node();
    && From(x.E, x.c.Node(), to) && n != x.c.Peer().Node()
    && n in s.nodes && to.Peer() in s.nodes[n].conns && to.Peer() !in s.nodes[n].pending
  }

  ghost predicate SentOk(s: State, x: Setting) {
    forall m :: m in s.net ==>
      match m.body
      case Hello(_) => true
      case Ask(k, _) => k == x.q ==> AskOk(s, x, m.to)
      case Answer(k, r) => k == x.q ==> x.True(r)
  }

  /** `seen` are the connections on which the query has been delivered. */
  ghost predicate HeldOk(x: Setting, n: NodeId, Q: Query, seen: set<Conn>) {
    && !Q.sawUnknown && (Q.result.Some? ==> x.True(Q.result.value))
    && match Q.origin
       case Own(d) => n == x.c.Node()
       case Forward(d) => d.Node() == n && d.link in x.E && From(x.E, x.c.Node(), d) && d in seen
  }

  ghost predicate QueriesOk(s: State, x: Setting, seen: set<Conn>) {
    forall n :: n in s.nodes && x.q in s.nodes[n].queries ==> HeldOk(x, n, s.nodes[n].queries[x.q], seen)
  }

  /** The check asks `q`, or has its result. */
  ghost predicate PhaseNow(s: State, x: Setting) {
    var a := x.c.Node();
    && a in s.nodes && x.c in s.nodes[a].checks
    && match s.nodes[a].checks[x.c]
       case Asking(_, _, k) => k == x.q
       case Decided(_, _, k, r) =>
         k == x.q && x.True(r) && (r.NotFound? ==> !Connected(Earlier(s, x.q), a, x.c.Peer().Node()))
       case _ => false
  }

  ghost predicate Kept(s: State, x: Setting, seen: set<Conn>) {
    && |s.asks| == x.q + 1 && s.asks[x.q] == x.c.link && x.c.up
    && SentOk(s, x) && QueriesOk(s, x, seen) && PhaseNow(s, x)
  }

  /** Connections that are used stay so. */
  ghost predicate Uses(s: State, s': State) {
    && s'.nodes.Keys == s.nodes.Keys && s.made <= s'.made && s'.asks == s.asks
    && forall n :: n in s.nodes ==>
         s.nodes[n].conns <= s'.nodes[n].conns && s'.nodes[n].pending <= s.nodes[n].pending
  }

  lemma UsesActive(s: State, s': State)
    requires Uses(s, s')
    ensures ActiveLinks(s) <= ActiveLinks(s')
  {
  }

  // --- one step -------------------------------------------------------------------------------

  /** A node that uses what it used changes to `nd'` and sends `out`. */
  ghost predicate Changes(s: State, s': State, n: NodeId, nd': Node, out: set<Msg>) {
    && n in s.nodes && s'.nodes == s.nodes[n := nd'] && s'.net == s.net + out
    && s'.asks == s.asks && s.made <= s'.made
    && s.nodes[n].conns <= nd'.conns && nd'.pending <= s.nodes[n].pending
  }

  ghost predicate MsgFine(s: State, x: Setting, m: Msg) {
    match m.body
    case Hello(_) => true
    case Ask(k, _) => k == x.q ==> AskOk(s, x, m.to)
    case Answer(k, r) => k == x.q ==> x.True(r)
  }

  lemma ChangesSent(s: State, s': State, n: NodeId, nd': Node, out: set<Msg>, x: Setting)
    requires SentOk(s, x) && Changes(s, s', n, nd', out) && forall m :: m in out ==> MsgFine(s, x, m)
    ensures SentOk(s', x)
  {
    forall m | m in s'.net ensures MsgFine(s', x, m) {
      assert MsgFine(s, x, m);
    }
  }

  lemma SeenMore(s: State, s': State, n: NodeId, nd': Node, out: set<Msg>, x: Setting, seen: set<Conn>,
                 seen': set<Conn>)
    requires QueriesOk(s, x, seen) && Changes(s, s', n, nd', out) && seen <= seen'
    requires x.q in nd'.queries ==> HeldOk(x, n, nd'.queries[x.q], seen')
    ensures QueriesOk(s', x, seen')
  {
    forall m | m in s'.nodes && x.q in s'.nodes[m].queries ensures HeldOk(x, m, s'.nodes[m].queries[x.q], seen') {
      if m != n {
        assert HeldOk(x, m, s.nodes[m].queries[x.q], seen);
      }
    }
  }

  lemma PhaseStays(s: State, s': State, x: Setting)
    requires PhaseNow(s, x) && Shrinks(s, s') && |s.asks| == x.q + 1
    requires x.c.Node() in s'.nodes && x.c in s'.nodes[x.c.Node()].checks
    requires s'.nodes[x.c.Node()].checks[x.c] == s.nodes[x.c.Node()].checks[x.c]
    ensures PhaseNow(s', x)
  {
    var a, b := x.c.Node(), x.c.Peer().Node();
    if Connected(Earlier(s', x.q), a, b) {
      Monotone(Earlier(s', x.q), Earlier(s, x.q), a, b);
    }
  }

  /** The step does not touch the check, the query or what is sent of it. */
  lemma ChangesKept(s: State, s': State, n: NodeId, nd': Node, out: set<Msg>, x: Setting, seen: set<Conn>,
                    seen': set<Conn>)
    requires Kept(s, x, seen) && Changes(s, s', n, nd', out) && Shrinks(s, s') && seen <= seen'
    requires forall m :: m in out ==> MsgFine(s, x, m)
    requires x.q in nd'.queries ==> HeldOk(x, n, nd'.queries[x.q], seen')
    requires n == x.c.Node() ==> x.c in nd'.checks && nd'.checks[x.c] == s.nodes[n].checks[x.c]
    ensures Kept(s', x, seen') && Uses(s, s')
  {
    ChangesSent(s, s', n, nd', out, x);
    SeenMore(s, s', n, nd', out, x, seen, seen');
    PhaseStays(s, s', x);
  }

  ghost predicate Together(s: State, e: Event, x: Setting) {
    && Inv(s) && Enabled(s, e) && HelloFirst(s, e) && NoQueryBetween(s, e)
    && Shrinks(s, Step(s, e)) && OnlyCheck(s, x.c) && OnlyCheck(Step(s, e), x.c) && Calm(e, x.q)
  }

  /** The check is between asking and acting on its result. */
  ghost predicate Busy(s: State, c: Conn, q: QueryId) {
    && |s.asks| == q + 1 && c.Node() in s.nodes && c in s.nodes[c.Node()].checks
    && c in s.nodes[c.Node()].pending
    && match s.nodes[c.Node()].checks[c]
       case Asking(_, _, k) => k == q
       case Decided(_, _, k, _) => k == q
       case _ => false
  }

  /** What cannot happen while only this check goes on. */
  lemma NothingElse(s: State, e: Event, x: Setting)
    requires Together(s, e, x) && Busy(s, x.c, x.q)
    ensures e.Arrive? || e.Deliver? || e.Acquire? || e.Release? || e.Finish? || (e.Timeout? && e.query != x.q)
  {
    var a := x.c.Node();
    assert NodeOk(s, a, s.nodes[a]);
    if e.Establish? {
      EstablishesAnother(s, e.link, x.c);
    }
  }

  lemma EstablishesAnother(s: State, l: Link, c: Conn)
    requires Inv(s) && Enabled(s, Establish(l)) && c.Node() in s.nodes && c in s.nodes[c.Node()].checks
    ensures !OnlyCheck(Step(s, Establish(l)), c)
  {
    assert NodeOk(s, c.Node(), s.nodes[c.Node()]);
    assert Conn(l, true) in Step(s, Establish(l)).nodes[l.a].pending && Conn(l, true) != c;
  }

  /** Ending a query leaves the lists alone, and of the checks changes at most the one that asked. */
  lemma ConcludeChecks(nd: Node, k: QueryId, r: Result)
    requires k in nd.queries
    requires var o := nd.queries[k].origin;
             o.Own? ==> o.conn in nd.checks && nd.checks[o.conn].Asking? && nd.checks[o.conn].query == k
    ensures var nd' := Conclude(nd, k, r).0;
            && nd'.conns == nd.conns && nd'.pending == nd.pending && nd'.checks.Keys == nd.checks.Keys
            && forall c :: c in nd.checks && nd'.checks[c] != nd.checks[c] ==>
                 nd.checks[c].Asking? && nd'.checks[c].Decided? && nd'.checks[c].query == nd.checks[c].query
  {
  }

  lemma ConcludeBusy(s: State, n: NodeId, k: QueryId, r: Result, c: Conn, q: QueryId)
    requires Inv(s) && Busy(s, c, q) && n in s.nodes && k in s.nodes[n].queries
    ensures var (nd', out) := Conclude(s.nodes[n], k, r);
            Busy(Put(s, n, nd', out), c, q) && Uses(s, Put(s, n, nd', out))
  {
    assert NodeOk(s, n, s.nodes[n]) && QueryOk(s, n, s.nodes[n], k, s.nodes[n].queries[k]);
    ConcludeChecks(s.nodes[n], k, r);
    PutBusy(s, n, Conclude(s.nodes[n], k, r).0, Conclude(s.nodes[n], k, r).1, c, q);
  }

  lemma PutBusy(s: State, n: NodeId, nd': Node, out: set<Msg>, c: Conn, q: QueryId)
    requires Busy(s, c, q) && n in s.nodes
    requires var nd := s.nodes[n];
             && nd'.conns == nd.conns && nd'.pending == nd.pending && nd'.checks.Keys == nd.checks.Keys
             && forall c :: c in nd.checks && nd'.checks[c] != nd.checks[c] ==>
                  nd.checks[c].Asking? && nd'.checks[c].Decided? && nd'.checks[c].query == nd.checks[c].query
    ensures Busy(Put(s, n, nd', out), c, q) && Uses(s, Put(s, n, nd', out))
  {
  }

  lemma DeliverBusy(s: State, m: Msg, c: Conn, q: QueryId)
    requires Busy(s, c, q) && Enabled(s, Deliver(m))
    ensures Busy(Step(s, Deliver(m)), c, q) && Uses(s, Step(s, Deliver(m)))
  {
    match m.body
    case Ask(_, _) =>
    case _ =>
  }

  /** So it goes on, and what is used stays in use. */
  lemma StepBusy(s: State, e: Event, x: Setting)
    requires Together(s, e, x) && Busy(s, x.c, x.q)
    ensures Busy(Step(s, e), x.c, x.q) && Uses(s, Step(s, e))
  {
    NothingElse(s, e, x);
    if e.Deliver? {
      DeliverBusy(s, e.msg, x.c, x.q);
    } else if e.Finish? {
      ConcludeBusy(s, e.node, e.query, s.nodes[e.node].queries[e.query].result.value, x.c, x.q);
    } else if e.Timeout? {
      ConcludeBusy(s, e.node, e.query, Unknown, x.c, x.q);
    }
  }

  lemma ListsKept(s: State, e: Event, x: Setting, seen: set<Conn>)
    requires Together(s, e, x) && Kept(s, x, seen) && (e.Arrive? || e.Acquire? || e.Release?)
    ensures Kept(Step(s, e), x, seen) && Uses(s, Step(s, e))
  {
    var n := At(e);
    var nd' := Step(s, e).nodes[n];
    ChangesKept(s, Step(s, e), n, nd', React(s.nodes[n], e, |s.asks|).1, x, seen, seen);
  }

  // --- messages ---------------------------------------------------------------------------------

  lemma ReplyHeld(x: Setting, n: NodeId, Q: Query, d: Conn, r: Result, seen: set<Conn>)
    requires HeldOk(x, n, Q, seen) && x.True(r)
    ensures HeldOk(x, n, Q.Reply(d, r), seen)
  {
  }

  lemma HelloKept(s: State, m: Msg, x: Setting, seen: set<Conn>)
    requires Together(s, Deliver(m), x) && Kept(s, x, seen) && m.body.Hello?
    ensures Kept(Step(s, Deliver(m)), x, seen) && Uses(s, Step(s, Deliver(m)))
  {
    var n := m.to.Node();
    ChangesKept(s, Step(s, Deliver(m)), n, Step(s, Deliver(m)).nodes[n], {}, x, seen, seen);
  }

  lemma AnswerKept(s: State, m: Msg, x: Setting, seen: set<Conn>)
    requires Together(s, Deliver(m), x) && Kept(s, x, seen) && m.body.Answer?
    ensures Kept(Step(s, Deliver(m)), x, seen) && Uses(s, Step(s, Deliver(m)))
  {
    var n, k, r := m.to.Node(), m.body.query, m.body.result;
    var nd, nd' := s.nodes[n], HandleReply(s.nodes[n], m.to, k, r);
    assert MsgFine(s, x, m);
    if x.q in nd.queries {
      assert HeldOk(x, n, nd.queries[x.q], seen);
      if k == x.q {
        ReplyHeld(x, n, nd.queries[x.q], m.to, r, seen);
      }
    }
    ChangesKept(s, Step(s, Deliver(m)), n, nd', {}, x, seen, seen);
  }

  lemma HandlesOther(n: NodeId, nd: Node, d: Conn, k: QueryId, target: NodeId, q: QueryId)
    requires k != q
    ensures var (nd', out) := HandleQuery(n, nd, d, k, target);
            && nd'.conns == nd.conns && nd'.pending == nd.pending && nd'.checks == nd.checks
            && (q in nd'.queries ==> q in nd.queries && nd'.queries[q] == nd.queries[q])
            && forall m :: m in out ==> !m.body.Hello? && m.body.query == k
  {
  }

  lemma OtherAskKept(s: State, m: Msg, x: Setting, seen: set<Conn>)
    requires Together(s, Deliver(m), x) && Kept(s, x, seen) && m.body.Ask? && m.body.query != x.q
    ensures Kept(Step(s, Deliver(m)), x, seen) && Uses(s, Step(s, Deliver(m)))
  {
    var n := m.to.Node();
    var (nd', out) := HandleQuery(n, s.nodes[n], m.to, m.body.query, m.body.target);
    HandlesOther(n, s.nodes[n], m.to, m.body.query, m.body.target, x.q);
    if x.q in s.nodes[n].queries {
      assert HeldOk(x, n, s.nodes[n].queries[x.q], seen);
    }
    ChangesKept(s, Step(s, Deliver(m)), n, nd', out, x, seen, seen);
  }

  /** The query arrives over a link that is in use. */
  lemma ArrivesInUse(s: State, m: Msg, x: Setting)
    requires Inv(s) && Enabled(s, Deliver(m)) && AskOk(s, x, m.to) && OnlyCheck(s, x.c)
    ensures m.to !in s.nodes[m.to.Node()].pending && m.to.link in ActiveLinks(s)
  {
    var d := m.to;
    var n, u := d.Node(), d.Peer().Node();
    assert NodeOk(s, n, s.nodes[n]) && NodeOk(s, u, s.nodes[u]);
    assert d == Conn(d.link, d.up) && d.Peer() == Conn(d.link, !d.up);
    assert x.c !in s.nodes[n].pending || d != x.c;
  }

  /** The node where it arrives has not got it before, and is not checking. */
  lemma NotSeen(s: State, m: Msg, x: Setting, seen: set<Conn>)
    requires Inv(s) && Enabled(s, Deliver(m)) && OnlyCheck(s, x.c) && Kept(s, x, seen) && Forest(x.E)
    requires m.body.Ask? && m.body.query == x.q && m.to !in seen && m.to.link in x.E
    ensures m.to.Node() != x.c.Node() && !s.nodes[m.to.Node()].checking && x.q !in s.nodes[m.to.Node()].queries
  {
    var n := m.to.Node();
    assert MsgFine(s, x, m) && AskOk(s, x, m.to);
    NeverBackAtStart(x.E, x.c.Node(), m.to);
    if x.q in s.nodes[n].queries {
      var Q := s.nodes[n].queries[x.q];
      assert HeldOk(x, n, Q, seen);
      OneWay(x.E, x.c.Node(), Q.origin.source, m.to);
    }
  }

  /** It is passed on over other connections that the node uses. */
  lemma PassedOn(s: State, x: Setting, d: Conn, out: Conn)
    requires Forest(x.E) && d.link in x.E && From(x.E, x.c.Node(), d) && d.Node() in s.nodes
    requires d.Node() != x.c.Peer().Node() && out in s.nodes[d.Node()].ActiveNodeConns() - {d} && out.Node() == d.Node()
    ensures AskOk(s, x, out.Peer())
  {
    assert out.Peer().Peer() == out;
    FromOnward(x.E, x.c.Node(), d, out);
  }

  ghost predicate Handles(s: State, x: Setting, d: Conn, nd': Node, out: set<Msg>, seen: set<Conn>) {
    && (forall m :: m in out ==> MsgFine(s, x, m))
    && (x.q in nd'.queries ==> HeldOk(x, d.Node(), nd'.queries[x.q], seen + {d}))
  }

  /** Its target says "found". */
  lemma TargetHandles(s: State, x: Setting, d: Conn, nd: Node, seen: set<Conn>)
    requires d.link in x.E && From(x.E, x.c.Node(), d) && d.Node() == x.c.Peer().Node()
    requires d !in nd.pending && x.q !in nd.queries
    ensures var (nd', out) := HandleQuery(d.Node(), nd, d, x.q, d.Node()); Handles(s, x, d, nd', out, seen)
  {
    Reaches(x.E, x.c.Node(), d);
  }

  /** Every other node passes it on, or has nobody to ask. */
  lemma OtherHandles(s: State, x: Setting, d: Conn, nd: Node, seen: set<Conn>)
    requires d.link in x.E && From(x.E, x.c.Node(), d) && d.Node() != x.c.Peer().Node()
    requires d !in nd.pending && !nd.checking && x.q !in nd.queries
    requires forall out :: out in nd.ActiveNodeConns() - {d} ==> AskOk(s, x, out.Peer())
    ensures var (nd', out) := HandleQuery(d.Node(), nd, d, x.q, x.c.Peer().Node()); Handles(s, x, d, nd', out, seen)
  {
  }

  lemma AskHandled(s: State, m: Msg, x: Setting, seen: set<Conn>)
    requires Inv(s) && Enabled(s, Deliver(m)) && Kept(s, x, seen) && Forest(x.E)
    requires m.body.Ask? && m.body.query == x.q && m.body.target == x.c.Peer().Node() && m.to.link in x.E
    requires var nd := s.nodes[m.to.Node()]; m.to !in nd.pending && !nd.checking && x.q !in nd.queries
    ensures var (nd', out) := HandleQuery(m.to.Node(), s.nodes[m.to.Node()], m.to, x.q, m.body.target);
            Handles(s, x, m.to, nd', out, seen)
  {
    var n, nd := m.to.Node(), s.nodes[m.to.Node()];
    assert MsgFine(s, x, m) && AskOk(s, x, m.to) && NodeOk(s, n, nd);
    if n == m.body.target {
      TargetHandles(s, x, m.to, nd, seen);
    } else {
      forall out | out in nd.ActiveNodeConns() - {m.to} ensures AskOk(s, x, out.Peer()) {
        PassedOn(s, x, m.to, out);
      }
      OtherHandles(s, x, m.to, nd, seen);
    }
  }

  lemma AskKept(s: State, m: Msg, x: Setting, seen: set<Conn>)
    requires Together(s, Deliver(m), x) && Kept(s, x, seen) && Forest(x.E) && ActiveLinks(s) <= x.E
    requires m.body.Ask? && m.body.query == x.q && m.to !in seen
    ensures Kept(Step(s, Deliver(m)), x, seen + {m.to}) && Uses(s, Step(s, Deliver(m)))
  {
    var n := m.to.Node();
    assert MsgFine(s, x, m) && MsgOk(s, m);
    ArrivesInUse(s, m, x);
    NotSeen(s, m, x, seen);
    AskHandled(s, m, x, seen);
    var (nd', out) := HandleQuery(n, s.nodes[n], m.to, x.q, m.body.target);
    ChangesKept(s, Step(s, Deliver(m)), n, nd', out, x, seen, seen + {m.to});
  }

  // --- results ------------------------------------------------------------------------------------

  lemma OtherEnds(s: State, n: NodeId, k: QueryId, r: Result, s': State, x: Setting, seen: set<Conn>)
    requires Inv(s) && Kept(s, x, seen) && n in s.nodes && k in s.nodes[n].queries && k != x.q
    requires var (nd', out) := Conclude(s.nodes[n], k, r); s' == Put(s, n, nd', out) && Shrinks(s, s')
    ensures Kept(s', x, seen) && Uses(s, s')
  {
    var (nd', out) := Conclude(s.nodes[n], k, r);
    assert NodeOk(s, n, s.nodes[n]) && QueryOk(s, n, s.nodes[n], k, s.nodes[n].queries[k]);
    if x.q in s.nodes[n].queries {
      assert HeldOk(x, n, s.nodes[n].queries[x.q], seen);
    }
    ChangesKept(s, s', n, nd', out, x, seen, seen);
  }

  lemma ForwardEnds(s: State, n: NodeId, s': State, x: Setting, seen: set<Conn>)
    requires Inv(s) && Kept(s, x, seen) && n in s.nodes && x.q in s.nodes[n].queries
    requires s.nodes[n].queries[x.q].origin.Forward? && s.nodes[n].queries[x.q].result.Some?
    requires var (nd', out) := Conclude(s.nodes[n], x.q, s.nodes[n].queries[x.q].result.value);
             s' == Put(s, n, nd', out) && Shrinks(s, s')
    ensures Kept(s', x, seen) && Uses(s, s')
  {
    assert HeldOk(x, n, s.nodes[n].queries[x.q], seen);
    var (nd', out) := Conclude(s.nodes[n], x.q, s.nodes[n].queries[x.q].result.value);
    ChangesKept(s, s', n, nd', out, x, seen, seen);
  }

  lemma OwnEnds(s: State, n: NodeId, s': State, x: Setting, seen: set<Conn>)
    requires Inv(s) && Kept(s, x, seen) && n in s.nodes && x.q in s.nodes[n].queries
    requires s.nodes[n].queries[x.q].origin.Own? && s.nodes[n].queries[x.q].result.Some?
    requires var (nd', out) := Conclude(s.nodes[n], x.q, s.nodes[n].queries[x.q].result.value);
             s' == Put(s, n, nd', out) && Shrinks(s, s')
    ensures Kept(s', x, seen) && Uses(s, s')
  {
    var nd, Q := s.nodes[n], s.nodes[n].queries[x.q];
    var r := Q.result.value;
    assert HeldOk(x, n, Q, seen) && NodeOk(s, n, nd) && QueryOk(s, n, nd, x.q, Q);
    OwnIsTold(s, n, nd, x.q, r, Q.origin.conn);
    assert Q.origin.conn == x.c;
    var (nd', out) := Conclude(nd, x.q, r);
    ChangesSent(s, s', n, nd', out, x);
    SeenMore(s, s', n, nd', out, x, seen, seen);
    if r.NotFound? {
      ConcludedCut(s, n, nd, x.q);
      if Connected(Earlier(s', x.q), n, x.c.link.b) {
        Monotone(Earlier(s', x.q), Earlier(s, x.q), n, x.c.link.b);
      }
    }
  }

  lemma FinishKept(s: State, n: NodeId, k: QueryId, x: Setting, seen: set<Conn>)
    requires Together(s, Finish(n, k), x) && Kept(s, x, seen)
    ensures Kept(Step(s, Finish(n, k)), x, seen) && Uses(s, Step(s, Finish(n, k)))
  {
    if k != x.q {
      OtherEnds(s, n, k, s.nodes[n].queries[k].result.value, Step(s, Finish(n, k)), x, seen);
    } else if s.nodes[n].queries[k].origin.Forward? {
      ForwardEnds(s, n, Step(s, Finish(n, k)), x, seen);
    } else {
      OwnEnds(s, n, Step(s, Finish(n, k)), x, seen);
    }
  }

  /** The connection on which the event delivers the query, if it does. */
  function Delivered(e: Event, q: QueryId): set<Conn> {
    if e.Deliver? && e.msg.body.Ask? && e.msg.body.query == q then {e.msg.to} else {}
  }

  lemma DeliverKept(s: State, m: Msg, x: Setting, seen: set<Conn>)
    requires Together(s, Deliver(m), x) && Kept(s, x, seen) && Forest(x.E) && ActiveLinks(s) <= x.E
    requires Delivered(Deliver(m), x.q) !! seen
    ensures Kept(Step(s, Deliver(m)), x, seen + Delivered(Deliver(m), x.q)) && Uses(s, Step(s, Deliver(m)))
  {
    assert seen + {} == seen;
    match m.body
    case Hello(_) => HelloKept(s, m, x, seen);
    case Answer(_, _) => AnswerKept(s, m, x, seen);
    case Ask(k, _) =>
      if k == x.q {
        AskKept(s, m, x, seen);
      } else {
        OtherAskKept(s, m, x, seen);
      }
  }

  lemma StepKept(s: State, e: Event, x: Setting, seen: set<Conn>)
    requires Together(s, e, x) && Kept(s, x, seen) && Busy(s, x.c, x.q) && Forest(x.E) && ActiveLinks(s) <= x.E
    requires Delivered(e, x.q) !! seen
    ensures Kept(Step(s, e), x, seen + Delivered(e, x.q)) && Uses(s, Step(s, e))
  {
    NothingElse(s, e, x);
    assert seen + {} == seen;
    if e.Deliver? {
      DeliverKept(s, e.msg, x, seen);
    } else if e.Finish? {
      FinishKept(s, e.node, e.query, x, seen);
    } else if e.Timeout? {
      OtherEnds(s, e.node, e.query, Unknown, Step(s, e), x, seen);
    } else {
      ListsKept(s, e, x, seen);
    }
  }

  // --- the start --------------------------------------------------------------------------------------

  lemma StartAsks(s: State, c: Conn, x: Setting)
    requires Inv(s) && Enabled(s, Start(c)) && x.c == c && x.q == |s.asks|
    ensures forall m :: m in StartAttempt(s.nodes[c.Node()], c, x.q).1 ==> MsgFine(Step(s, Start(c)), x, m)
  {
    var n := c.Node();
    var nd := s.nodes[n];
    assert NodeOk(s, n, nd) && PhaseOk(s, nd, c, nd.checks[c]);
    forall d | d in nd.ActiveNodeConns() ensures AskOk(Step(s, Start(c)), x, d.Peer()) {
      assert d.Peer().Peer() == d && d.Node() == n;
      FromStart(x.E, d);
    }
  }

  lemma StartPhase(s: State, c: Conn, x: Setting)
    requires Inv(s) && Enabled(s, Start(c)) && x.c == c && x.q == |s.asks|
    ensures PhaseNow(Step(s, Start(c)), x)
  {
    var n, s' := c.Node(), Step(s, Start(c));
    var nd := s.nodes[n];
    assert NodeOk(s, n, nd) && PhaseOk(s, nd, c, nd.checks[c]);
    if nd.ActiveNodeConns() == {} {
      StartCovers(s, c);
      AllNotFound(s', n, x.q, Own(c), {});
    }
  }

  lemma StartKept(s: State, c: Conn, x: Setting)
    requires Inv(s) && Enabled(s, Start(c)) && x.c == c && x.q == |s.asks|
    ensures Kept(Step(s, Start(c)), x, {})
  {
    var n, s' := c.Node(), Step(s, Start(c));
    assert NodeOk(s, n, s.nodes[n]);
    StartAsks(s, c, x);
    StartPhase(s, c, x);
    forall m | m in s'.net ensures MsgFine(s', x, m) {
      if m in s.net {
        assert MsgOk(s, m);
      }
    }
    forall k | k in s'.nodes && x.q in s'.nodes[k].queries ensures HeldOk(x, k, s'.nodes[k].queries[x.q], {}) {
      NotYet(s, k);
    }
  }

  lemma NotYet(s: State, k: NodeId)
    requires Inv(s) && k in s.nodes
    ensures |s.asks| !in s.nodes[k].queries
  {
    assert NodeOk(s, k, s.nodes[k]);
  }

  // --- every run ------------------------------------------------------------------------------------------

  /** The connections on which `q` has been delivered since step `i`. */
  function Seen(events: seq<Event>, i: nat, h: nat, q: QueryId): set<Conn>
    requires i <= h <= |events|
    decreases h
  {
    if h == i then {} else Seen(events, i, h - 1, q) + Delivered(events[h - 1], q)
  }

  lemma {:induction false} SeenBefore(events: seq<Event>, i: nat, h: nat, q: QueryId, d: Conn) returns (g: nat)
    requires i <= h <= |events| && d in Seen(events, i, h, q)
    ensures i <= g < h && Delivered(events[g], q) == {d}
    decreases h
  {
    if d in Delivered(events[h - 1], q) {
      g := h - 1;
    } else {
      g := SeenBefore(events, i, h - 1, q, d);
    }
  }

  /** Queries of this name all ask about the same node. */
  lemma SameQuery(s: State, s': State, m: Msg, k: Msg)
    requires MsgOk(s, m) && MsgOk(s', k) && s.asks <= s'.asks && m.to == k.to
    requires m.body.Ask? && k.body.Ask? && m.body.query == k.body.query
    ensures m == k
  {
  }

  lemma DeliveredOk(trace: seq<State>, events: seq<Event>, g: nat)
    requires GuardedRun(trace, events) && g < |events| && events[g].Deliver?
    ensures MsgOk(trace[g], events[g].msg)
  {
    Invariant(trace, events, g);
    assert Enabled(trace[g], events[g]);
  }

  lemma SameDelivery(trace: seq<State>, events: seq<Event>, g: nat, h: nat, q: QueryId, d: Conn)
    requires GuardedRun(trace, events) && g < h < |events|
    requires d in Delivered(events[g], q) && d in Delivered(events[h], q)
    ensures events[g] == events[h]
  {
    DeliveredOk(trace, events, g);
    DeliveredOk(trace, events, h);
    ShrinksForever(trace, events, g, h);
    SameQuery(trace[g], trace[h], events[g].msg, events[h].msg);
  }

  lemma NotTwice(trace: seq<State>, events: seq<Event>, i: nat, h: nat, j: nat, q: QueryId, d: Conn)
    requires GuardedRun(trace, events) && i < h < j <= |events| && Once(events, i, j)
    requires d in Delivered(events[h], q)
    ensures d !in Seen(events, i + 1, h, q)
  {
    if d in Seen(events, i + 1, h, q) {
      var g := SeenBefore(events, i + 1, h, q, d);
      SameDelivery(trace, events, g, h, q, d);
    }
  }

  ghost predicate During(trace: seq<State>, events: seq<Event>, i: nat, j: nat, c: Conn) {
    && GuardedRun(trace, events) && i < j < |trace| && events[i] == Start(c)
    && Undisturbed(trace, events, i, j, c, |trace[i].asks|)
  }

  /** What has been used up to some state, if what follows uses more. */
  lemma NextTogether(trace: seq<State>, events: seq<Event>, i: nat, j: nat, c: Conn, h: nat, x: Setting)
    requires During(trace, events, i, j, c) && i < h < j && x.c == c && x.q == |trace[i].asks|
    ensures Together(trace[h], events[h], x) && trace[h + 1] == Step(trace[h], events[h])
  {
    Invariant(trace, events, h);
    assert Enabled(trace[h], events[h]) && trace[h + 1] == Step(trace[h], events[h]);
    StepKeeps(trace[h], events[h]);
  }

  lemma Begins(trace: seq<State>, events: seq<Event>, i: nat, j: nat, c: Conn, x: Setting)
    requires During(trace, events, i, j, c) && x.c == c && x.q == |trace[i].asks|
    ensures Kept(trace[i + 1], x, {}) && Busy(trace[i + 1], c, x.q)
  {
    Invariant(trace, events, i);
    assert Enabled(trace[i], events[i]) && trace[i + 1] == Step(trace[i], events[i]);
    StartKept(trace[i], c, x);
    KeptIsBusy(trace[i + 1], x);
  }

  lemma KeptIsBusy(s: State, x: Setting)
    requires Kept(s, x, {}) && x.c in s.nodes[x.c.Node()].pending
    ensures Busy(s, x.c, x.q)
  {
  }

  lemma {:induction false} BusyUntil(trace: seq<State>, events: seq<Event>, i: nat, j: nat, c: Conn, h: nat)
    requires During(trace, events, i, j, c) && i < h <= j
    ensures Busy(trace[h], c, |trace[i].asks|)
    decreases h
  {
    if h == i + 1 {
      Begins(trace, events, i, j, c, Setting({}, c, |trace[i].asks|));
    } else {
      BusyUntil(trace, events, i, j, c, h - 1);
      BusyNext(trace, events, i, j, c, h - 1);
    }
  }

  lemma BusyNext(trace: seq<State>, events: seq<Event>, i: nat, j: nat, c: Conn, h: nat)
    requires During(trace, events, i, j, c) && i < h < j && Busy(trace[h], c, |trace[i].asks|)
    ensures Busy(trace[h + 1], c, |trace[i].asks|) && Uses(trace[h], trace[h + 1])
  {
    var x := Setting({}, c, |trace[i].asks|);
    NextTogether(trace, events, i, j, c, h, x);
    StepBusy(trace[h], events[h], x);
  }

  lemma {:induction false} ActiveUntil(trace: seq<State>, events: seq<Event>, i: nat, j: nat, c: Conn, h: nat)
    requires During(trace, events, i, j, c) && i < h <= j
    ensures ActiveLinks(trace[h]) <= ActiveLinks(trace[j])
    decreases j - h
  {
    if h < j {
      BusyUntil(trace, events, i, j, c, h);
      BusyNext(trace, events, i, j, c, h);
      UsesActive(trace[h], trace[h + 1]);
      ActiveUntil(trace, events, i, j, c, h + 1);
    }
  }

  ghost predicate KeptAt(trace: seq<State>, events: seq<Event>, i: nat, j: nat, c: Conn, h: nat)
    requires i < h <= j < |trace| && |trace| == |events| + 1
  {
    var q := |trace[i].asks|;
    Kept(trace[h], Setting(ActiveLinks(trace[j]), c, q), Seen(events, i + 1, h, q))
  }

  lemma KeptFirst(trace: seq<State>, events: seq<Event>, i: nat, j: nat, c: Conn)
    requires During(trace, events, i, j, c)
    ensures KeptAt(trace, events, i, j, c, i + 1)
  {
    Begins(trace, events, i, j, c, Setting(ActiveLinks(trace[j]), c, |trace[i].asks|));
  }

  lemma KeptNext(trace: seq<State>, events: seq<Event>, i: nat, j: nat, c: Conn, h: nat)
    requires During(trace, events, i, j, c) && i < h < j && KeptAt(trace, events, i, j, c, h)
    ensures KeptAt(trace, events, i, j, c, h + 1)
  {
    var x := Setting(ActiveLinks(trace[j]), c, |trace[i].asks|);
    NextTogether(trace, events, i, j, c, h, x);
    BusyUntil(trace, events, i, j, c, h);
    ActiveUntil(trace, events, i, j, c, h);
    ActiveLinksFormForest(trace, events, j);
    forall d | d in Delivered(events[h], x.q) ensures d !in Seen(events, i + 1, h, x.q) {
      NotTwice(trace, events, i, h, j, x.q, d);
    }
    StepKept(trace[h], events[h], x, Seen(events, i + 1, h, x.q));
  }

  ghost predicate GoesOn(trace: seq<State>, events: seq<Event>, i: nat, j: nat, c: Conn)
    requires i < j < |trace| && |trace| == |events| + 1
  {
    forall h: nat :: i < h < j && KeptAt(trace, events, i, j, c, h) ==> KeptAt(trace, events, i, j, c, h + 1)
  }

  lemma AllGoesOn(trace: seq<State>, events: seq<Event>, i: nat, j: nat, c: Conn)
    requires During(trace, events, i, j, c)
    ensures GoesOn(trace, events, i, j, c)
  {
    forall h: nat | i < h < j && KeptAt(trace, events, i, j, c, h) ensures KeptAt(trace, events, i, j, c, h + 1) {
      KeptNext(trace, events, i, j, c, h);
    }
  }

  lemma {:induction false} KeptUntil(trace: seq<State>, events: seq<Event>, i: nat, j: nat, c: Conn, h: nat)
    requires i < h <= j < |trace| && |trace| == |events| + 1
    requires KeptAt(trace, events, i, j, c, i + 1) && GoesOn(trace, events, i, j, c)
    ensures KeptAt(trace, events, i, j, c, h)
    decreases h
  {
    if h > i + 1 {
      KeptUntil(trace, events, i, j, c, h - 1);
      assert KeptAt(trace, events, i, j, c, h - 1 + 1);
    }
  }

  /** Every link in use was asked about before. */
  lemma ActiveIsEarlier(s: State, c: Conn, q: QueryId)
    requires Inv(s) && |s.asks| == q + 1 && s.asks[q] == c.link && c.up
    requires c.Node() in s.nodes && c in s.nodes[c.Node()].pending
    ensures ActiveLinks(s) <= Earlier(s, q)
  {
    assert Conn(c.link, true) == c;
    forall l | l in ActiveLinks(s) ensures l in Earlier(s, q) {
      OneEarlier(s, q, l);
    }
  }

  lemma OneEarlier(s: State, q: QueryId, l: Link)
    requires LinkOk(s, l) && |s.asks| == q + 1 && l in ActiveLinks(s) && s.asks[q] != l
    ensures l in Earlier(s, q)
  {
    assert InPlay(s, l);
  }

  /** However the messages of a check travel: if no other check is going on, and nothing is lost,
      closed, timed out or delivered twice, its result is "found" if the links in use join the
      two nodes and "not found" if they do not, and never unknown. */
  lemma CheckIsRight(trace: seq<State>, events: seq<Event>, i: nat, j: nat, c: Conn)
    requires GuardedRun(trace, events) && i < j < |trace| && events[i] == Start(c)
    requires Undisturbed(trace, events, i, j, c, |trace[i].asks|)
    requires c.Node() in trace[j].nodes && c in trace[j].nodes[c.Node()].checks
    requires trace[j].nodes[c.Node()].checks[c].Decided?
    ensures trace[j].nodes[c.Node()].checks[c].result
            == if Connected(ActiveLinks(trace[j]), c.Node(), c.Peer().Node()) then Found else NotFound
  {
    var q, a, b := |trace[i].asks|, c.Node(), c.Peer().Node();
    KeptFirst(trace, events, i, j, c);
    AllGoesOn(trace, events, i, j, c);
    KeptUntil(trace, events, i, j, c, j);
    BusyUntil(trace, events, i, j, c, j);
    Invariant(trace, events, j);
    ActiveIsEarlier(trace[j], c, q);
    if Connected(ActiveLinks(trace[j]), a, b) {
      Monotone(ActiveLinks(trace[j]), Earlier(trace[j], q), a, b);
    }
  }
}
