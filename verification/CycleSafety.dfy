/** Why the cycle check is safe: whatever is accepted, the active links stay a forest. */
module CycleSafety {
  import opened Graphs
  import opened Links
  import opened CycleCheck
  import opened Results

  // --- what an answer certifies -----------------------------------------------

  /** The establisher has accepted the connection, or is asking about it, or has just been
      told that it may accept it. */
  ghost predicate Going(nd: Node, c: Conn) {
    || c !in nd.pending
    || (c in nd.checks && (nd.checks[c].Asking? || (nd.checks[c].Decided? && nd.checks[c].result.NotFound?)))
  }

  ghost predicate InPlay(s: State, l: Link) {
    && l.a in s.nodes && l.b in s.nodes
    && Conn(l, true) in s.nodes[l.a].conns && Conn(l, false) in s.nodes[l.b].conns
    && Going(s.nodes[l.a], Conn(l, true))
  }

  /** The links in play whose latest attempt started before query `q` did. */
  ghost function Earlier(s: State, q: nat): set<Link> {
    set l | l in s.stamp && s.stamp[l] < q && InPlay(s, l)
  }

  /** What a "not found" that arrives on `c` for query `q` promises, now and for good: going
      over `c`, the target of `q` cannot be reached through earlier links. */
  ghost predicate Certificate(s: State, q: QueryId, c: Conn)
    requires q < |s.asks|
  {
    c.link in Earlier(s, q) ==> !Connected(Earlier(s, q) - {c.link}, c.Peer().Node(), s.asks[q].b)
  }

  // --- the invariant ----------------------------------------------------------

  ghost predicate PhaseOk(s: State, nd: Node, c: Conn, p: Phase) {
    match p
    case Ready(_, peer) => peer == c.link.b != c.link.a
    case Asking(_, peer, q) =>
      && peer == c.link.b != c.link.a
      && q < |s.asks| && s.asks[q] == c.link && c.link in s.stamp && s.stamp[c.link] == q
      && (c in nd.pending ==> q in nd.queries && nd.queries[q].origin == Own(c))
    case Decided(_, peer, q, _) =>
      && peer == c.link.b != c.link.a
      && q < |s.asks| && s.asks[q] == c.link && c.link in s.stamp && s.stamp[c.link] == q
    case _ => true
  }

  /** Every earlier link at node `n` is asked, except the one the query came from. */
  ghost predicate Covers(s: State, n: NodeId, q: QueryId, origin: Origin, targets: set<Conn>) {
    forall c: Conn :: c.Node() == n && c.link in Earlier(s, q) && origin != Forward(c) ==> c in targets
  }

  ghost predicate QueryOk(s: State, n: NodeId, nd: Node, q: QueryId, Q: Query) {
    && q < |s.asks| && Q.target == s.asks[q].b
    && (forall c :: c in Q.targets ==> c.Node() == n)
    && (match Q.origin
        case Own(c) => c.link == s.asks[q] && c.Node() == n && n != Q.target
                       && c in nd.checks && nd.checks[c].Asking? && nd.checks[c].query == q
        case Forward(source) => source.Node() == n && n != Q.target)
    && (Q.result == Some(NotFound) ==> !Q.sawUnknown && Q.waiting == {})
    && (!Q.sawUnknown && Q.result != Some(Found) ==>
          forall c :: c in Q.targets && c !in Q.waiting ==> Certificate(s, q, c))
    && Covers(s, n, q, Q.origin, Q.targets)
  }

  ghost predicate ConnsOk(s: State, n: NodeId, nd: Node) {
    && (forall c :: c in nd.conns ==> c.Node() == n && c.link in s.made && (!c.up ==> c.link in s.arrived))
    && (forall c :: c in nd.pending ==> c in nd.conns && c.up && c in nd.checks && !nd.checks[c].Accepted?)
    && (forall c :: c in nd.peers ==>
          c in nd.conns && nd.peers[c] == c.Peer().Node() && (c.up ==> c.link in s.arrived))
    && (forall c :: c in nd.conns && c.up && c !in nd.peers ==>
          c in nd.pending && (nd.checks[c].Waiting? || nd.checks[c].Greeting?))
  }

  ghost predicate ChecksOk(s: State, n: NodeId, nd: Node) {
    && (forall c :: c in nd.checks ==>
          c.up && c.Node() == n && c.link in s.made && PhaseOk(s, nd, c, nd.checks[c]))
    && (forall c, d :: c in nd.checks && d in nd.checks && !nd.checks[c].Waiting? && !nd.checks[d].Waiting? ==> c == d)
    && (nd.locked <==> exists c :: c in nd.checks && !nd.checks[c].Waiting?)
    && (nd.checking <==> exists c :: c in nd.checks && nd.checks[c].Asking?)
  }

  ghost predicate NodeOk(s: State, n: NodeId, nd: Node) {
    && ConnsOk(s, n, nd)
    && ChecksOk(s, n, nd)
    && forall q :: q in nd.queries ==> QueryOk(s, n, nd, q, nd.queries[q])
  }

  ghost predicate MsgOk(s: State, m: Msg) {
    match m.body
    case Hello(id) => id == m.to.Peer().Node() && (m.to.up ==> m.to.link in s.arrived)
    case Ask(q, target) => q < |s.asks| && target == s.asks[q].b
    case Answer(q, r) => q < |s.asks| && (r.NotFound? ==> Certificate(s, q, m.to))
  }

  ghost predicate Asked(nd: Node, c: Conn) {
    c in nd.pending && c in nd.checks && nd.checks[c].Asking?
  }

  /** A link in play was asked about, is known at both ends, and, once its query has answered
      "not found", joins two separate trees of the links asked about before it. */
  ghost predicate LinkOk(s: State, l: Link) {
    InPlay(s, l) ==>
      && l.a != l.b
      && l in s.stamp && s.stamp[l] < |s.asks| && s.asks[s.stamp[l]] == l
      && Conn(l, true) in s.nodes[l.a].peers && Conn(l, false) in s.nodes[l.b].peers
      && (!Asked(s.nodes[l.a], Conn(l, true)) ==> !Connected(Earlier(s, s.stamp[l]), l.a, l.b))
  }

  ghost predicate Inv(s: State) {
    && s.arrived <= s.made
    && (forall n :: n in s.nodes ==> NodeOk(s, n, s.nodes[n]))
    && (forall m :: m in s.net ==> MsgOk(s, m))
    && (forall l :: LinkOk(s, l))
  }

  // --- certificates are stable ---------------------------------------------------

  /** No link that was not in play before becomes earlier than a query already asked. */
  ghost predicate Shrinks(s: State, s': State) {
    && s.asks <= s'.asks && s.arrived <= s'.arrived && s.made <= s'.made
    && forall q: nat :: q <= |s.asks| ==> Earlier(s', q) <= Earlier(s, q)
  }

  lemma CertificateKept(s: State, s': State, q: QueryId, c: Conn)
    requires Shrinks(s, s') && q < |s.asks| && Certificate(s, q, c)
    ensures Certificate(s', q, c)
  {
    if c.link in Earlier(s', q) && Connected(Earlier(s', q) - {c.link}, c.Peer().Node(), s'.asks[q].b) {
      Monotone(Earlier(s', q) - {c.link}, Earlier(s, q) - {c.link}, c.Peer().Node(), s.asks[q].b);
    }
  }

  lemma QueryKept(s: State, s': State, n: NodeId, nd: Node, nd': Node, q: QueryId, Q: Query)
    requires Shrinks(s, s') && QueryOk(s, n, nd, q, Q)
    requires Q.origin.Own? ==> nd'.checks == nd.checks
    ensures QueryOk(s', n, nd', q, Q)
  {
    if !Q.sawUnknown && Q.result != Some(Found) {
      forall c | c in Q.targets && c !in Q.waiting ensures Certificate(s', q, c) {
        CertificateKept(s, s', q, c);
      }
    }
    assert Covers(s, n, q, Q.origin, Q.targets);
    assert Earlier(s', q) <= Earlier(s, q);
  }

  lemma MsgKept(s: State, s': State, m: Msg)
    requires Shrinks(s, s') && MsgOk(s, m)
    ensures MsgOk(s', m)
  {
    if m.body.Answer? && m.body.result.NotFound? {
      CertificateKept(s, s', m.body.query, m.to);
    }
  }

  lemma NodeKept(s: State, s': State, n: NodeId, nd: Node)
    requires Shrinks(s, s') && NodeOk(s, n, nd)
    requires forall l :: l in s.stamp && l.a == n ==> l in s'.stamp && s'.stamp[l] == s.stamp[l]
    ensures NodeOk(s', n, nd)
  {
    forall q | q in nd.queries ensures QueryOk(s', n, nd, q, nd.queries[q]) {
      QueryKept(s, s', n, nd, nd, q, nd.queries[q]);
    }
    forall c | c in nd.checks ensures PhaseOk(s', nd, c, nd.checks[c]) {
      assert PhaseOk(s, nd, c, nd.checks[c]);
    }
  }

  // --- steps that put no new link in play --------------------------------------------

  /** If `l` is in play after the step it was before, and it was not freed from its query
      without an answer that allows it. */
  ghost predicate StaysOk(s: State, s': State, l: Link) {
    InPlay(s', l) ==>
      && InPlay(s, l)
      && Conn(l, true) in s'.nodes[l.a].peers && Conn(l, false) in s'.nodes[l.b].peers
      && (Asked(s.nodes[l.a], Conn(l, true)) && l in s.stamp ==>
            Asked(s'.nodes[l.a], Conn(l, true)) || !Connected(Earlier(s, s.stamp[l]), l.a, l.b))
  }

  ghost predicate SameHistory(s: State, s': State, n: NodeId) {
    && n in s.nodes && n in s'.nodes && s'.nodes == s.nodes[n := s'.nodes[n]]
    && s'.asks == s.asks && s'.stamp == s.stamp
    && s.arrived <= s'.arrived <= s'.made && s.made <= s'.made
  }

  lemma StaysShrinks(s: State, s': State, n: NodeId)
    requires SameHistory(s, s', n) && forall l :: StaysOk(s, s', l)
    ensures Shrinks(s, s')
  {
    forall q: nat | q <= |s.asks| ensures Earlier(s', q) <= Earlier(s, q) {
      forall l | l in Earlier(s', q) ensures l in Earlier(s, q) {
        assert StaysOk(s, s', l);
      }
    }
  }

  lemma QuietStep(s: State, s': State, n: NodeId)
    requires Inv(s) && SameHistory(s, s', n)
    requires forall l :: StaysOk(s, s', l)
    requires NodeOk(s', n, s'.nodes[n])
    requires forall m :: m in s'.net ==> m in s.net || MsgOk(s', m)
    ensures Inv(s') && Shrinks(s, s')
  {
    StaysShrinks(s, s', n);
    forall m | m in s'.nodes ensures NodeOk(s', m, s'.nodes[m]) {
      if m != n {
        NodeKept(s, s', m, s.nodes[m]);
      }
    }
    forall m | m in s'.net ensures MsgOk(s', m) {
      if m in s.net {
        MsgKept(s, s', m);
      }
    }
    forall l ensures LinkOk(s', l) {
      assert StaysOk(s, s', l) && LinkOk(s, l);
      if InPlay(s', l) && Connected(Earlier(s', s.stamp[l]), l.a, l.b) {
        Monotone(Earlier(s', s.stamp[l]), Earlier(s, s.stamp[l]), l.a, l.b);
      }
    }
  }

  /** Node `n` gets no connection but pending ones, frees none, and keeps what it knows. */
  ghost predicate Quiet(nd: Node, nd': Node) {
    && (forall c :: c in nd'.conns && c !in nd.conns ==> c.up && !Going(nd', c))
    && (forall c :: c in nd'.conns && c in nd.conns && c.up && Going(nd', c) ==>
          Going(nd, c) && (Asked(nd, c) ==> Asked(nd', c)))
    && (forall c :: c in nd'.conns && c in nd.peers ==> c in nd'.peers)
  }

  lemma QuietStays(s: State, s': State, n: NodeId)
    requires Inv(s) && SameHistory(s, s', n) && Quiet(s.nodes[n], s'.nodes[n])
    ensures forall l :: StaysOk(s, s', l)
    ensures Shrinks(s, s')
  {
    forall l ensures StaysOk(s, s', l) {
      assert LinkOk(s, l);
    }
    StaysShrinks(s, s', n);
  }

  /** A node changes to `nd'` and sends `out`, and nothing else happens. */
  lemma StaysPut(s: State, n: NodeId, nd': Node, out: set<Msg>)
    requires Inv(s) && n in s.nodes && NodeOk(s, n, nd')
    requires forall l :: StaysOk(s, Put(s, n, nd', out), l)
    requires forall m :: m in out ==> MsgOk(s, m)
    ensures Inv(Put(s, n, nd', out)) && Shrinks(s, Put(s, n, nd', out))
  {
    var s' := Put(s, n, nd', out);
    StaysShrinks(s, s', n);
    NodeKept(s, s', n, nd');
    forall m | m in out ensures MsgOk(s', m) {
      MsgKept(s, s', m);
    }
    QuietStep(s, s', n);
  }

  lemma QuietPut(s: State, n: NodeId, nd': Node, out: set<Msg>)
    requires Inv(s) && n in s.nodes && NodeOk(s, n, nd') && Quiet(s.nodes[n], nd')
    requires forall m :: m in out ==> MsgOk(s, m)
    ensures Inv(Put(s, n, nd', out)) && Shrinks(s, Put(s, n, nd', out))
  {
    QuietStays(s, Put(s, n, nd', out), n);
    StaysPut(s, n, nd', out);
  }

  // --- one lemma per event -------------------------------------------------------------

  lemma EstablishKeeps(s: State, l: Link)
    requires Inv(s) && Enabled(s, Establish(l))
    ensures Inv(Step(s, Establish(l))) && Shrinks(s, Step(s, Establish(l)))
  {
    var n, s' := l.a, Step(s, Establish(l));
    QuietStays(s, s', n);
    NodeKept(s, s', n, s.nodes[n]);
    WithPending(s', n, s.nodes[n], Conn(l, true));
    QuietStep(s, s', n);
  }

  ghost function Waits(nd: Node, c: Conn): Node {
    nd.(conns := nd.conns + {c}, pending := nd.pending + {c}, checks := nd.checks[c := Waiting])
  }

  lemma WaitsChecks(s: State, n: NodeId, nd: Node, c: Conn)
    requires ChecksOk(s, n, nd) && c.up && c.Node() == n && c.link in s.made && c !in nd.checks
    ensures ChecksOk(s, n, Waits(nd, c))
  {
    var nd' := Waits(nd, c);
    forall d | d in nd'.checks ensures PhaseOk(s, nd', d, nd'.checks[d]) {
      assert d in nd.checks ==> PhaseOk(s, nd, d, nd.checks[d]);
    }
    assert forall d :: d in nd.checks ==> nd'.checks[d] == nd.checks[d];
  }

  lemma WaitsQuery(s: State, n: NodeId, nd: Node, c: Conn, q: QueryId, Q: Query)
    requires QueryOk(s, n, nd, q, Q) && c !in nd.checks
    ensures QueryOk(s, n, Waits(nd, c), q, Q)
  {
  }

  lemma WithPending(s: State, n: NodeId, nd: Node, c: Conn)
    requires NodeOk(s, n, nd) && c.up && c.Node() == n && c.link in s.made
    requires c !in nd.conns && c !in nd.checks
    ensures NodeOk(s, n, Waits(nd, c))
  {
    WaitsChecks(s, n, nd, c);
    forall q | q in nd.queries ensures QueryOk(s, n, Waits(nd, c), q, nd.queries[q]) {
      WaitsQuery(s, n, nd, c, q, nd.queries[q]);
    }
  }

  lemma ArriveStays(s: State, l: Link)
    requires Inv(s) && Enabled(s, Arrive(l))
    ensures forall k :: StaysOk(s, Step(s, Arrive(l)), k)
  {
    forall k ensures StaysOk(s, Step(s, Arrive(l)), k) {
      assert LinkOk(s, k);
    }
  }

  lemma ArriveKeeps(s: State, l: Link)
    requires Inv(s) && Enabled(s, Arrive(l))
    ensures Inv(Step(s, Arrive(l))) && Shrinks(s, Step(s, Arrive(l)))
  {
    var n, s' := l.b, Step(s, Arrive(l));
    ArriveStays(s, l);
    StaysShrinks(s, s', n);
    NodeKept(s, s', n, s.nodes[n]);
    ArrivedIsFine(s', n, s.nodes[n], Conn(l, false));
    QuietStep(s, s', n);
  }

  lemma ArrivedIsFine(s: State, n: NodeId, nd: Node, c: Conn)
    requires NodeOk(s, n, nd) && c.Node() == n && !c.up && c.link in s.made && c.link in s.arrived
    ensures NodeOk(s, n, nd.(conns := nd.conns + {c}))
  {
    var nd' := nd.(conns := nd.conns + {c});
    forall q | q in nd'.queries ensures QueryOk(s, n, nd', q, nd'.queries[q]) {
      assert QueryOk(s, n, nd, q, nd.queries[q]);
    }
    forall d | d in nd'.checks ensures PhaseOk(s, nd', d, nd'.checks[d]) {
      assert PhaseOk(s, nd, d, nd.checks[d]);
    }
  }

  lemma CheckStepKeeps(s: State, n: NodeId, nd': Node)
    requires Inv(s) && n in s.nodes
    requires var nd := s.nodes[n];
             && nd' == nd.(checks := nd'.checks, locked := nd'.locked, pending := nd'.pending)
             && Quiet(nd, nd')
             && ConnsOk(s, n, nd') && ChecksOk(s, n, nd')
             && (forall c :: c in nd.checks && nd.checks[c].Asking? ==>
                   c in nd'.checks && nd'.checks[c] == nd.checks[c])
    ensures Inv(Put(s, n, nd', {})) && Shrinks(s, Put(s, n, nd', {}))
  {
    var s' := Put(s, n, nd', {});
    var nd := s.nodes[n];
    QuietStays(s, s', n);
    forall q | q in nd'.queries ensures QueryOk(s', n, nd', q, nd'.queries[q]) {
      assert QueryOk(s, n, nd', q, nd.queries[q]);
      QueryKept(s, s', n, nd', nd', q, nd.queries[q]);
    }
    forall c | c in nd'.checks ensures PhaseOk(s', nd', c, nd'.checks[c]) {
      assert PhaseOk(s, nd', c, nd'.checks[c]);
    }
    QuietStep(s, s', n);
  }

  lemma AcquireKeeps(s: State, c: Conn)
    requires Inv(s) && Enabled(s, Acquire(c))
    ensures Inv(Step(s, Acquire(c))) && Shrinks(s, Step(s, Acquire(c)))
  {
    var n := c.Node();
    var nd, nd' := s.nodes[n], Step(s, Acquire(c)).nodes[n];
    forall d | d in nd'.checks ensures PhaseOk(s, nd', d, nd'.checks[d]) {
      assert PhaseOk(s, nd, d, nd.checks[d]);
    }
    assert nd'.checks[c].Greeting?;
    assert forall d :: d in nd.checks && d != c ==> nd'.checks[d] == nd.checks[d];
    CheckStepKeeps(s, n, nd');
  }

  lemma ReleaseKeeps(s: State, c: Conn)
    requires Inv(s) && Enabled(s, Release(c))
    ensures Inv(Step(s, Release(c))) && Shrinks(s, Step(s, Release(c)))
  {
    var n := c.Node();
    var nd, nd' := s.nodes[n], Step(s, Release(c)).nodes[n];
    forall d | d in nd'.checks ensures PhaseOk(s, nd', d, nd'.checks[d]) {
      assert PhaseOk(s, nd, d, nd.checks[d]);
    }
    assert nd.checks[c].Accepted?;
    CheckStepKeeps(s, n, nd');
  }

  /** What is left of a node that forgot `c`, with its checks and lock updated. */
  ghost predicate Forgot(nd: Node, nd': Node, c: Conn) {
    && nd' == nd.Forget(c).(checks := nd'.checks, locked := nd'.locked)
    && nd'.checks.Keys <= nd.checks.Keys
    && (forall d :: d in nd'.checks ==> nd'.checks[d] == nd.checks[d])
    && (forall d :: d in nd.checks && (nd.checks[d].Asking? || d != c) ==> d in nd'.checks)
  }

  lemma ForgetIsQuiet(s: State, n: NodeId, nd': Node, c: Conn)
    requires Inv(s) && n in s.nodes && Forgot(s.nodes[n], nd', c)
    ensures Quiet(s.nodes[n], nd') && ConnsOk(s, n, nd')
  {
    assert ConnsOk(s, n, s.nodes[n]);
  }

  /** Losing a connection answers "not found" on it for every query, truthfully: the link is
      out of play. */
  lemma ForgetQueries(s: State, s': State, n: NodeId, c: Conn)
    requires Inv(s) && n in s.nodes && c.Node() == n && SameHistory(s, s', n) && Shrinks(s, s')
    requires Forgot(s.nodes[n], s'.nodes[n], c)
    ensures forall q :: q in s'.nodes[n].queries ==> QueryOk(s', n, s'.nodes[n], q, s'.nodes[n].queries[q])
  {
    var nd, nd' := s.nodes[n], s'.nodes[n];
    assert !InPlay(s', c.link);
    forall q | q in nd'.queries ensures QueryOk(s', n, nd', q, nd'.queries[q]) {
      var Q := nd.queries[q];
      assert QueryOk(s, n, nd, q, Q);
      assert QueryOk(s, n, nd', q, Q);
      QueryKept(s, s', n, nd', nd', q, Q);
      assert Certificate(s', q, c);
      ReplyKeeps(s', n, nd', q, Q, c, NotFound);
    }
  }

  lemma ForgetKeeps(s: State, n: NodeId, nd': Node, c: Conn)
    requires Inv(s) && n in s.nodes && c.Node() == n && Forgot(s.nodes[n], nd', c) && ChecksOk(s, n, nd')
    ensures Inv(Put(s, n, nd', {})) && Shrinks(s, Put(s, n, nd', {}))
  {
    var s' := Put(s, n, nd', {});
    ForgetIsQuiet(s, n, nd', c);
    QuietStays(s, s', n);
    ForgetQueries(s, s', n, c);
    SameChecks(s, s', n, nd', nd');
    QuietStep(s, s', n);
  }

  lemma SameChecks(s: State, s': State, n: NodeId, nd: Node, nd': Node)
    requires ChecksOk(s, n, nd)
    requires s'.asks == s.asks && s'.stamp == s.stamp && s.made <= s'.made
    requires nd'.checks == nd.checks && nd'.locked == nd.locked && nd'.checking == nd.checking
    requires forall c :: c in nd.checks && nd.checks[c].Asking? ==>
               (c in nd'.pending ==> c in nd.pending && (nd.checks[c].query in nd.queries ==>
                 nd.checks[c].query in nd'.queries
                 && nd'.queries[nd.checks[c].query].origin == nd.queries[nd.checks[c].query].origin))
    ensures ChecksOk(s', n, nd')
  {
    forall c | c in nd'.checks ensures PhaseOk(s', nd', c, nd'.checks[c]) {
      assert PhaseOk(s, nd, c, nd.checks[c]);
    }
  }

  lemma ReplyKeeps(s: State, n: NodeId, nd: Node, q: QueryId, Q: Query, c: Conn, r: Result)
    requires QueryOk(s, n, nd, q, Q)
    requires r.NotFound? ==> Certificate(s, q, c)
    ensures QueryOk(s, n, nd, q, Q.Reply(c, r))
  {
  }

  lemma LostChecks(s: State, n: NodeId, nd: Node, c: Conn)
    requires ChecksOk(s, n, nd)
    ensures ChecksOk(s, n, nd.Forget(c))
  {
    SameChecks(s, s, n, nd, nd.Forget(c));
  }

  lemma ForgotOnly(nd: Node, c: Conn)
    ensures Forgot(nd, nd.Forget(c), c)
  {
  }

  lemma LoseKeeps(s: State, c: Conn)
    requires Inv(s) && Enabled(s, Lose(c))
    ensures Inv(Step(s, Lose(c))) && Shrinks(s, Step(s, Lose(c)))
  {
    var n := c.Node();
    var nd := s.nodes[n];
    LostChecks(s, n, nd, c);
    ForgotOnly(nd, c);
    ForgetKeeps(s, n, nd.Forget(c), c);
  }

  /** A check that holds the lock ends by refusing its connection. */
  lemma RefuseKeeps(s: State, c: Conn)
    requires Inv(s) && c.Node() in s.nodes && c in s.nodes[c.Node()].checks
    requires !s.nodes[c.Node()].checks[c].Waiting? && !s.nodes[c.Node()].checks[c].Asking?
    ensures Inv(Put(s, c.Node(), s.nodes[c.Node()].Refuse(c), {}))
    ensures Shrinks(s, Put(s, c.Node(), s.nodes[c.Node()].Refuse(c), {}))
  {
    var n := c.Node();
    var nd := s.nodes[n];
    var nd' := nd.Refuse(c);
    forall d | d in nd'.checks ensures PhaseOk(s, nd', d, nd'.checks[d]) {
      assert PhaseOk(s, nd, d, nd.checks[d]);
    }
    assert forall d :: d in nd'.checks ==> nd'.checks[d] == nd.checks[d];
    assert ChecksOk(s, n, nd');
    ForgetKeeps(s, n, nd', c);
  }

  lemma GreetKeeps(s: State, c: Conn)
    requires Inv(s) && Enabled(s, Greet(c))
    ensures Inv(Step(s, Greet(c))) && Shrinks(s, Step(s, Greet(c)))
  {
    var n := c.Node();
    var nd := s.nodes[n];
    var peer := nd.peers[c];
    if peer == n || exists d :: d in nd.ActiveNodeConns() && nd.peers[d] == peer {
      RefuseKeeps(s, c);
    } else {
      ReadyIsFine(s, n, nd, c, 0, peer);
      CheckStepKeeps(s, n, Readied(nd, c, 0, peer));
    }
  }

  function Readied(nd: Node, c: Conn, attempt: nat, peer: NodeId): Node {
    nd.(checks := nd.checks[c := Ready(attempt, peer)])
  }

  lemma ReadyIsQuiet(s: State, n: NodeId, nd: Node, c: Conn, attempt: nat, peer: NodeId)
    requires ConnsOk(s, n, nd) && c in nd.checks && c in nd.pending
    requires nd.checks[c].Greeting? || nd.checks[c].Decided?
    requires nd.checks[c].Greeting? ==> c in nd.peers
    ensures Quiet(nd, Readied(nd, c, attempt, peer)) && ConnsOk(s, n, Readied(nd, c, attempt, peer))
  {
  }

  /** A check that is past waiting for the lock may get ready for an attempt. */
  lemma ReadyIsFine(s: State, n: NodeId, nd: Node, c: Conn, attempt: nat, peer: NodeId)
    requires NodeOk(s, n, nd) && c in nd.checks && (nd.checks[c].Greeting? || nd.checks[c].Decided?)
    requires c in nd.pending && peer == c.link.b != c.link.a && (nd.checks[c].Greeting? ==> c in nd.peers)
    ensures var nd' := Readied(nd, c, attempt, peer); Quiet(nd, nd') && ConnsOk(s, n, nd') && ChecksOk(s, n, nd')
  {
    ReadyIsQuiet(s, n, nd, c, attempt, peer);
    ReadyChecks(s, n, nd, c, attempt, peer);
  }

  lemma ReadyChecks(s: State, n: NodeId, nd: Node, c: Conn, attempt: nat, peer: NodeId)
    requires ChecksOk(s, n, nd) && c in nd.checks && (nd.checks[c].Greeting? || nd.checks[c].Decided?)
    requires peer == c.link.b != c.link.a
    ensures ChecksOk(s, n, Readied(nd, c, attempt, peer))
  {
    var nd' := Readied(nd, c, attempt, peer);
    forall d | d in nd'.checks ensures PhaseOk(s, nd', d, nd'.checks[d]) {
      assert PhaseOk(s, nd, d, nd.checks[d]);
    }
    assert forall d :: d in nd.checks && d != c ==> nd'.checks[d] == nd.checks[d];
  }

  lemma DecidedPeer(s: State, n: NodeId, nd: Node, c: Conn)
    requires ChecksOk(s, n, nd) && c in nd.checks && nd.checks[c].Decided?
    ensures nd.checks[c].peer == c.link.b != c.link.a
  {
    assert PhaseOk(s, nd, c, nd.checks[c]);
  }

  lemma RetryStep(s: State, c: Conn, p: Phase)
    requires Enabled(s, Act(c)) && p == s.nodes[c.Node()].checks[c]
    requires p.Decided? && p.result.Unknown? && p.attempt + 1 < MAX_CHECK_ATTEMPTS
    ensures Step(s, Act(c)) == Put(s, c.Node(), Readied(s.nodes[c.Node()], c, p.attempt + 1, p.peer), {})
  {
  }

  lemma ReadyKeeps(s: State, s': State, n: NodeId, c: Conn, attempt: nat, peer: NodeId)
    requires Inv(s) && n in s.nodes && s' == Put(s, n, Readied(s.nodes[n], c, attempt, peer), {})
    requires var nd := s.nodes[n];
             c in nd.checks && c in nd.pending && (nd.checks[c].Greeting? || nd.checks[c].Decided?)
    requires peer == c.link.b != c.link.a && (s.nodes[n].checks[c].Greeting? ==> c in s.nodes[n].peers)
    ensures Inv(s') && Shrinks(s, s')
  {
    ReadyIsFine(s, n, s.nodes[n], c, attempt, peer);
    CheckStepKeeps(s, n, Readied(s.nodes[n], c, attempt, peer));
  }

  lemma RetryKeeps(s: State, c: Conn, p: Phase)
    requires Inv(s) && Enabled(s, Act(c)) && p == s.nodes[c.Node()].checks[c]
    requires p.Decided? && p.result.Unknown? && p.attempt + 1 < MAX_CHECK_ATTEMPTS
    ensures Inv(Step(s, Act(c))) && Shrinks(s, Step(s, Act(c)))
  {
    RetryStep(s, c, p);
    DecidedPeer(s, c.Node(), s.nodes[c.Node()], c);
    ReadyKeeps(s, Step(s, Act(c)), c.Node(), c, p.attempt + 1, p.peer);
  }

  function Using(nd: Node, c: Conn): Node {
    nd.(pending := nd.pending - {c}, checks := nd.checks[c := Accepted])
  }

  lemma UsingIsQuiet(nd: Node, c: Conn)
    requires c in nd.checks && nd.checks[c].Decided? && nd.checks[c].result.NotFound?
    ensures Quiet(nd, Using(nd, c))
  {
  }

  lemma UsingConns(s: State, n: NodeId, nd: Node, c: Conn)
    requires ConnsOk(s, n, nd) && c in nd.pending && c in nd.checks && nd.checks[c].Decided?
    ensures ConnsOk(s, n, Using(nd, c))
  {
  }

  lemma UsingChecks(s: State, n: NodeId, nd: Node, c: Conn)
    requires ChecksOk(s, n, nd) && c in nd.checks && nd.checks[c].Decided?
    ensures ChecksOk(s, n, Using(nd, c))
  {
    var nd' := Using(nd, c);
    forall d | d in nd'.checks ensures PhaseOk(s, nd', d, nd'.checks[d]) {
      assert PhaseOk(s, nd, d, nd.checks[d]);
    }
  }

  lemma AcceptKeeps(s: State, c: Conn)
    requires Inv(s) && Enabled(s, Act(c)) && s.nodes[c.Node()].checks[c].result.NotFound?
    ensures Inv(Step(s, Act(c))) && Shrinks(s, Step(s, Act(c)))
  {
    var n := c.Node();
    var nd := s.nodes[n];
    assert NodeOk(s, n, nd);
    UsingIsQuiet(nd, c);
    UsingConns(s, n, nd, c);
    UsingChecks(s, n, nd, c);
    CheckStepKeeps(s, n, Using(nd, c));
  }

  lemma ActKeeps(s: State, c: Conn)
    requires Inv(s) && Enabled(s, Act(c))
    ensures Inv(Step(s, Act(c))) && Shrinks(s, Step(s, Act(c)))
  {
    var p := s.nodes[c.Node()].checks[c];
    if p.result.NotFound? {
      AcceptKeeps(s, c);
    } else if p.result.Unknown? && p.attempt + 1 < MAX_CHECK_ATTEMPTS {
      RetryKeeps(s, c, p);
    } else {
      RefuseKeeps(s, c);
    }
  }

  lemma GiveUpIsQuiet(nd: Node, c: Conn)
    requires c in nd.checks && c !in nd.pending
    ensures Quiet(nd, Abort(nd, c))
  {
  }

  lemma GiveUpChecks(s: State, n: NodeId, nd: Node, c: Conn)
    requires ChecksOk(s, n, nd) && c in nd.checks
    ensures ChecksOk(s, n, Abort(nd, c))
  {
    var nd' := Abort(nd, c);
    forall d | d in nd'.checks ensures PhaseOk(s, nd', d, nd'.checks[d]) {
      assert PhaseOk(s, nd, d, nd.checks[d]);
    }
  }

  lemma GiveUpQueries(s: State, n: NodeId, nd: Node, c: Conn)
    requires NodeOk(s, n, nd) && c in nd.checks
    ensures var nd' := Abort(nd, c);
            forall q :: q in nd'.queries ==> QueryOk(s, n, nd', q, nd'.queries[q])
  {
    var nd' := Abort(nd, c);
    forall q | q in nd'.queries ensures QueryOk(s, n, nd', q, nd'.queries[q]) {
      assert QueryOk(s, n, nd, q, nd.queries[q]);
    }
  }

  lemma GiveUpKeeps(s: State, c: Conn)
    requires Inv(s) && Enabled(s, GiveUp(c))
    ensures Inv(Step(s, GiveUp(c))) && Shrinks(s, Step(s, GiveUp(c)))
  {
    var n := c.Node();
    var s' := Step(s, GiveUp(c));
    var nd, nd' := s.nodes[n], s'.nodes[n];
    GiveUpIsQuiet(nd, c);
    QuietStays(s, s', n);
    GiveUpChecks(s, n, nd, c);
    GiveUpQueries(s, n, nd, c);
    assert ConnsOk(s, n, nd');
    NodeKept(s, s', n, nd');
    QuietStep(s, s', n);
  }

  lemma CloseKeeps(s: State, n: NodeId)
    requires Inv(s) && Enabled(s, Close(n))
    ensures Inv(Step(s, Close(n))) && Shrinks(s, Step(s, Close(n)))
  {
    var s' := Step(s, Close(n));
    QuietStays(s, s', n);
    SameChecks(s, s', n, s.nodes[n], s'.nodes[n]);
    QuietStep(s, s', n);
  }

  // --- queries: what the combined replies mean -----------------------------------------

  /** The heart of the check. When every connection a node asked has answered "not found", no
      earlier link leads from the node to the target, other than back to where the query came
      from: the first link of a path that never returns to the node would be one it asked. */
  lemma AllNotFound(s: State, n: NodeId, q: QueryId, origin: Origin, targets: set<Conn>)
    requires q < |s.asks| && n != s.asks[q].b
    requires Covers(s, n, q, origin, targets)
    requires forall c :: c in targets ==> Certificate(s, q, c)
    requires origin.Forward? ==> origin.source.Node() == n
    ensures origin.Own? ==> !Connected(Earlier(s, q), n, s.asks[q].b)
    ensures origin.Forward? ==> !Connected(Earlier(s, q) - {origin.source.link}, n, s.asks[q].b)
  {
    var E := Earlier(s, q);
    var G := if origin.Own? then E else E - {origin.source.link};
    var t := s.asks[q].b;
    if Connected(G, n, t) {
      var p :| Walk(G, p, n, t);
      var e, z := LastDeparture(G, p, n, t);
      var c := Conn(e, e.a == n);
      assert c in targets && Certificate(s, q, c);
      assert c.Peer().Node() == z;
      Monotone(Avoiding(G, n), E - {e}, z, t);
    }
  }

  lemma PendingIsOut(s: State, n: NodeId, source: Conn)
    requires Inv(s) && n in s.nodes && !s.nodes[n].checking && source in s.nodes[n].pending
    requires forall c :: !Undecided(s.nodes[n], c)
    ensures !InPlay(s, source.link)
  {
    var nd := s.nodes[n];
    assert source == Conn(source.link, true) && source.Node() == n;
    assert !nd.checks[source].Asking?;
    assert !Undecided(nd, source);
  }

  /** What a node that is not checking asks covers every earlier link it has. */
  lemma ForwardCovers(s: State, n: NodeId, q: QueryId, source: Conn)
    requires Inv(s) && n in s.nodes && !s.nodes[n].checking
    requires forall c :: !Undecided(s.nodes[n], c)
    ensures Covers(s, n, q, Forward(source), s.nodes[n].ActiveNodeConns() - {source})
  {
    var nd := s.nodes[n];
    forall c: Conn | c.Node() == n && c.link in Earlier(s, q) && c != source
      ensures c in nd.ActiveNodeConns()
    {
      assert LinkOk(s, c.link) && InPlay(s, c.link);
      assert c == Conn(c.link, c.up);
      assert c in nd.conns && c in nd.peers;
      if c in nd.pending {
        PendingIsOut(s, n, c);
      }
    }
  }

  /** What a node answers at once is true. */
  lemma AnswerIsTrue(s: State, n: NodeId, source: Conn, q: QueryId, r: Result)
    requires Inv(s) && n in s.nodes && q < |s.asks| && source.Node() == n
    requires forall c :: !s.nodes[n].checking ==> !Undecided(s.nodes[n], c)
    requires AnswerNow(n, s.nodes[n], source, q, s.asks[q].b) == Some(r)
    ensures MsgOk(s, Msg(source.Peer(), Answer(q, r)))
  {
    if r.NotFound? {
      PendingIsOut(s, n, source);
    }
  }

  /** With nobody to ask, "not found" is true. */
  lemma NobodyToAsk(s: State, n: NodeId, source: Conn, q: QueryId)
    requires Inv(s) && n in s.nodes && q < |s.asks| && source.Node() == n != s.asks[q].b
    requires !s.nodes[n].checking && forall c :: !Undecided(s.nodes[n], c)
    requires s.nodes[n].ActiveNodeConns() - {source} == {}
    ensures MsgOk(s, Msg(source.Peer(), Answer(q, NotFound)))
  {
    ForwardCovers(s, n, q, source);
    AllNotFound(s, n, q, Forward(source), {});
    assert Certificate(s, q, source.Peer());
  }

  lemma AskKeeps(s: State, m: Msg)
    requires Inv(s) && Enabled(s, Deliver(m)) && m.body.Ask? && NoQueryBetween(s, Deliver(m))
    ensures Inv(Step(s, Deliver(m))) && Shrinks(s, Step(s, Deliver(m)))
  {
    var n, q, source := m.to.Node(), m.body.query, m.to;
    var nd, targets := s.nodes[n], s.nodes[n].ActiveNodeConns() - {source};
    assert MsgOk(s, m);
    match AnswerNow(n, nd, source, q, m.body.target) {
      case Some(r) =>
        AnswerIsTrue(s, n, source, q, r);
        QuietPut(s, n, nd, {Msg(source.Peer(), Answer(q, r))});
      case None =>
        if targets == {} {
          NobodyToAsk(s, n, source, q);
          QuietPut(s, n, nd, {Msg(source.Peer(), Answer(q, NotFound))});
        } else {
          ForwardCovers(s, n, q, source);
          OpenKeeps(s, n, q, source, m.body.target, targets);
        }
    }
  }

  lemma OpenKeeps(s: State, n: NodeId, q: QueryId, source: Conn, target: NodeId, targets: set<Conn>)
    requires Inv(s) && n in s.nodes && q < |s.asks| && target == s.asks[q].b != n && source.Node() == n
    requires q !in s.nodes[n].queries && targets <= s.nodes[n].conns
    requires Covers(s, n, q, Forward(source), targets)
    ensures var nd := s.nodes[n];
            var nd' := nd.(queries := nd.queries[q := NewQuery(Forward(source), target, targets)]);
            var s' := Put(s, n, nd', set c | c in targets :: Msg(c.Peer(), Ask(q, target)));
            Inv(s') && Shrinks(s, s')
  {
    var nd := s.nodes[n];
    OpenedQuery(s, n, nd, q, source, target, targets);
    QuietPut(s, n, nd.(queries := nd.queries[q := NewQuery(Forward(source), target, targets)]),
             set c | c in targets :: Msg(c.Peer(), Ask(q, target)));
  }

  lemma OpenedQuery(s: State, n: NodeId, nd: Node, q: QueryId, source: Conn, target: NodeId, targets: set<Conn>)
    requires NodeOk(s, n, nd)
    requires q < |s.asks| && target == s.asks[q].b != n && source.Node() == n
    requires q !in nd.queries && targets <= nd.conns
    requires Covers(s, n, q, Forward(source), targets)
    ensures NodeOk(s, n, nd.(queries := nd.queries[q := NewQuery(Forward(source), target, targets)]))
  {
    var Q := NewQuery(Forward(source), target, targets);
    var nd' := nd.(queries := nd.queries[q := Q]);
    SameChecks(s, s, n, nd, nd');
    OpenedIsFine(s, n, nd, nd', q, source, targets);
    forall k | k in nd.queries ensures QueryOk(s, n, nd', k, nd'.queries[k]) {
      assert QueryOk(s, n, nd, k, nd.queries[k]);
    }
  }

  lemma OpenedIsFine(s: State, n: NodeId, nd: Node, nd': Node, q: QueryId, source: Conn, targets: set<Conn>)
    requires ConnsOk(s, n, nd) && q < |s.asks| && s.asks[q].b != n && source.Node() == n && targets <= nd.conns
    requires Covers(s, n, q, Forward(source), targets)
    ensures QueryOk(s, n, nd', q, NewQuery(Forward(source), s.asks[q].b, targets))
  {
  }

  lemma NamedIsFine(s: State, n: NodeId, nd: Node, c: Conn, id: NodeId)
    requires NodeOk(s, n, nd) && c in nd.conns && id == c.Peer().Node() && (c.up ==> c.link in s.arrived)
    ensures NodeOk(s, n, nd.(peers := nd.peers[c := id]))
  {
    var nd' := nd.(peers := nd.peers[c := id]);
    SameChecks(s, s, n, nd, nd');
    forall q | q in nd'.queries ensures QueryOk(s, n, nd', q, nd'.queries[q]) {
      assert QueryOk(s, n, nd, q, nd.queries[q]);
    }
  }

  lemma HelloKeeps(s: State, m: Msg)
    requires Inv(s) && Enabled(s, Deliver(m)) && m.body.Hello?
    ensures Inv(Step(s, Deliver(m))) && Shrinks(s, Step(s, Deliver(m)))
  {
    var n, nd := m.to.Node(), s.nodes[m.to.Node()];
    assert MsgOk(s, m);
    NamedIsFine(s, n, nd, m.to, m.body.id);
    QuietPut(s, n, nd.(peers := nd.peers[m.to := m.body.id]), {});
  }

  lemma RepliedIsQuiet(nd: Node, c: Conn, q: QueryId, r: Result)
    ensures Quiet(nd, HandleReply(nd, c, q, r))
  {
  }

  lemma AnswerKeeps(s: State, m: Msg)
    requires Inv(s) && Enabled(s, Deliver(m)) && m.body.Answer?
    ensures Inv(Step(s, Deliver(m))) && Shrinks(s, Step(s, Deliver(m)))
  {
    var n, q, r := m.to.Node(), m.body.query, m.body.result;
    assert MsgOk(s, m);
    Answered(s, n, s.nodes[n], m.to, q, r);
    RepliedIsQuiet(s.nodes[n], m.to, q, r);
    QuietPut(s, n, HandleReply(s.nodes[n], m.to, q, r), {});
  }

  lemma AnsweredQuery(s: State, n: NodeId, nd: Node, c: Conn, q: QueryId, r: Result, k: QueryId)
    requires k in nd.queries && QueryOk(s, n, nd, k, nd.queries[k])
    requires q < |s.asks| && (r.NotFound? ==> Certificate(s, q, c))
    ensures QueryOk(s, n, HandleReply(nd, c, q, r), k, HandleReply(nd, c, q, r).queries[k])
  {
    if k == q {
      ReplyKeeps(s, n, nd, q, nd.queries[q], c, r);
    }
  }

  lemma AnsweredChecks(s: State, n: NodeId, nd: Node, c: Conn, q: QueryId, r: Result)
    requires ConnsOk(s, n, nd) && ChecksOk(s, n, nd)
    ensures ConnsOk(s, n, HandleReply(nd, c, q, r)) && ChecksOk(s, n, HandleReply(nd, c, q, r))
  {
    SameChecks(s, s, n, nd, HandleReply(nd, c, q, r));
  }

  lemma Answered(s: State, n: NodeId, nd: Node, c: Conn, q: QueryId, r: Result)
    requires NodeOk(s, n, nd) && q < |s.asks| && (r.NotFound? ==> Certificate(s, q, c))
    ensures NodeOk(s, n, HandleReply(nd, c, q, r))
  {
    var nd' := HandleReply(nd, c, q, r);
    AnsweredChecks(s, n, nd, c, q, r);
    forall k | k in nd'.queries ensures QueryOk(s, n, nd', k, nd'.queries[k]) {
      AnsweredQuery(s, n, nd, c, q, r, k);
    }
  }

  /** The result a task goes on with, whether the replies gave it or the timeout did. */
  ghost predicate MayConclude(Q: Query, r: Result) {
    r.Unknown? || Q.result == Some(r)
  }

  lemma ConcludedCut(s: State, n: NodeId, nd: Node, q: QueryId)
    requires q in nd.queries && QueryOk(s, n, nd, q, nd.queries[q]) && nd.queries[q].result == Some(NotFound)
    ensures nd.queries[q].origin.Own? ==> !Connected(Earlier(s, q), n, s.asks[q].b)
    ensures nd.queries[q].origin.Forward? ==> Certificate(s, q, nd.queries[q].origin.source.Peer())
  {
    var Q := nd.queries[q];
    AllNotFound(s, n, q, Q.origin, Q.targets);
  }

  lemma ForwardConcluded(s: State, n: NodeId, q: QueryId, r: Result)
    requires Inv(s) && n in s.nodes && q in s.nodes[n].queries
    requires s.nodes[n].queries[q].origin.Forward? && MayConclude(s.nodes[n].queries[q], r)
    ensures var (nd', out) := Conclude(s.nodes[n], q, r); Inv(Put(s, n, nd', out)) && Shrinks(s, Put(s, n, nd', out))
  {
    var nd := s.nodes[n];
    var (nd', out) := Conclude(nd, q, r);
    ForwardForgotten(s, n, nd, q, r);
    ForwardAnswers(s, n, nd, q, r);
    QuietPut(s, n, nd', out);
  }

  lemma ForwardAnswers(s: State, n: NodeId, nd: Node, q: QueryId, r: Result)
    requires NodeOk(s, n, nd) && q in nd.queries && nd.queries[q].origin.Forward? && MayConclude(nd.queries[q], r)
    ensures forall m :: m in Conclude(nd, q, r).1 ==> MsgOk(s, m)
  {
    assert QueryOk(s, n, nd, q, nd.queries[q]);
    if r.NotFound? {
      ConcludedCut(s, n, nd, q);
    }
  }

  lemma ForwardForgotten(s: State, n: NodeId, nd: Node, q: QueryId, r: Result)
    requires NodeOk(s, n, nd) && q in nd.queries && nd.queries[q].origin.Forward?
    ensures NodeOk(s, n, Conclude(nd, q, r).0)
  {
    var nd' := Conclude(nd, q, r).0;
    forall c | c in nd'.checks ensures PhaseOk(s, nd', c, nd'.checks[c]) {
      assert PhaseOk(s, nd, c, nd.checks[c]);
    }
    forall k | k in nd'.queries ensures QueryOk(s, n, nd', k, nd'.queries[k]) {
      assert QueryOk(s, n, nd, k, nd.queries[k]);
    }
  }

  function Told(nd: Node, q: QueryId, c: Conn, p: Phase): Node {
    nd.(queries := nd.queries - {q}, checking := false, checks := nd.checks[c := p])
  }

  lemma OwnIsTold(s: State, n: NodeId, nd: Node, q: QueryId, r: Result, c: Conn)
    requires NodeOk(s, n, nd) && q in nd.queries && nd.queries[q].origin == Own(c)
    ensures c in nd.checks && nd.checks[c].Asking? && nd.checks[c].query == q && PhaseOk(s, nd, c, nd.checks[c])
    ensures c.up && c.Node() == n && q < |s.asks|
    ensures Conclude(nd, q, r) == (Told(nd, q, c, Decided(nd.checks[c].attempt, nd.checks[c].peer, q, r)), {})
  {
    assert QueryOk(s, n, nd, q, nd.queries[q]);
  }

  lemma OwnConcluded(s: State, n: NodeId, q: QueryId, r: Result)
    requires Inv(s) && n in s.nodes && q in s.nodes[n].queries
    requires s.nodes[n].queries[q].origin.Own? && MayConclude(s.nodes[n].queries[q], r)
    ensures var (nd', out) := Conclude(s.nodes[n], q, r); Inv(Put(s, n, nd', out)) && Shrinks(s, Put(s, n, nd', out))
  {
    var nd, c := s.nodes[n], s.nodes[n].queries[q].origin.conn;
    OwnIsTold(s, n, nd, q, r, c);
    var p := Decided(nd.checks[c].attempt, nd.checks[c].peer, q, r);
    OwnConcludedNode(s, n, nd, q, r);
    if r.NotFound? {
      ConcludedCut(s, n, nd, q);
    }
    forall l ensures StaysOk(s, Put(s, n, Told(nd, q, c, p), {}), l) {
      ToldStays(s, n, nd, q, c, p, l);
    }
    StaysPut(s, n, Told(nd, q, c, p), {});
  }

  /** A link is freed from its query only by an answer that allows it. */
  lemma ToldStays(s: State, n: NodeId, nd: Node, q: QueryId, c: Conn, p: Phase, l: Link)
    requires LinkOk(s, l) && n in s.nodes && nd == s.nodes[n] && c in nd.checks && nd.checks[c].Asking?
    requires c.up && c.Node() == n && c.link in s.stamp && s.stamp[c.link] == q && p.Decided?
    requires p.result.NotFound? ==> !Connected(Earlier(s, q), n, c.link.b)
    ensures StaysOk(s, Put(s, n, Told(nd, q, c, p), {}), l)
  {
  }

  lemma ToldChecks(s: State, n: NodeId, nd: Node, q: QueryId, c: Conn, p: Phase)
    requires ChecksOk(s, n, nd) && c in nd.checks && nd.checks[c].Asking? && p.Decided? && PhaseOk(s, nd, c, p)
    ensures ChecksOk(s, n, Told(nd, q, c, p))
  {
    var nd' := Told(nd, q, c, p);
    forall d | d in nd'.checks ensures PhaseOk(s, nd', d, nd'.checks[d]) {
      assert PhaseOk(s, nd, d, nd.checks[d]);
    }
    assert forall d :: d in nd.checks && d != c ==> nd'.checks[d] == nd.checks[d];
  }

  lemma ToldQuery(s: State, n: NodeId, nd: Node, q: QueryId, c: Conn, p: Phase, k: QueryId, Q: Query)
    requires QueryOk(s, n, nd, k, Q) && k != q && c in nd.checks && nd.checks[c].Asking? && nd.checks[c].query == q
    ensures QueryOk(s, n, Told(nd, q, c, p), k, Q)
  {
  }

  lemma OwnConcludedNode(s: State, n: NodeId, nd: Node, q: QueryId, r: Result)
    requires NodeOk(s, n, nd) && q in nd.queries && nd.queries[q].origin.Own?
    ensures NodeOk(s, n, Conclude(nd, q, r).0)
  {
    var c := nd.queries[q].origin.conn;
    OwnIsTold(s, n, nd, q, r, c);
    var p := Decided(nd.checks[c].attempt, nd.checks[c].peer, q, r);
    ToldChecks(s, n, nd, q, c, p);
    forall k | k in nd.queries && k != q ensures QueryOk(s, n, Told(nd, q, c, p), k, nd.queries[k]) {
      ToldQuery(s, n, nd, q, c, p, k, nd.queries[k]);
    }
  }

  lemma ConcludeKeeps(s: State, n: NodeId, q: QueryId, r: Result)
    requires Inv(s) && n in s.nodes && q in s.nodes[n].queries && MayConclude(s.nodes[n].queries[q], r)
    ensures var (nd', out) := Conclude(s.nodes[n], q, r); Inv(Put(s, n, nd', out)) && Shrinks(s, Put(s, n, nd', out))
  {
    if s.nodes[n].queries[q].origin.Own? {
      OwnConcluded(s, n, q, r);
    } else {
      ForwardConcluded(s, n, q, r);
    }
  }

  // --- starting an attempt: the one step that puts a link in play ----------------------

  lemma StartShrinks(s: State, c: Conn)
    requires Inv(s) && Enabled(s, Start(c))
    ensures Shrinks(s, Step(s, Start(c)))
    ensures forall l :: l != c.link && InPlay(Step(s, Start(c)), l) ==> InPlay(s, l)
    ensures forall l :: l in Earlier(Step(s, Start(c)), |s.asks|) ==> l != c.link && InPlay(s, l)
  {
    var s' := Step(s, Start(c));
    forall l | l != c.link && InPlay(s', l) ensures InPlay(s, l) {
      if l.a == c.Node() {
        assert Conn(l, true) != c;
      }
    }
  }

  /** No other check of the node is past waiting for the lock, so every earlier link at the
      node is an active node connection. */
  lemma StartCovers(s: State, c: Conn)
    requires Inv(s) && Enabled(s, Start(c))
    ensures var s' := Step(s, Start(c));
            Covers(s', c.Node(), |s.asks|, Own(c), s.nodes[c.Node()].ActiveNodeConns())
  {
    var n := c.Node();
    var nd, s' := s.nodes[n], Step(s, Start(c));
    StartShrinks(s, c);
    forall d: Conn | d.Node() == n && d.link in Earlier(s', |s.asks|)
      ensures d in nd.ActiveNodeConns()
    {
      assert LinkOk(s, d.link) && InPlay(s, d.link);
      assert d == Conn(d.link, d.up);
      assert d in nd.conns && d in nd.peers;
    }
  }

  lemma StartChecks(s: State, c: Conn)
    requires Inv(s) && Enabled(s, Start(c))
    ensures var s' := Step(s, Start(c)); ChecksOk(s', c.Node(), s'.nodes[c.Node()])
  {
    var n := c.Node();
    var s' := Step(s, Start(c));
    var nd, nd' := s.nodes[n], s'.nodes[n];
    assert PhaseOk(s, nd, c, nd.checks[c]);
    assert c in nd'.checks && !nd'.checks[c].Waiting?;
    forall d | d in nd'.checks ensures PhaseOk(s', nd', d, nd'.checks[d]) {
      if d != c {
        assert PhaseOk(s, nd, d, nd.checks[d]);
        assert nd'.checks[d].Waiting?;
      }
    }
  }

  lemma StartNewQuery(s: State, c: Conn, n: NodeId, nd: Node)
    requires Inv(s) && Enabled(s, Start(c)) && n == c.Node() && nd == s.nodes[n] && nd.ActiveNodeConns() != {}
    ensures var s' := Step(s, Start(c)); var nd', q := s'.nodes[n], |s.asks|;
            q in nd'.queries && QueryOk(s', n, nd', q, nd'.queries[q])
  {
    StartCovers(s, c);
    assert PhaseOk(s, nd, c, nd.checks[c]);
  }

  lemma StartOldQuery(s: State, c: Conn, n: NodeId, nd: Node, k: QueryId)
    requires Inv(s) && Enabled(s, Start(c)) && n == c.Node() && nd == s.nodes[n] && k in nd.queries
    ensures k < |s.asks|
    ensures QueryOk(Step(s, Start(c)), n, Step(s, Start(c)).nodes[n], k, nd.queries[k])
  {
    StartShrinks(s, c);
    StartForwards(s, n, nd, c, k);
    QueryKept(s, Step(s, Start(c)), n, nd, Step(s, Start(c)).nodes[n], k, nd.queries[k]);
  }

  lemma StartQueries(s: State, c: Conn)
    requires Inv(s) && Enabled(s, Start(c))
    ensures var s' := Step(s, Start(c)); var nd' := s'.nodes[c.Node()];
            forall q :: q in nd'.queries ==> QueryOk(s', c.Node(), nd', q, nd'.queries[q])
  {
    var n, nd := c.Node(), s.nodes[c.Node()];
    forall k | k in nd.queries
      ensures k < |s.asks| && QueryOk(Step(s, Start(c)), n, Step(s, Start(c)).nodes[n], k, nd.queries[k])
    {
      StartOldQuery(s, c, n, nd, k);
    }
    if nd.ActiveNodeConns() != {} {
      StartNewQuery(s, c, n, nd);
    }
  }

  /** While a check is between attempts, the node has no own query. */
  lemma StartForwards(s: State, n: NodeId, nd: Node, c: Conn, k: QueryId)
    requires NodeOk(s, n, nd) && c in nd.checks && nd.checks[c].Ready? && k in nd.queries
    ensures QueryOk(s, n, nd, k, nd.queries[k]) && nd.queries[k].origin.Forward?
  {
  }

  lemma StartNode(s: State, c: Conn)
    requires Inv(s) && Enabled(s, Start(c))
    ensures var s' := Step(s, Start(c)); NodeOk(s', c.Node(), s'.nodes[c.Node()])
  {
    StartChecks(s, c);
    StartQueries(s, c);
    StartConns(s, c, c.Node(), s.nodes[c.Node()]);
  }

  lemma StartedAlike(nd: Node, c: Conn, q: QueryId)
    requires c in nd.checks && nd.checks[c].Ready?
    ensures var nd' := StartAttempt(nd, c, q).0;
            && nd' == nd.(checks := nd'.checks, checking := nd'.checking, queries := nd'.queries)
            && nd'.checks.Keys == nd.checks.Keys && (nd'.checks[c].Asking? || nd'.checks[c].Decided?)
            && forall d :: d in nd.checks && d != c ==> nd'.checks[d] == nd.checks[d]
  {
  }

  lemma AlikeConns(s: State, s': State, n: NodeId, nd: Node, nd': Node)
    requires ConnsOk(s, n, nd) && s'.made == s.made && s'.arrived == s.arrived
    requires nd' == nd.(checks := nd'.checks, checking := nd'.checking, queries := nd'.queries)
    requires nd'.checks.Keys == nd.checks.Keys
    requires forall d :: d in nd.checks ==>
               nd'.checks[d] == nd.checks[d] || (nd.checks[d].Ready? && !nd'.checks[d].Accepted?)
    ensures ConnsOk(s', n, nd')
  {
  }

  lemma StartConns(s: State, c: Conn, n: NodeId, nd: Node)
    requires Enabled(s, Start(c)) && n == c.Node() && nd == s.nodes[n] && ConnsOk(s, n, nd)
    ensures ConnsOk(Step(s, Start(c)), n, Step(s, Start(c)).nodes[n])
  {
    StartedAlike(nd, c, |s.asks|);
    AlikeConns(s, Step(s, Start(c)), n, nd, StartAttempt(nd, c, |s.asks|).0);
  }

  /** The link that is asked about now, if there was nobody to ask. */
  lemma StartedLink(s: State, c: Conn, n: NodeId, p: Phase)
    requires Inv(s) && Enabled(s, Start(c)) && HelloFirst(s, Start(c)) && n == c.Node() && p == s.nodes[n].checks[c]
    ensures LinkOk(Step(s, Start(c)), c.link)
  {
    var s' := Step(s, Start(c));
    assert PhaseOk(s, s.nodes[n], c, p);
    if InPlay(s', c.link) && !Asked(s'.nodes[n], c) {
      StartCovers(s, c);
      AllNotFound(s', n, |s.asks|, Own(c), {});
    }
  }

  lemma StartLinks(s: State, c: Conn, l: Link)
    requires Inv(s) && Enabled(s, Start(c)) && HelloFirst(s, Start(c))
    ensures LinkOk(Step(s, Start(c)), l)
  {
    if l == c.link {
      StartedLink(s, c, c.Node(), s.nodes[c.Node()].checks[c]);
    } else {
      StartOtherLink(s, c, l);
    }
  }

  lemma StartOtherLink(s: State, c: Conn, l: Link)
    requires Inv(s) && Enabled(s, Start(c)) && l != c.link
    ensures LinkOk(Step(s, Start(c)), l)
  {
    var s' := Step(s, Start(c));
    StartShrinks(s, c);
    if InPlay(s', l) {
      assert LinkOk(s, l) && InPlay(s, l);
      if Connected(Earlier(s', s.stamp[l]), l.a, l.b) {
        Monotone(Earlier(s', s.stamp[l]), Earlier(s, s.stamp[l]), l.a, l.b);
      }
      assert Conn(l, true) != c;
    }
  }

  lemma StartKeeps(s: State, c: Conn)
    requires Inv(s) && Enabled(s, Start(c)) && HelloFirst(s, Start(c))
    ensures Inv(Step(s, Start(c))) && Shrinks(s, Step(s, Start(c)))
  {
    var n, s' := c.Node(), Step(s, Start(c));
    StartShrinks(s, c);
    StartNode(s, c);
    forall m | m in s'.nodes ensures NodeOk(s', m, s'.nodes[m]) {
      if m != n {
        NodeKept(s, s', m, s.nodes[m]);
      }
    }
    forall m | m in s'.net ensures MsgOk(s', m) {
      if m in s.net {
        MsgKept(s, s', m);
      } else {
        assert PhaseOk(s, s.nodes[n], c, s.nodes[n].checks[c]);
      }
    }
    forall l ensures LinkOk(s', l) {
      StartLinks(s, c, l);
    }
  }

  // --- the theorems ----------------------------------------------------------------------

  lemma StepKeeps(s: State, e: Event)
    requires Inv(s) && Enabled(s, e) && HelloFirst(s, e) && NoQueryBetween(s, e)
    ensures Inv(Step(s, e)) && Shrinks(s, Step(s, e))
  {
    match e
    case Establish(l) => EstablishKeeps(s, l);
    case Arrive(l) => ArriveKeeps(s, l);
    case Deliver(m) =>
      match m.body {
        case Hello(_) => HelloKeeps(s, m);
        case Ask(_, _) => AskKeeps(s, m);
        case Answer(_, _) => AnswerKeeps(s, m);
      }
    case Acquire(c) => AcquireKeeps(s, c);
    case NoHello(c) => RefuseKeeps(s, c);
    case Greet(c) => GreetKeeps(s, c);
    case Start(c) => StartKeeps(s, c);
    case Finish(n, q) => ConcludeKeeps(s, n, q, s.nodes[n].queries[q].result.value);
    case Timeout(n, q) => ConcludeKeeps(s, n, q, Unknown);
    case Act(c) => ActKeeps(s, c);
    case Release(c) => ReleaseKeeps(s, c);
    case Lose(c) => LoseKeeps(s, c);
    case GiveUp(c) => GiveUpKeeps(s, c);
    case Close(n) => CloseKeeps(s, n);
  }

  ghost predicate GuardedRun(trace: seq<State>, events: seq<Event>) {
    && Run(trace, events)
    && forall i :: 0 <= i < |events| ==> HelloFirst(trace[i], events[i]) && NoQueryBetween(trace[i], events[i])
  }

  lemma {:induction false} Invariant(trace: seq<State>, events: seq<Event>, i: nat)
    requires GuardedRun(trace, events) && i < |trace|
    ensures Inv(trace[i])
  {
    if i > 0 {
      Invariant(trace, events, i - 1);
      StepKeeps(trace[i - 1], events[i - 1]);
      assert trace[i - 1 + 1] == Step(trace[i - 1], events[i - 1]);
    }
  }

  lemma InvMeansForest(s: State)
    requires Inv(s)
    ensures Forest(ActiveLinks(s))
  {
    var E := ActiveLinks(s);
    forall l | l in E ensures InPlay(s, l) && l in s.stamp && s.stamp[l] < |s.asks| && s.asks[s.stamp[l]] == l {
      assert LinkOk(s, l) && InPlay(s, l);
    }
    var rank := map l | l in E :: s.stamp[l];
    forall l | l in E ensures !Connected(Below(E, rank, rank[l]), l.a, l.b) {
      assert LinkOk(s, l) && InPlay(s, l);
      if Connected(Below(E, rank, rank[l]), l.a, l.b) {
        Monotone(Below(E, rank, rank[l]), Earlier(s, s.stamp[l]), l.a, l.b);
      }
    }
    OrderedForest(E, rank);
  }

  /** The nodes always form a forest: however checks by any number of nodes interleave, with
      any delays, retries, timeouts, losses and closes, as long as both guards are kept. */
  lemma ActiveLinksFormForest(trace: seq<State>, events: seq<Event>, i: nat)
    requires GuardedRun(trace, events) && i < |trace|
    ensures Forest(ActiveLinks(trace[i]))
  {
    Invariant(trace, events, i);
    InvMeansForest(trace[i]);
  }

  lemma SentStays(s: State, e: Event)
    requires Enabled(s, e)
    ensures s.net <= Step(s, e).net && |s.asks| <= |Step(s, e).asks|
    ensures Step(s, e).asks[..|s.asks|] == s.asks
  {
  }

  lemma {:induction false} SentForever(trace: seq<State>, events: seq<Event>, i: nat, j: nat)
    requires Run(trace, events) && i <= j < |trace|
    ensures trace[i].net <= trace[j].net
    decreases j
  {
    if i < j {
      var h := j - 1;
      SentForever(trace, events, i, h);
      assert Enabled(trace[h], events[h]) && trace[h + 1] == Step(trace[h], events[h]);
      SentStays(trace[h], events[h]);
    }
  }

  lemma {:induction false} ShrinksForever(trace: seq<State>, events: seq<Event>, i: nat, j: nat)
    requires GuardedRun(trace, events) && i <= j < |trace|
    ensures Shrinks(trace[i], trace[j])
    decreases j
  {
    if i < j {
      var h := j - 1;
      ShrinksForever(trace, events, i, h);
      Invariant(trace, events, h);
      assert Enabled(trace[h], events[h]) && trace[h + 1] == Step(trace[h], events[h]);
      StepKeeps(trace[h], events[h]);
      ShrinksOn(trace[i], trace[h], trace[j]);
    }
  }

  lemma ShrinksOn(s: State, s': State, s'': State)
    requires Shrinks(s, s') && Shrinks(s', s'')
    ensures Shrinks(s, s'')
  {
  }

  /** No path of earlier links leads from the node that answers on `c` to the target of `q`,
      without the link they talk over. */
  ghost predicate CutOff(s: State, q: QueryId, c: Conn)
    requires q < |s.asks|
  {
    !Connected(Earlier(s, q) - {c.link}, c.Peer().Node(), s.asks[q].b)
  }

  lemma CutOffKept(s: State, s': State, q: QueryId, c: Conn)
    requires Shrinks(s, s') && q < |s.asks| && CutOff(s, q, c)
    ensures CutOff(s', q, c)
  {
    if !CutOff(s', q, c) {
      Monotone(Earlier(s', q) - {c.link}, Earlier(s, q) - {c.link}, c.Peer().Node(), s.asks[q].b);
    }
  }

  /** The event sends "not found" for `q` to `c`, over a connection its node uses. */
  ghost predicate AnswersNotFound(s: State, e: Event, q: QueryId, c: Conn)
    requires Enabled(s, e)
  {
    && Msg(c, Answer(q, NotFound)) in React(s.nodes[At(e)], e, |s.asks|).1
    && c.Peer() !in s.nodes[At(e)].pending
  }

  lemma AskedCutOff(s: State, m: Msg, c: Conn, q: QueryId)
    requires Inv(s) && Enabled(s, Deliver(m)) && NoQueryBetween(s, Deliver(m)) && AnswersNotFound(s, Deliver(m), q, c)
    ensures q < |s.asks| && CutOff(s, q, c)
  {
    var n, source := m.to.Node(), m.to;
    assert MsgOk(s, m) && m.body.Ask?;
    assert c == source.Peer() && c.Peer() == source && q == m.body.query;
    ForwardCovers(s, n, q, source);
    AllNotFound(s, n, q, Forward(source), {});
  }

  lemma ConcludedCutOff(s: State, n: NodeId, q: QueryId, r: Result, k: QueryId, c: Conn)
    requires Inv(s) && n in s.nodes && q in s.nodes[n].queries && MayConclude(s.nodes[n].queries[q], r)
    requires Msg(c, Answer(k, NotFound)) in Conclude(s.nodes[n], q, r).1
    ensures k < |s.asks| && CutOff(s, k, c)
  {
    var Q := s.nodes[n].queries[q];
    assert QueryOk(s, n, s.nodes[n], q, Q);
    assert k == q && r == NotFound && Q.origin.Forward? && c == Q.origin.source.Peer() && c.Peer() == Q.origin.source;
    AllNotFound(s, n, q, Q.origin, Q.targets);
  }

  lemma AnswerCutsOff(s: State, e: Event, q: QueryId, c: Conn)
    requires Inv(s) && Enabled(s, e) && NoQueryBetween(s, e) && AnswersNotFound(s, e, q, c)
    ensures q < |s.asks| && CutOff(s, q, c)
  {
    var nd := s.nodes[At(e)];
    match e
    case Deliver(m) => AskedCutOff(s, m, c, q);
    case Finish(n, k) => ConcludedCutOff(s, n, k, nd.queries[k].result.value, q, c);
    case Timeout(n, k) => ConcludedCutOff(s, n, k, Unknown, q, c);
    case _ =>
  }

  /** Once `x` has answered "not found" to `y` for query `q`, over a connection that is not pending
      at `x` when it answers, then in every later state no path of links in play whose check
      started before `q` did leads from `x` to the target of `q` without the link between them. */
  lemma NotFoundIsForGood(trace: seq<State>, events: seq<Event>, i: nat, j: nat, q: QueryId, c: Conn)
    requires GuardedRun(trace, events) && i < |events| && i < j < |trace|
    requires Enabled(trace[i], events[i]) && AnswersNotFound(trace[i], events[i], q, c)
    ensures q < |trace[j].asks| && CutOff(trace[j], q, c)
  {
    Invariant(trace, events, i);
    AnswerCutsOff(trace[i], events[i], q, c);
    ShrinksForever(trace, events, i, j);
    CutOffKept(trace[i], trace[j], q, c);
  }

  /** An answer on a connection pending at `x` says as much only while the link itself is one of
      those earlier links. That holds of every answer ever sent. */
  lemma PendingNotFoundIsForGood(trace: seq<State>, events: seq<Event>, i: nat, j: nat, c: Conn, q: QueryId)
    requires GuardedRun(trace, events) && i <= j < |trace| && Msg(c, Answer(q, NotFound)) in trace[i].net
    ensures q < |trace[j].asks| && (c.link in Earlier(trace[j], q) ==> CutOff(trace[j], q, c))
  {
    SentForever(trace, events, i, j);
    Invariant(trace, events, j);
    assert MsgOk(trace[j], Msg(c, Answer(q, NotFound)));
  }
}
