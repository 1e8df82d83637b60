/** The distributed cycle check of the publish/subscribe nodes.

    Each handler of `PubSubNode`, that is the code between two awaits that really suspend,
    is one event. Nodes, links, queries, replies, timeouts, retries, losses and closes may
    interleave in any order, and a message may take any time to arrive. */
module CycleCheck {
  import opened Links
  import opened Results

  type QueryId = nat

  datatype Result = NotFound | Found | Unknown

  const MAX_CHECK_ATTEMPTS: nat := 5

  // --- a query and the replies to it -------------------------------------------

  datatype Origin = Own(conn: Conn) | Forward(source: Conn)

  /** `_Query`, with what the task waiting for its result remembers. */
  datatype Query = Query(origin: Origin, target: NodeId, targets: set<Conn>,
                         waiting: set<Conn>, sawUnknown: bool, result: Option<Result>) {
    /** Record the reply of `c`; late and repeated replies are ignored. */
    function Reply(c: Conn, r: Result): Query {
      if result.Some? || c !in waiting then this
      else if r.Found? then this.(waiting := waiting - {c}, result := Some(Found))
      else
        var left := waiting - {c};
        var unknown := sawUnknown || r.Unknown?;
        this.(waiting := left, sawUnknown := unknown,
              result := if left != {} then None else Some(if unknown then Unknown else NotFound))
    }
  }

  function NewQuery(origin: Origin, target: NodeId, targets: set<Conn>): Query {
    Query(origin, target, targets, targets, false, None)
  }

  // --- a node ---------------------------------------------------------------------

  /** Where the check of an established connection is: waiting for the lock, for the peer's
      Hello, for its next attempt, for the replies of its own query, or past that query with a
      result it has not acted on yet. `Accepted` still holds the lock, until it has drained. */
  datatype Phase =
    | Waiting
    | Greeting
    | Ready(attempt: nat, peer: NodeId)
    | Asking(attempt: nat, peer: NodeId, query: QueryId)
    | Decided(attempt: nat, peer: NodeId, query: QueryId, result: Result)
    | Accepted

  datatype Node = Node(conns: set<Conn>, pending: set<Conn>, peers: map<Conn, NodeId>,
                       queries: map<QueryId, Query>, checking: bool, locked: bool,
                       checks: map<Conn, Phase>, closed: bool) {
    /** The connections a reachability query is sent on. */
    function ActiveNodeConns(): set<Conn> {
      set c | c in conns && c !in pending && c in peers
    }

    /** The state `_forget_connection` leaves once `c` is off its list. */
    function Forget(c: Conn): Node {
      this.(conns := conns - {c}, pending := pending - {c}, peers := peers - {c},
            queries := map q | q in queries :: queries[q].Reply(c, NotFound))
    }

    /** Release the lock and drop the connection: how every refused check ends. */
    function Refuse(c: Conn): Node {
      Forget(c).(locked := false, checks := checks - {c})
    }
  }

  const FRESH_NODE := Node({}, {}, map[], map[], false, false, map[], false)

  datatype Body = Hello(id: NodeId) | Ask(query: QueryId, target: NodeId) | Answer(query: QueryId, result: Result)

  /** A message on its way to the connection `to`. */
  datatype Msg = Msg(to: Conn, body: Body)

  /** What the node can say at once; with None it has to ask others first. */
  function AnswerNow(self: NodeId, nd: Node, source: Conn, q: QueryId, target: NodeId): Option<Result> {
    if source in nd.pending then Some(if nd.checking then Unknown else NotFound)
    else if target == self then Some(Found)
    else if nd.checking then Some(Unknown)
    else if q in nd.queries then Some(Unknown)
    else None
  }

  function HandleQuery(self: NodeId, nd: Node, source: Conn, q: QueryId, target: NodeId): (Node, set<Msg>) {
    match AnswerNow(self, nd, source, q, target)
    case Some(r) => (nd, {Msg(source.Peer(), Answer(q, r))})
    case None =>
      var targets := nd.ActiveNodeConns() - {source};
      if targets == {} then (nd, {Msg(source.Peer(), Answer(q, NotFound))})
      else (nd.(queries := nd.queries[q := NewQuery(Forward(source), target, targets)]),
            set c | c in targets :: Msg(c.Peer(), Ask(q, target)))
  }

  function HandleReply(nd: Node, c: Conn, q: QueryId, r: Result): Node {
    if q in nd.queries then nd.(queries := nd.queries[q := nd.queries[q].Reply(c, r)]) else nd
  }

  /** The task waiting for query `q` goes on with `r`, and forgets the query. */
  function Conclude(nd: Node, q: QueryId, r: Result): (Node, set<Msg>)
    requires q in nd.queries
  {
    var rest := nd.(queries := nd.queries - {q});
    match nd.queries[q].origin
    case Forward(source) =>
      (rest, if source in nd.conns then {Msg(source.Peer(), Answer(q, r))} else {})
    case Own(c) =>
      if c in nd.checks && nd.checks[c].Asking? then
        var p := nd.checks[c];
        (rest.(checking := false, checks := nd.checks[c := Decided(p.attempt, p.peer, q, r)]), {})
      else (rest, {})
  }

  /** What the check does with the peer's Hello, before its first attempt. */
  function Greeted(self: NodeId, nd: Node, c: Conn): Node
    requires c in nd.peers
  {
    var peer := nd.peers[c];
    if peer == self || exists d :: d in nd.ActiveNodeConns() && nd.peers[d] == peer then nd.Refuse(c)
    else nd.(checks := nd.checks[c := Ready(0, peer)])
  }

  /** Start an attempt, as query `q`. Without any node connection the answer is known. */
  function StartAttempt(nd: Node, c: Conn, q: QueryId): (Node, set<Msg>)
    requires c in nd.checks && nd.checks[c].Ready?
  {
    var p := nd.checks[c];
    var targets := nd.ActiveNodeConns();
    if targets == {} then
      (nd.(checks := nd.checks[c := Decided(p.attempt, p.peer, q, NotFound)]), {})
    else
      (nd.(checking := true, checks := nd.checks[c := Asking(p.attempt, p.peer, q)],
           queries := nd.queries[q := NewQuery(Own(c), p.peer, targets)]),
       set d | d in targets :: Msg(d.Peer(), Ask(q, p.peer)))
  }

  /** Act on the result of an attempt. */
  function Decide(nd: Node, c: Conn): Node
    requires c in nd.checks && nd.checks[c].Decided?
  {
    var p := nd.checks[c];
    match p.result
    case Found => nd.Refuse(c)
    case NotFound => nd.(pending := nd.pending - {c}, checks := nd.checks[c := Accepted])
    case Unknown =>
      if p.attempt + 1 < MAX_CHECK_ATTEMPTS
      then nd.(checks := nd.checks[c := Ready(p.attempt + 1, p.peer)])
      else nd.Refuse(c)
  }

  /** The check of a connection that was lost ends, whatever step it is at. */
  function Abort(nd: Node, c: Conn): Node
    requires c in nd.checks
  {
    var p := nd.checks[c];
    var rest := nd.(checks := nd.checks - {c});
    if p.Waiting? then rest
    else if p.Asking? then rest.(locked := false, checking := false, queries := nd.queries - {p.query})
    else rest.(locked := false)
  }

  // --- the system ---------------------------------------------------------------------

  /** All nodes and everything sent so far. A message stays deliverable, so it can arrive late,
      out of order or again; TCP only ever does less. `asks` and `stamp` are history: the link
      of every attempt in the order they started, and the latest attempt of each link. A query
      is identified by its place in `asks`. */
  datatype State = State(nodes: map<NodeId, Node>, net: set<Msg>, made: set<Link>, arrived: set<Link>,
                         asks: seq<Link>, stamp: map<Link, QueryId>)

  datatype Event =
    | Establish(link: Link)
    | Arrive(link: Link)
    | Deliver(msg: Msg)
    | Acquire(conn: Conn)
    | NoHello(conn: Conn)
    | Greet(conn: Conn)
    | Start(conn: Conn)
    | Finish(node: NodeId, query: QueryId)
    | Timeout(node: NodeId, query: QueryId)
    | Act(conn: Conn)
    | Release(conn: Conn)
    | Lose(conn: Conn)
    | GiveUp(conn: Conn)
    | Close(node: NodeId)

  ghost predicate Init(s: State) {
    && (forall n :: n in s.nodes ==> s.nodes[n] == FRESH_NODE)
    && s.net == {} && s.made == {} && s.arrived == {} && s.asks == [] && s.stamp == map[]
  }

  /** Every event happens at one node. */
  function At(e: Event): NodeId {
    match e
    case Establish(l) => l.a
    case Arrive(l) => l.b
    case Deliver(m) => m.to.Node()
    case Finish(n, _) => n
    case Timeout(n, _) => n
    case Close(n) => n
    case _ => e.conn.Node()
  }

  /** What the event needs of its node. */
  predicate Possible(nd: Node, e: Event) {
    match e
    case Establish(_) => !nd.closed
    case Arrive(_) => !nd.closed
    case Deliver(m) => m.to in nd.conns
    case Acquire(c) => c in nd.checks && nd.checks[c].Waiting? && !nd.locked
    case NoHello(c) => c in nd.checks && nd.checks[c].Greeting? && c in nd.pending
    case Greet(c) => c in nd.checks && nd.checks[c].Greeting? && c in nd.pending && c in nd.peers
    case Start(c) => c in nd.checks && nd.checks[c].Ready? && c in nd.pending
    case Finish(_, q) => q in nd.queries && nd.queries[q].result.Some?
    case Timeout(_, q) => q in nd.queries
    case Act(c) => c in nd.checks && nd.checks[c].Decided? && c in nd.pending
    case Release(c) => c in nd.checks && nd.checks[c].Accepted?
    case Lose(c) => c in nd.conns
    case GiveUp(c) => c in nd.checks && !nd.checks[c].Accepted? && c !in nd.pending
    case Close(_) => true
  }

  /** What the node does, and sends. `q` is a fresh query. */
  function React(nd: Node, e: Event, q: QueryId): (Node, set<Msg>)
    requires Possible(nd, e)
  {
    match e
    case Establish(l) =>
      var c := Conn(l, true);
      (nd.(conns := nd.conns + {c}, pending := nd.pending + {c}, checks := nd.checks[c := Waiting]),
       {Msg(c.Peer(), Hello(l.a))})
    case Arrive(l) =>
      var c := Conn(l, false);
      (nd.(conns := nd.conns + {c}), {Msg(c.Peer(), Hello(l.b))})
    case Deliver(m) =>
      (match m.body
       case Hello(id) => (nd.(peers := nd.peers[m.to := id]), {})
       case Ask(k, target) => HandleQuery(At(e), nd, m.to, k, target)
       case Answer(k, r) => (HandleReply(nd, m.to, k, r), {}))
    case Acquire(c) => (nd.(locked := true, checks := nd.checks[c := Greeting]), {})
    case NoHello(c) => (nd.Refuse(c), {})
    case Greet(c) => (Greeted(At(e), nd, c), {})
    case Start(c) => StartAttempt(nd, c, q)
    case Finish(_, k) => Conclude(nd, k, nd.queries[k].result.value)
    case Timeout(_, k) => Conclude(nd, k, Unknown)
    case Act(c) => (Decide(nd, c), {})
    case Release(c) => (nd.(locked := false, checks := nd.checks - {c}), {})
    case Lose(c) => (nd.Forget(c), {})
    case GiveUp(c) => (Abort(nd, c), {})
    case Close(_) => (nd.(conns := {}, pending := {}, peers := map[], queries := map[], closed := true), {})
  }

  /** The link or message exists, and the node can take the event. */
  predicate Enabled(s: State, e: Event) {
    && At(e) in s.nodes && Possible(s.nodes[At(e)], e)
    && match e
       case Establish(l) => l !in s.made && l.b in s.nodes
       case Arrive(l) => l in s.made && l !in s.arrived
       case Deliver(m) => m in s.net
       case _ => true
  }

  function Put(s: State, n: NodeId, nd: Node, out: set<Msg>): State {
    s.(nodes := s.nodes[n := nd], net := s.net + out)
  }

  function Step(s: State, e: Event): State
    requires Enabled(s, e)
  {
    var (nd, out) := React(s.nodes[At(e)], e, |s.asks|);
    var s' := Put(s, At(e), nd, out);
    match e
    case Establish(l) => s'.(made := s.made + {l})
    case Arrive(l) => s'.(arrived := s.arrived + {l})
    case Start(c) => s'.(asks := s.asks + [c.link], stamp := s.stamp[c.link := |s.asks|])
    case _ => s'
  }

  /** Guard (a): the acceptor has processed the establisher's Hello before the establisher
      starts asking. */
  ghost predicate HelloFirst(s: State, e: Event) {
    e.Start? && e.conn.link.b in s.nodes ==>
      var far := s.nodes[e.conn.link.b];
      e.conn.Peer() in far.conns ==> e.conn.Peer() in far.peers
  }

  /** A connection about to be accepted that has not left `pending` yet. */
  predicate Undecided(nd: Node, c: Conn) {
    c in nd.pending && c in nd.checks && nd.checks[c].Decided? && nd.checks[c].result.NotFound?
  }

  /** Guard (b): no query is handled between the own query's result and leaving `pending`. */
  ghost predicate NoQueryBetween(s: State, e: Event) {
    e.Deliver? && e.msg.body.Ask? && At(e) in s.nodes ==>
      forall c :: !Undecided(s.nodes[At(e)], c)
  }

  ghost predicate Run(trace: seq<State>, events: seq<Event>) {
    && |trace| == |events| + 1
    && Init(trace[0])
    && forall i :: 0 <= i < |events| ==> Enabled(trace[i], events[i]) && trace[i + 1] == Step(trace[i], events[i])
  }

  /** The links that are in use at both ends: the establisher has accepted its end. */
  ghost function ActiveLinks(s: State): set<Link> {
    set l | l in s.made && l.a in s.nodes && l.b in s.nodes
            && Conn(l, true) in s.nodes[l.a].conns && Conn(l, true) !in s.nodes[l.a].pending
            && Conn(l, false) in s.nodes[l.b].conns
  }
}
