/** Publishing on a quiet bus: every interested client gets each publish once, nobody else does. */
module Delivery {
  import opened Links
  import opened Subjects
  import opened Routing
  import opened RoutingInvariant
  import opened Trees
  import opened Quiescence

  // --- counting what is in flight ------------------------------------------------------

  type Count = Conn -> nat

  ghost function Weighed(count: Count, w: Conn -> int): Conn -> int {
    c => count(c) * w(c)
  }

  /** One message less on `c`, one more on each connection of `P`. */
  ghost predicate Bumped(count: Count, count': Count, C: set<Conn>, c: Conn, P: set<Conn>) {
    forall x :: x in C ==> count'(x) == count(x) - (if x == c then 1 else 0) + (if x in P then 1 else 0)
  }

  lemma SumBumped(count: Count, count': Count, C: set<Conn>, c: Conn, P: set<Conn>, w: Conn -> int)
    requires Bumped(count, count', C, c, P) && c in C && P <= C
    ensures Sum(C, Weighed(count', w)) == Sum(C, Weighed(count, w)) - w(c) + Sum(P, w)
  {
    forall x | x in C ensures Weighed(count', w)(x) == Weighed(count, w)(x) + Change(c, P, w)(x) {
      WeighedChange(count, count', C, c, P, w, x);
    }
    SumPlus(C, Weighed(count, w), Change(c, P, w), Weighed(count', w));
    SumPlus(C, Only({c}, Minus(w)), Only(P, w), Change(c, P, w));
    SumSupport(C, {c}, Only({c}, Minus(w)), Minus(w));
    SumPick({c}, Minus(w), c);
    assert {c} - {c} == {};
    SumSupport(C, P, Only(P, w), w);
  }

  /** One message more on `p`. */
  ghost predicate Raised(count: Count, count': Count, C: set<Conn>, p: Conn) {
    forall x :: x in C ==> count'(x) == count(x) + if x == p then 1 else 0
  }

  lemma SumRaised(count: Count, count': Count, C: set<Conn>, p: Conn, w: Conn -> int)
    requires Raised(count, count', C, p) && p in C
    ensures Sum(C, Weighed(count', w)) == Sum(C, Weighed(count, w)) + w(p)
  {
    forall x | x in C ensures Weighed(count', w)(x) == Weighed(count, w)(x) + Only({p}, w)(x) {
      Distribute(count(x), if x == p then 1 else 0, w(x));
    }
    SumPlus(C, Weighed(count, w), Only({p}, w), Weighed(count', w));
    SumSupport(C, {p}, Only({p}, w), w);
    SumPick({p}, w, p);
    assert {p} - {p} == {};
  }

  ghost function Minus(w: Conn -> int): Conn -> int {
    x => -w(x)
  }

  ghost function Only(S: set<Conn>, w: Conn -> int): Conn -> int {
    x => if x in S then w(x) else 0
  }

  ghost function Change(c: Conn, P: set<Conn>, w: Conn -> int): Conn -> int {
    x => Only({c}, Minus(w))(x) + Only(P, w)(x)
  }

  lemma Distribute(n: int, d: int, w: int)
    ensures (n + d) * w == n * w + d * w
  {
  }

  lemma WeighedChange(count: Count, count': Count, C: set<Conn>, c: Conn, P: set<Conn>, w: Conn -> int, x: Conn)
    requires Bumped(count, count', C, c, P) && x in C
    ensures Weighed(count', w)(x) == Weighed(count, w)(x) + Change(c, P, w)(x)
  {
    var d := (if x in P then 1 else 0) - if x == c then 1 else 0;
    assert count'(x) == count(x) + d;
    Distribute(count(x), d, w(x));
    assert Only({c}, Minus(w))(x) == if x == c then -w(x) else 0;
    assert Only(P, w)(x) == if x in P then w(x) else 0;
  }

  ghost function Ends(E: set<Link>): set<Conn> {
    (set l | l in E :: Conn(l, true)) + (set l | l in E :: Conn(l, false))
  }

  lemma EndsAre(E: set<Link>, c: Conn)
    ensures c in Ends(E) <==> c.link in E
  {
    assert c == Conn(c.link, c.up);
  }

  // --- where a message is passed on ------------------------------------------------------

  /** The publish/subscribe layer routes a publish by its tags; the base layer floods it. */
  datatype Rule = Routed(subject: Subject) | Flooded

  ghost function Targets(rule: Rule, r: Router, source: Conn): set<Conn> {
    match rule
    case Routed(subject) => r.Matching(subject) - {source}
    case Flooded => r.conns - {source}
  }

  /** The chosen connections that are still there. */
  ghost function Chosen(rule: Rule, r: Router, source: Conn): set<Conn> {
    Targets(rule, r, source) * r.conns
  }

  /** The connections a message goes out on towards, when it arrives on `c`. */
  ghost function Passed(net: Net, rule: Rule, c: Conn): set<Conn> {
    if AtRouter(net, c) then set d | d in Chosen(rule, net.routers[c.Node()], c) :: d.Peer() else {}
  }

  ghost predicate Interested(net: Net, rule: Rule, k: NodeId) {
    match rule
    case Routed(subject) => exists s :: Subscribed(net, k, s) && Match(subject, s)
    case Flooded => true
  }

  /** A client that is interested, or a node with a stale tag that matches. */
  ghost predicate Attracts(net: Net, rule: Rule, k: NodeId) {
    Interested(net, rule, k) || (rule.Routed? && exists s :: Stale(net, k, s) && Match(rule.subject, s))
  }

  lemma PassedIs(net: Net, rule: Rule, c: Conn, x: Conn)
    requires AtRouter(net, c)
    ensures x in Passed(net, rule, c) <==> x.Peer() in Chosen(rule, net.routers[c.Node()], c)
  {
    assert x.Peer().Peer() == x;
  }

  lemma MatchingIs(r: Router, subject: Subject, d: Conn)
    ensures d in r.Matching(subject) <==> exists s :: Tag(d, s) in r.tags && Match(subject, s)
  {
    if d in r.Matching(subject) {
      var t :| t in r.tags && Match(subject, t.subject) && t.conn == d;
      assert t == Tag(d, t.subject);
    }
    if s :| Tag(d, s) in r.tags && Match(subject, s) {
      assert Tag(d, s).conn == d;
    }
  }

  lemma ChosenOnward(net: Net, rule: Rule, c: Conn, d: Conn)
    requires Settled(net) && AtRouter(net, c) && Listed(net, c)
    requires d in Chosen(rule, net.routers[c.Node()], c)
    ensures Onward(LiveLinks(net), c, d)
  {
    OnwardIsListed(net, c, d);
  }

  lemma PassedOnward(net: Net, rule: Rule, c: Conn)
    requires Settled(net) && Listed(net, c)
    ensures AllOnward(LiveLinks(net), c, Passed(net, rule, c))
    ensures Passed(net, rule, c) <= Ends(LiveLinks(net))
  {
    forall x | x in Passed(net, rule, c) ensures Onward(LiveLinks(net), c, x.Peer()) && x in Ends(LiveLinks(net)) {
      PassedIs(net, rule, c, x);
      ChosenOnward(net, rule, c, x.Peer());
      EndsAre(LiveLinks(net), x);
    }
  }

  lemma TagAttracts(net: Net, subject: Subject, n: NodeId, d: Conn, s: Subject) returns (k: NodeId)
    requires Quiet(net) && n in net.routers && d in net.routers[n].conns
    requires Tag(d, s) in net.routers[n].tags && Match(subject, s)
    ensures k in Ahead(LiveLinks(net), Nodes(net), d.Peer()) && Attracts(net, Routed(subject), k)
  {
    TaggedIff(net, n, d, s);
    k :| k in Ahead(LiveLinks(net), Nodes(net), d.Peer()) && (Subscribed(net, k, s) || Stale(net, k, s));
  }

  lemma AttractsTag(net: Net, subject: Subject, n: NodeId, d: Conn, k: NodeId) returns (s: Subject)
    requires Quiet(net) && n in net.routers && d in net.routers[n].conns
    requires k in Ahead(LiveLinks(net), Nodes(net), d.Peer()) && Attracts(net, Routed(subject), k)
    ensures Tag(d, s) in net.routers[n].tags && Match(subject, s)
  {
    s := Attraction(net, subject, k);
    assert SubscribedAhead(net, d.Peer(), s) || StaleAhead(net, d.Peer(), s);
    TaggedIff(net, n, d, s);
  }

  lemma Attraction(net: Net, subject: Subject, k: NodeId) returns (s: Subject)
    requires Attracts(net, Routed(subject), k)
    ensures (Subscribed(net, k, s) || Stale(net, k, s)) && Match(subject, s)
  {
    if Interested(net, Routed(subject), k) {
      s :| Subscribed(net, k, s) && Match(subject, s);
    } else {
      s :| Stale(net, k, s) && Match(subject, s);
    }
  }

  /** A connection is chosen exactly when beyond it lies an interested client or a stale tag. */
  lemma ChosenIff(net: Net, rule: Rule, c: Conn, d: Conn)
    requires Quiet(net) && AtRouter(net, c) && Listed(net, c) && Onward(LiveLinks(net), c, d)
    requires rule.Routed?
    ensures d in Chosen(rule, net.routers[c.Node()], c) <==>
            exists k :: k in Ahead(LiveLinks(net), Nodes(net), d.Peer()) && Attracts(net, rule, k)
  {
    var n, r := c.Node(), net.routers[c.Node()];
    OnwardIsListed(net, c, d);
    MatchingIs(r, rule.subject, d);
    if s :| Tag(d, s) in r.tags && Match(rule.subject, s) {
      var k := TagAttracts(net, rule.subject, n, d, s);
    }
    if k :| k in Ahead(LiveLinks(net), Nodes(net), d.Peer()) && Attracts(net, rule, k) {
      var s := AttractsTag(net, rule.subject, n, d, k);
    }
  }

  lemma PassedTowards(net: Net, rule: Rule, c: Conn, k: NodeId, d: Conn)
    requires Quiet(net) && Listed(net, c) && AtRouter(net, c) && Interested(net, rule, k)
    requires Onward(LiveLinks(net), c, d) && k in Ahead(LiveLinks(net), Nodes(net), d.Peer())
    ensures d.Peer() in Passed(net, rule, c)
  {
    if rule.Routed? {
      assert Attracts(net, rule, k);
      ChosenIff(net, rule, c, d);
    } else {
      OnwardIsListed(net, c, d);
    }
    PassedIs(net, rule, c, d.Peer());
    assert d.Peer().Peer() == d;
  }

  lemma PassedAhead(net: Net, rule: Rule, c: Conn, k: NodeId)
    requires Quiet(net) && Listed(net, c) && AtRouter(net, c) && k in net.clients && Interested(net, rule, k)
    requires c.link in LiveLinks(net)
    ensures (exists x :: x in Passed(net, rule, c) && k in Ahead(LiveLinks(net), Nodes(net), x))
            <==> k in Ahead(LiveLinks(net), Nodes(net), c)
  {
    var E, V := LiveLinks(net), Nodes(net);
    if k in Ahead(E, V, c) {
      assert k != c.Node();
      var d := SomeSubtree(E, V, c, k);
      PassedTowards(net, rule, c, k, d);
    } else {
      PassedOnward(net, rule, c);
      OnlySubtree(E, V, c, k);
      forall x | x in Passed(net, rule, c) ensures k !in Ahead(E, V, x) {
        assert x.Peer().Peer() == x;
      }
    }
  }

  /** A copy goes towards an interested client from wherever it lies ahead, once. */
  lemma PassedOnce(net: Net, rule: Rule, c: Conn, k: NodeId)
    requires Quiet(net) && Listed(net, c) && AtRouter(net, c) && k in net.clients && Interested(net, rule, k)
    ensures Sum(Passed(net, rule, c), Finds(LiveLinks(net), Nodes(net), k)) == Finds(LiveLinks(net), Nodes(net), k)(c)
  {
    LiveEnds(net, c);
    PassedOnward(net, rule, c);
    FoundOnce(LiveLinks(net), Nodes(net), c, Passed(net, rule, c), k);
    PassedAhead(net, rule, c, k);
  }

  // --- publishes in flight ---------------------------------------------------------------

  /** How many copies of a message are on their way to each connection, and how many each client
      got. */
  datatype Flight = Flight(flying: map<Conn, nat>, got: map<NodeId, nat>)

  ghost function Flying(f: Flight): Count {
    c => if c in f.flying then f.flying[c] else 0
  }

  ghost predicate FlightOk(net: Net, f: Flight) {
    f.flying.Keys == Ends(LiveLinks(net)) && f.got.Keys == net.clients
  }

  ghost function Nothing(net: Net): Flight {
    Flight(map c | c in Ends(LiveLinks(net)) :: 0, map k | k in net.clients :: 0)
  }

  /** A copy arrives on `conn`; a client publishes the message on `conn`; or something else happens,
      such as a step of another message. */
  datatype Move = Arrival(conn: Conn) | Publishing(conn: Conn) | Elsewhere

  /** A copy arrives on `c`: a node passes it on, a client has got it. */
  ghost predicate Arrives(net: Net, rule: Rule, f: Flight, c: Conn, f': Flight) {
    && FlightOk(net, f) && FlightOk(net, f')
    && c in f.flying && f.flying[c] > 0
    && Bumped(Flying(f), Flying(f'), Ends(LiveLinks(net)), c, Passed(net, rule, c))
    && f'.got == if c.Node() in net.clients then f.got[c.Node() := f.got[c.Node()] + 1] else f.got
  }

  ghost predicate Launches(net: Net, f: Flight, from: Conn, f': Flight) {
    && FlightOk(net, f) && FlightOk(net, f') && from in net.clientConns && f'.got == f.got
    && Raised(Flying(f), Flying(f'), Ends(LiveLinks(net)), from.Peer())
  }

  ghost predicate Moves(net: Net, rule: Rule, f: Flight, move: Move, f': Flight) {
    match move
    case Arrival(c) => Arrives(net, rule, f, c, f')
    case Publishing(from) => Launches(net, f, from, f')
    case Elsewhere => f' == f
  }

  ghost predicate Flies(net: Net, rule: Rule, flights: seq<Flight>, moves: seq<Move>) {
    && |flights| == |moves| + 1
    && flights[0] == Nothing(net)
    && forall i :: 0 <= i < |moves| ==> Moves(net, rule, flights[i], moves[i], flights[i + 1])
  }

  ghost predicate Landed(f: Flight) {
    forall c :: c in f.flying ==> f.flying[c] == 0
  }

  /** Who published, in order. */
  function Publishers(moves: seq<Move>): seq<Conn> {
    if moves == [] then []
    else var last := moves[|moves| - 1];
         Publishers(moves[..|moves| - 1]) + if last.Publishing? then [last.conn] else []
  }

  /** What client `k` has got and is still due. */
  ghost function Due(net: Net, rule: Rule, f: Flight, k: NodeId): int
    requires k in f.got
  {
    f.got[k] + if Interested(net, rule, k)
               then Sum(Ends(LiveLinks(net)), Weighed(Flying(f), Finds(LiveLinks(net), Nodes(net), k)))
               else 0
  }

  /** A copy about to reach a client reaches an interested one. */
  ghost predicate Justified(net: Net, rule: Rule, f: Flight) {
    forall c :: c in f.flying && f.flying[c] > 0 && c.Node() in net.clients ==> Interested(net, rule, c.Node())
  }

  /** A node passes a copy on to a client only if it is interested. */
  lemma PassedToInterested(net: Net, rule: Rule, c: Conn, x: Conn)
    requires Quiet(net) && Listed(net, c) && x in Passed(net, rule, c) && x.Node() in net.clients
    ensures Interested(net, rule, x.Node())
  {
    if rule.Routed? {
      PassedIs(net, rule, c, x);
      ChosenOnward(net, rule, c, x.Peer());
      ChosenIff(net, rule, c, x.Peer());
      assert x.Peer().Peer() == x;
      LiveEnds(net, x);
      OnlyItself(net, x);
    }
  }

  lemma JustifiedKept(net: Net, rule: Rule, f: Flight, c: Conn, f': Flight)
    requires Quiet(net) && Listed(net, c) && Arrives(net, rule, f, c, f') && Justified(net, rule, f)
    ensures Justified(net, rule, f')
  {
    forall x | x in f'.flying && f'.flying[x] > 0 && x.Node() in net.clients ensures Interested(net, rule, x.Node()) {
      CopyIsOldOrPassed(net, rule, f, c, f', x);
      if f.flying[x] == 0 {
        PassedToInterested(net, rule, c, x);
      }
    }
  }

  lemma CopyIsOldOrPassed(net: Net, rule: Rule, f: Flight, c: Conn, f': Flight, x: Conn)
    requires Arrives(net, rule, f, c, f') && x in f'.flying && f'.flying[x] > 0
    ensures x in f.flying && (f.flying[x] > 0 || x in Passed(net, rule, c))
  {
    assert Flying(f')(x) == f'.flying[x] && Flying(f)(x) == f.flying[x];
  }

  lemma FlyingListed(net: Net, f: Flight, c: Conn)
    requires Settled(net) && FlightOk(net, f) && c in f.flying
    ensures Listed(net, c) && c in Ends(LiveLinks(net))
    ensures AtRouter(net, c) <==> c.Node() !in net.clients
  {
    EndsAre(LiveLinks(net), c);
    LiveEnds(net, c);
    ListedMade(net, c);
  }

  /** What a copy arriving on `c` takes from the copies due to `k`, its successors or the
      client's own count give back. */
  lemma DueMoves(net: Net, rule: Rule, c: Conn, k: NodeId)
    requires Quiet(net) && Listed(net, c) && k in net.clients && Interested(net, rule, k)
    requires AtRouter(net, c) <==> c.Node() !in net.clients
    ensures var w := Finds(LiveLinks(net), Nodes(net), k);
            Sum(Passed(net, rule, c), w) - w(c) == if c.Node() == k then -1 else 0
  {
    if AtRouter(net, c) {
      PassedOnce(net, rule, c, k);
    } else {
      OnlyItself(net, c);
      assert Passed(net, rule, c) == {};
    }
  }

  lemma DueSums(net: Net, rule: Rule, f: Flight, c: Conn, f': Flight, k: NodeId)
    requires Arrives(net, rule, f, c, f') && k in net.clients && Interested(net, rule, k)
    requires c in Ends(LiveLinks(net)) && Passed(net, rule, c) <= Ends(LiveLinks(net))
    requires var w := Finds(LiveLinks(net), Nodes(net), k);
             Sum(Passed(net, rule, c), w) - w(c) == if c.Node() == k then -1 else 0
    ensures Due(net, rule, f', k) == Due(net, rule, f, k)
  {
    SumBumped(Flying(f), Flying(f'), Ends(LiveLinks(net)), c, Passed(net, rule, c),
              Finds(LiveLinks(net), Nodes(net), k));
  }

  ghost predicate Balanced(net: Net, rule: Rule, c: Conn, k: NodeId) {
    && c in Ends(LiveLinks(net)) && Passed(net, rule, c) <= Ends(LiveLinks(net))
    && (Interested(net, rule, k) ==>
          var w := Finds(LiveLinks(net), Nodes(net), k);
          Sum(Passed(net, rule, c), w) - w(c) == if c.Node() == k then -1 else 0)
  }

  lemma ArrivalBalanced(net: Net, rule: Rule, f: Flight, c: Conn, k: NodeId)
    requires Quiet(net) && FlightOk(net, f) && c in f.flying && k in net.clients
    ensures Listed(net, c) && Balanced(net, rule, c, k)
  {
    FlyingListed(net, f, c);
    PassedOnward(net, rule, c);
    if Interested(net, rule, k) {
      DueMoves(net, rule, c, k);
    }
  }

  /** Every arrival moves what is due, and neither adds to it nor loses any. */
  lemma DueKept(net: Net, rule: Rule, f: Flight, c: Conn, f': Flight, k: NodeId)
    requires Balanced(net, rule, c, k) && Arrives(net, rule, f, c, f') && Justified(net, rule, f) && k in net.clients
    ensures Due(net, rule, f', k) == Due(net, rule, f, k)
  {
    if Interested(net, rule, k) {
      DueSums(net, rule, f, c, f', k);
    } else {
      assert c.Node() != k;
    }
  }

  /** What a client gets of one publish: a copy if it is interested and lies ahead. */
  ghost function Owed(net: Net, rule: Rule, from: Conn, k: NodeId): int {
    if Interested(net, rule, k) && k in Ahead(LiveLinks(net), Nodes(net), from.Peer()) then 1 else 0
  }

  /** What a client gets of several. */
  ghost function OwedAll(net: Net, rule: Rule, from: seq<Conn>, k: NodeId): int {
    if from == [] then 0
    else OwedAll(net, rule, from[..|from| - 1], k) + Owed(net, rule, from[|from| - 1], k)
  }

  ghost predicate FlightInv(net: Net, rule: Rule, f: Flight, k: NodeId, due: int) {
    FlightOk(net, f) && Justified(net, rule, f) && k in f.got && Due(net, rule, f, k) == due
  }

  lemma ArrivalStep(net: Net, rule: Rule, f: Flight, c: Conn, f': Flight, k: NodeId, due: int)
    requires Quiet(net) && FlightInv(net, rule, f, k, due) && Arrives(net, rule, f, c, f')
    ensures FlightInv(net, rule, f', k, due)
  {
    ArrivalBalanced(net, rule, f, c, k);
    JustifiedKept(net, rule, f, c, f');
    DueKept(net, rule, f, c, f', k);
  }

  /** A client's messages go to a node, not to a client. */
  lemma LaunchAt(net: Net, from: Conn)
    requires Quiet(net) && from in net.clientConns
    ensures from.Peer() in Ends(LiveLinks(net)) && from.Peer().Node() !in net.clients
  {
    assert Listed(net, from) && Listed(net, from.Peer());
    ListedMade(net, from);
    assert LinkOk(net, from.link);
    LiveEnds(net, from.Peer());
    EndsAre(LiveLinks(net), from.Peer());
  }

  lemma LaunchDue(net: Net, rule: Rule, f: Flight, from: Conn, f': Flight, k: NodeId)
    requires Launches(net, f, from, f') && from.Peer() in Ends(LiveLinks(net)) && k in net.clients
    ensures Due(net, rule, f', k) == Due(net, rule, f, k) + Owed(net, rule, from, k)
  {
    SumRaised(Flying(f), Flying(f'), Ends(LiveLinks(net)), from.Peer(), Finds(LiveLinks(net), Nodes(net), k));
  }

  lemma LaunchJustified(net: Net, rule: Rule, f: Flight, from: Conn, f': Flight)
    requires Launches(net, f, from, f') && from.Peer().Node() !in net.clients && Justified(net, rule, f)
    ensures Justified(net, rule, f')
  {
    forall x | x in f'.flying && f'.flying[x] > 0 && x.Node() in net.clients ensures f.flying[x] > 0 {
      assert Flying(f')(x) == f'.flying[x] && Flying(f)(x) == f.flying[x];
    }
  }

  lemma LaunchStep(net: Net, rule: Rule, f: Flight, from: Conn, f': Flight, k: NodeId, due: int)
    requires Quiet(net) && FlightInv(net, rule, f, k, due) && Launches(net, f, from, f')
    ensures FlightInv(net, rule, f', k, due + Owed(net, rule, from, k))
  {
    LaunchAt(net, from);
    LaunchDue(net, rule, f, from, f', k);
    LaunchJustified(net, rule, f, from, f');
  }

  lemma NothingDue(net: Net, rule: Rule, k: NodeId)
    requires k in net.clients
    ensures FlightInv(net, rule, Nothing(net), k, 0)
  {
    var f := Nothing(net);
    SumZero(Ends(LiveLinks(net)), Weighed(Flying(f), Finds(LiveLinks(net), Nodes(net), k)));
  }

  lemma MoveStep(net: Net, rule: Rule, f: Flight, move: Move, f': Flight, k: NodeId, due: int)
    requires Quiet(net) && FlightInv(net, rule, f, k, due) && Moves(net, rule, f, move, f')
    ensures FlightInv(net, rule, f', k, due + if move.Publishing? then Owed(net, rule, move.conn, k) else 0)
  {
    match move
    case Arrival(c) => ArrivalStep(net, rule, f, c, f', k, due);
    case Publishing(from) => LaunchStep(net, rule, f, from, f', k, due);
    case Elsewhere =>
  }

  lemma PublishersNext(moves: seq<Move>, j: nat)
    requires j < |moves|
    ensures Publishers(moves[..j + 1])
            == Publishers(moves[..j]) + if moves[j].Publishing? then [moves[j].conn] else []
  {
    assert moves[..j + 1][..j] == moves[..j];
  }

  lemma OwedMore(net: Net, rule: Rule, moves: seq<Move>, i: nat, k: NodeId)
    requires i < |moves|
    ensures OwedAll(net, rule, Publishers(moves[..i + 1]), k)
            == OwedAll(net, rule, Publishers(moves[..i]), k)
               + if moves[i].Publishing? then Owed(net, rule, moves[i].conn, k) else 0
  {
    var before := Publishers(moves[..i]);
    PublishersNext(moves, i);
    if moves[i].Publishing? {
      assert (before + [moves[i].conn])[..|before|] == before;
    } else {
      assert before + [] == before;
    }
  }

  ghost predicate MovesKeep(net: Net, rule: Rule, k: NodeId) {
    forall f, move, f', due :: FlightInv(net, rule, f, k, due) && Moves(net, rule, f, move, f') ==>
      FlightInv(net, rule, f', k, due + if move.Publishing? then Owed(net, rule, move.conn, k) else 0)
  }

  lemma QuietMovesKeep(net: Net, rule: Rule, k: NodeId)
    requires Quiet(net)
    ensures MovesKeep(net, rule, k)
  {
    forall f, move, f', due | FlightInv(net, rule, f, k, due) && Moves(net, rule, f, move, f')
      ensures FlightInv(net, rule, f', k, due + if move.Publishing? then Owed(net, rule, move.conn, k) else 0)
    {
      MoveStep(net, rule, f, move, f', k, due);
    }
  }

  lemma {:induction false} DueAlways(net: Net, rule: Rule, flights: seq<Flight>, moves: seq<Move>, k: NodeId, i: nat)
    requires MovesKeep(net, rule, k) && Flies(net, rule, flights, moves) && k in net.clients && i <= |moves|
    ensures FlightInv(net, rule, flights[i], k, OwedAll(net, rule, Publishers(moves[..i]), k))
  {
    if i == 0 {
      NothingDue(net, rule, k);
    } else {
      var j := i - 1;
      DueAlways(net, rule, flights, moves, k, j);
      assert Moves(net, rule, flights[j], moves[j], flights[j + 1]);
      OwedMore(net, rule, moves, j, k);
    }
  }

  /** However many clients publish and however the copies travel: once everything has arrived, each
      client has one copy of each publish whose sender has it ahead, if it has a matching
      subscription, however many match, and else none. */
  lemma ExactlyOnce(net: Net, rule: Rule, flights: seq<Flight>, moves: seq<Move>, k: NodeId)
    requires Quiet(net) && Flies(net, rule, flights, moves) && k in net.clients && Landed(flights[|moves|])
    ensures k in flights[|moves|].got
    ensures flights[|moves|].got[k] == OwedAll(net, rule, Publishers(moves), k)
  {
    var f := flights[|moves|];
    QuietMovesKeep(net, rule, k);
    DueAlways(net, rule, flights, moves, k, |moves|);
    assert moves[..|moves|] == moves;
    SumZero(Ends(LiveLinks(net)), Weighed(Flying(f), Finds(LiveLinks(net), Nodes(net), k)));
  }

  /** A publish never comes back to the client that sent it. */
  lemma NeverBack(net: Net, from: Conn)
    requires Quiet(net) && from in net.clientConns
    ensures from.Node() !in Ahead(LiveLinks(net), Nodes(net), from.Peer())
  {
    assert Listed(net, from);
    LiveEnds(net, from);
    CutOff(LiveLinks(net), from.Peer());
  }

  lemma {:induction false} OwedFiltered(net: Net, subject: Subject, from: seq<Conn>, k: NodeId)
    ensures OwedAll(net, Routed(subject), from, k)
            == if Interested(net, Routed(subject), k) then OwedAll(net, Flooded, from, k) else 0
  {
    if from != [] {
      OwedFiltered(net, subject, from[..|from| - 1], k);
    }
  }

  lemma {:induction false} OwedWithout(net: Net, rule: Rule, from: seq<Conn>, j: nat, k: NodeId)
    requires j < |from|
    ensures OwedAll(net, rule, from, k)
            == OwedAll(net, rule, from[..j] + from[j + 1..], k) + Owed(net, rule, from[j], k)
  {
    var n := |from| - 1;
    if j == n {
      assert from[..j] + from[j + 1..] == from[..n];
    } else {
      OwedWithout(net, rule, from[..n], j, k);
      var rest := from[..j] + from[j + 1..];
      assert rest[..n - 1] == from[..n][..j] + from[..n][j + 1..] && rest[n - 1] == from[n];
    }
  }

  /** It does not matter in which order the clients published. */
  lemma {:induction false} OwedInAnyOrder(net: Net, rule: Rule, from: seq<Conn>, from': seq<Conn>, k: NodeId)
    requires multiset(from) == multiset(from')
    ensures OwedAll(net, rule, from, k) == OwedAll(net, rule, from', k)
    decreases |from|
  {
    if from == [] {
      assert |multiset(from')| == 0;
    } else {
      var n := |from| - 1;
      var x := from[n];
      assert from == from[..n] + [x];
      assert x in multiset(from');
      var j :| 0 <= j < |from'| && from'[j] == x;
      Removed(from, n);
      Removed(from', j);
      assert from[..n] + from[n + 1..] == from[..n];
      OwedWithout(net, rule, from', j, k);
      OwedInAnyOrder(net, rule, from[..n], from'[..j] + from'[j + 1..], k);
    }
  }

  lemma Removed(s: seq<Conn>, j: nat)
    requires j < |s|
    ensures multiset(s[..j] + s[j + 1..]) == multiset(s) - multiset{s[j]}
  {
    assert s == s[..j] + [s[j]] + s[j + 1..];
  }

  /** Routing publishes delivers what flooding them and filtering at the clients would. */
  lemma RoutedIsFilteredFlood(net: Net, subject: Subject, k: NodeId,
                              routed: seq<Flight>, r: seq<Move>, flooded: seq<Flight>, f: seq<Move>)
    requires Quiet(net) && k in net.clients && multiset(Publishers(r)) == multiset(Publishers(f))
    requires Flies(net, Routed(subject), routed, r) && Landed(routed[|r|])
    requires Flies(net, Flooded, flooded, f) && Landed(flooded[|f|])
    ensures k in routed[|r|].got && k in flooded[|f|].got
    ensures routed[|r|].got[k] == if Interested(net, Routed(subject), k) then flooded[|f|].got[k] else 0
  {
    ExactlyOnce(net, Routed(subject), routed, r, k);
    ExactlyOnce(net, Flooded, flooded, f, k);
    OwedFiltered(net, subject, Publishers(r), k);
    OwedInAnyOrder(net, Flooded, Publishers(r), Publishers(f), k);
  }
}
