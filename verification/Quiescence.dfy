/** What the tables say when the bus is quiet: a connection is tagged with a subject exactly when
    some client behind it is subscribed, or some node behind it keeps a stale tag: one of a lost
    connection. Stale tags are exactly those that were kept after their connection was lost. */
module Quiescence {
  import opened Graphs
  import opened Links
  import opened Subjects
  import opened Routing
  import opened RoutingInvariant
  import opened RoutingRuns
  import opened LostTags
  import opened StaleAccount
  import opened FanoutOrder
  import opened Trees

  ghost function Nodes(net: Net): set<NodeId> {
    net.routers.Keys + net.clients
  }

  ghost predicate AllClosed(net: Net) {
    forall c :: c in net.lost.loss ==> net.lost.loss[c].closed
  }

  /** Between nodes, what was told last is what was decided last. */
  ghost predicate InOrder(net: Net) {
    forall c :: Listed(net, c) && AtRouter(net, c) && AtRouter(net, c.Peer()) ==> InOrderAt(net, c)
  }

  /** Every connection is accepted and whole, or closed. */
  ghost predicate Settled(net: Net) {
    && Inv(net)
    && (forall n :: n in net.routers ==> net.routers[n].pending == {} && net.routers[n].held == map[])
    && (forall c :: Listed(net, c) ==> Listed(net, c.Peer()))
    && AllClosed(net) && Forest(LiveLinks(net))
  }

  ghost predicate NothingSent(net: Net) {
    forall c :: Listed(net, c) ==> c in net.chan && net.chan[c] == []
  }

  /** Settled, with nothing on its way, and no decision overtaken by an older one. */
  ghost predicate Quiet(net: Net) {
    Settled(net) && NothingSent(net) && InOrder(net)
  }

  /** The client at `k` is subscribed to `s`. */
  ghost predicate Subscribed(net: Net, k: NodeId, s: Subject) {
    exists c :: c in net.clientConns && c in net.told && c.Node() == k && s in net.told[c]
  }

  /** The node at `k` has a tag for `s` of a connection that it has lost. */
  ghost predicate Stale(net: Net, k: NodeId, s: Subject) {
    k in net.routers && exists d :: d !in net.routers[k].conns && Tag(d, s) in net.routers[k].tags
  }

  // --- the shape of a settled bus ---------------------------------------------------

  lemma ListedMade(net: Net, c: Conn)
    requires Shape(net) && Listed(net, c)
    ensures c.link in net.made && c == Conn(c.link, c.up) && c.Node() in Nodes(net)
    ensures c in net.clientConns ==> c.Node() !in net.routers
  {
    if c !in net.clientConns {
      assert RouterOk(net, c.Node(), net.routers[c.Node()]);
    }
  }

  /** Both ends of a live link are listed, and only those. */
  lemma LiveEnds(net: Net, c: Conn)
    requires Settled(net)
    ensures Listed(net, c) <==> c.link in LiveLinks(net)
  {
    assert c == Conn(c.link, c.up) && c.Peer() == Conn(c.link, !c.up);
    if Listed(net, c) {
      ListedMade(net, c);
    }
  }

  /** A client is a leaf: it has no other connection. */
  lemma ClientIsLeaf(net: Net, c: Conn, d: Conn)
    requires Settled(net) && Listed(net, c) && c.Node() in net.clients
    ensures !Onward(LiveLinks(net), c, d)
    ensures c in net.clientConns
  {
    if Onward(LiveLinks(net), c, d) {
      LiveEnds(net, d);
    }
  }

  lemma OnlyItself(net: Net, c: Conn)
    requires Settled(net) && Listed(net, c) && c.Node() in net.clients
    ensures Ahead(LiveLinks(net), Nodes(net), c) == {c.Node()}
  {
    var E, V := LiveLinks(net), Nodes(net);
    LiveEnds(net, c);
    ListedMade(net, c);
    Reflexive(E - {c.link}, c.Node());
    forall w | w in Ahead(E, V, c) ensures w == c.Node() {
      if w != c.Node() {
        var d := SomeSubtree(E, V, c, w);
        ClientIsLeaf(net, c, d);
      }
    }
  }

  lemma OnwardIsListed(net: Net, c: Conn, d: Conn)
    requires Settled(net) && AtRouter(net, c) && Listed(net, c)
    ensures Onward(LiveLinks(net), c, d) <==> d != c && d in net.routers[c.Node()].conns
  {
    LiveEnds(net, d);
    if d in net.routers[c.Node()].conns {
      assert RouterOk(net, c.Node(), net.routers[c.Node()]);
    }
    if Onward(LiveLinks(net), c, d) {
      assert d !in net.clientConns;
    }
  }

  // --- tags and told agree -----------------------------------------------------------

  lemma TagIsTold(net: Net, c: Conn, s: Subject)
    requires Settled(net) && NothingSent(net) && AtRouter(net, c) && c in net.routers[c.Node()].conns
    ensures c.Peer() in net.told
    ensures Tag(c, s) in net.routers[c.Node()].tags <==> s in net.told[c.Peer()]
  {
    var r := net.routers[c.Node()];
    assert Listed(net, c) && Listed(net, c.Peer());
    ListedMade(net, c);
    assert Joined(net, c) && ReplayOk(net, c);
    assert HeldAt(r, c) + net.chan[c] == [];
    TagsAre(r, c);
  }

  lemma TaggedBeyond(net: Net, c: Conn, s: Subject)
    requires Settled(net) && AtRouter(net, c) && c in net.routers[c.Node()].conns
    ensures c in net.told && c in net.decided
    ensures s in net.decided[c] <==>
            Stale(net, c.Node(), s)
            || exists d :: d in net.routers[c.Node()].conns && d != c && Tag(d, s) in net.routers[c.Node()].tags
  {
    var r := net.routers[c.Node()];
    assert ToldOk(net, r, c);
    assert s in net.decided[c] <==> Wanted(r, c, s);
  }

  ghost predicate SubscribedAhead(net: Net, c: Conn, s: Subject) {
    exists k :: k in Ahead(LiveLinks(net), Nodes(net), c) && Subscribed(net, k, s)
  }

  ghost predicate StaleAhead(net: Net, c: Conn, s: Subject) {
    exists k :: k in Ahead(LiveLinks(net), Nodes(net), c) && Stale(net, k, s)
  }

  /** In a quiet bus whose links form a forest, neighbour `c` is tagged with `s` exactly when in
      the part of the bus behind it a client is subscribed to `s` or a node has a stale tag for it. */
  lemma {:induction false} TaggedIff(net: Net, n: NodeId, c: Conn, s: Subject)
    requires Quiet(net) && n in net.routers && c in net.routers[n].conns
    ensures Tag(c, s) in net.routers[n].tags <==>
            SubscribedAhead(net, c.Peer(), s) || StaleAhead(net, c.Peer(), s)
    decreases |Ahead(LiveLinks(net), Nodes(net), c.Peer())|
  {
    var E, V, p := LiveLinks(net), Nodes(net), c.Peer();
    HomeConn(net, n, c);
    assert Listed(net, c);
    LiveEnds(net, c);
    LiveEnds(net, p);
    ListedMade(net, p);
    TagIsTold(net, c, s);
    if p.Node() in net.clients {
      OnlyItself(net, p);
      ClientIsLeaf(net, p, p);
      ClientTold(net, p, s);
    } else {
      var r := net.routers[p.Node()];
      TaggedBeyond(net, p, s);
      assert InOrderAt(net, p);
      forall d | d in r.conns && d != p
        ensures Tag(d, s) in r.tags <==> SubscribedAhead(net, d.Peer(), s) || StaleAhead(net, d.Peer(), s)
        ensures Onward(E, p, d)
      {
        OnwardIsListed(net, p, d);
        SubtreeSmaller(net, p, d);
        TaggedIff(net, p.Node(), d, s);
      }
      Combine(net, p, s);
      CombineStale(net, p, s);
    }
  }

  lemma SubtreeSmaller(net: Net, p: Conn, d: Conn)
    requires Settled(net) && p.link in LiveLinks(net) && Onward(LiveLinks(net), p, d) && p.Node() in Nodes(net)
    ensures |Ahead(LiveLinks(net), Nodes(net), d.Peer())| < |Ahead(LiveLinks(net), Nodes(net), p)|
  {
    var E, V := LiveLinks(net), Nodes(net);
    SubtreeInside(E, V, p, d);
    Reflexive(E - {p.link}, p.Node());
    Smaller(Ahead(E, V, d.Peer()), Ahead(E, V, p) - {p.Node()});
  }

  lemma ClientTold(net: Net, p: Conn, s: Subject)
    requires Settled(net) && p in net.clientConns && p in net.told
    requires Ahead(LiveLinks(net), Nodes(net), p) == {p.Node()}
    ensures s in net.told[p] <==> SubscribedAhead(net, p, s)
    ensures !StaleAhead(net, p, s)
  {
    if s in net.told[p] {
      assert Subscribed(net, p.Node(), s);
      assert p.Node() in Ahead(LiveLinks(net), Nodes(net), p);
    }
  }

  /** A client ahead of a node is beyond one of its other connections. */
  lemma Combine(net: Net, p: Conn, s: Subject)
    requires Settled(net) && AtRouter(net, p) && Listed(net, p) && p.link in LiveLinks(net)
    ensures SubscribedAhead(net, p, s) <==>
            exists d :: d in net.routers[p.Node()].conns && d != p && SubscribedAhead(net, d.Peer(), s)
  {
    var E, V := LiveLinks(net), Nodes(net);
    if SubscribedAhead(net, p, s) {
      var k :| k in Ahead(E, V, p) && Subscribed(net, k, s);
      assert k in net.clients && k != p.Node();
      var d := SomeSubtree(E, V, p, k);
      OnwardIsListed(net, p, d);
      assert SubscribedAhead(net, d.Peer(), s);
    }
    if d :| d in net.routers[p.Node()].conns && d != p && SubscribedAhead(net, d.Peer(), s) {
      OnwardIsListed(net, p, d);
      var k :| k in Ahead(E, V, d.Peer()) && Subscribed(net, k, s);
      SubtreeInside(E, V, p, d);
    }
  }

  /** A stale tag ahead of a node is its own or beyond one of its other connections. */
  lemma CombineStale(net: Net, p: Conn, s: Subject)
    requires Settled(net) && AtRouter(net, p) && Listed(net, p) && p.link in LiveLinks(net)
    ensures StaleAhead(net, p, s) <==>
            Stale(net, p.Node(), s)
            || exists d :: d in net.routers[p.Node()].conns && d != p && StaleAhead(net, d.Peer(), s)
  {
    var E, V := LiveLinks(net), Nodes(net);
    Reflexive(E - {p.link}, p.Node());
    assert p.Node() in Ahead(E, V, p);
    if StaleAhead(net, p, s) && !Stale(net, p.Node(), s) {
      var k :| k in Ahead(E, V, p) && Stale(net, k, s);
      var d := SomeSubtree(E, V, p, k);
      OnwardIsListed(net, p, d);
      assert StaleAhead(net, d.Peer(), s);
    }
    if d :| d in net.routers[p.Node()].conns && d != p && StaleAhead(net, d.Peer(), s) {
      OnwardIsListed(net, p, d);
      var k :| k in Ahead(E, V, d.Peer()) && Stale(net, k, s);
      SubtreeInside(E, V, p, d);
    }
  }

  // --- after any run -----------------------------------------------------------------

  /** Nothing is in progress: no connection is pending, draining or half lost, no fan-out waits,
      no tag is being removed, no relay loop reads on, and every channel is empty. */
  ghost predicate Idle(net: Net) {
    && (forall n :: n in net.routers ==> net.routers[n].pending == {} && net.routers[n].held == map[])
    && (forall c :: Listed(net, c) ==> Listed(net, c.Peer()) && c in net.chan && net.chan[c] == [])
    && net.stalled == [] && net.lost.leaving == {}
    && forall c :: c in net.lost.loss ==> net.lost.loss[c].closed && net.lost.loss[c].unread == []
  }

  /** After any history of subscribes, unsubscribes, joins, losses and failures, once the bus is
      idle and its links form a forest: what the tables say of every neighbour, unless a decision
      has been overtaken. */
  lemma QuiescentRouting(trace: seq<Net>, events: seq<Event>, i: nat, n: NodeId, c: Conn, s: Subject)
    requires Run(trace, events) && i < |trace|
    requires Forest(LiveLinks(trace[i])) && Idle(trace[i]) && InOrder(trace[i])
    requires n in trace[i].routers && c in trace[i].routers[n].conns
    ensures Tag(c, s) in trace[i].routers[n].tags <==>
            SubscribedAhead(trace[i], c.Peer(), s) || StaleAhead(trace[i], c.Peer(), s)
  {
    Invariant(trace, events, i);
    TaggedIff(trace[i], n, c, s);
  }

  /** In an idle bus, `k` has a stale tag for `s` exactly when some step has left a lost connection
      of `k` tagged with it, and none since has removed the tag. */
  lemma StaleIff(trace: seq<Net>, events: seq<Event>, i: nat, k: NodeId, s: Subject)
    requires Run(trace, events) && i < |trace| && Idle(trace[i]) && k in trace[i].routers
    ensures Stale(trace[i], k, s) <==> exists c: Conn :: c.Node() == k && Kept(trace, events, i, c, s)
  {
    Invariant(trace, events, i);
    var net := trace[i];
    if Stale(net, k, s) {
      var d :| d !in net.routers[k].conns && Tag(d, s) in net.routers[k].tags;
      StaleIsLost(net, k, d, s);
      TagsAreKept(trace, events, i, d, s);
    }
    if c: Conn :| c.Node() == k && Kept(trace, events, i, c, s) {
      KeptIsStale(trace, events, i, c, s);
    }
  }

  lemma StaleIsLost(net: Net, k: NodeId, d: Conn, s: Subject)
    requires RoutersOk(net) && LeftInv(net) && k in net.routers
    requires d !in net.routers[k].conns && Tag(d, s) in net.routers[k].tags
    ensures d.Node() == k && d in net.lost.loss && s in NodeTags(net, d)
  {
    assert RouterOk(net, k, net.routers[k]) && Tag(d, s).conn.Node() == k;
    TagsAre(net.routers[k], d);
  }

  lemma KeptIsStale(trace: seq<Net>, events: seq<Event>, i: nat, c: Conn, s: Subject)
    requires Run(trace, events) && i < |trace| && Kept(trace, events, i, c, s)
    ensures Stale(trace[i], c.Node(), s)
  {
    Invariant(trace, events, i);
    Account(trace, events, i, c, s);
    LossIsOld(trace[i], c);
    TagsAre(trace[i].routers[c.Node()], c);
  }

  /** The node has the tag exactly when it is of a neighbour with a subscribed client behind it. */
  ghost predicate ExactAt(net: Net, n: NodeId, c: Conn, s: Subject) {
    n in net.routers ==>
      (Tag(c, s) in net.routers[n].tags <==> c in net.routers[n].conns && SubscribedAhead(net, c.Peer(), s))
  }

  ghost predicate Exact(net: Net) {
    forall n, c, s :: ExactAt(net, n, c, s)
  }

  lemma NoneStaleExact(net: Net, n: NodeId, c: Conn, s: Subject)
    requires Quiet(net) && forall k :: !Stale(net, k, s)
    ensures ExactAt(net, n, c, s)
  {
    assert !Stale(net, n, s);
    if n in net.routers && c in net.routers[n].conns {
      TaggedIff(net, n, c, s);
      assert !StaleAhead(net, c.Peer(), s);
    }
  }

  lemma StaleNotExact(net: Net, k: NodeId, s: Subject)
    requires Stale(net, k, s)
    ensures !Exact(net)
  {
    var d :| d !in net.routers[k].conns && Tag(d, s) in net.routers[k].tags;
    assert !ExactAt(net, k, d, s);
  }

  /** Exact tables: what is told of a subject is what is wanted of it. */
  lemma ExactInOrder(net: Net, c: Conn, s: Subject)
    requires Settled(net) && NothingSent(net) && Exact(net)
    requires Listed(net, c) && AtRouter(net, c) && AtRouter(net, c.Peer())
    ensures c in net.told && c in net.decided
    ensures s in net.told[c] <==> s in net.decided[c]
  {
    var r, p := net.routers[c.Node()], c.Peer();
    ListedAtRouter(net, c);
    ListedAtRouter(net, p);
    ListedMade(net, c);
    LiveEnds(net, c);
    assert p.Peer() == c;
    TagIsTold(net, p, s);
    assert ExactAt(net, p.Node(), p, s);
    TaggedBeyond(net, c, s);
    ExactNotStale(net, c.Node(), s);
    Combine(net, c, s);
    forall d | d in r.conns && d != c ensures Tag(d, s) in r.tags <==> SubscribedAhead(net, d.Peer(), s) {
      assert ExactAt(net, c.Node(), d, s);
    }
  }

  lemma ExactNotStale(net: Net, k: NodeId, s: Subject)
    requires Exact(net)
    ensures !Stale(net, k, s)
  {
    if Stale(net, k, s) {
      StaleNotExact(net, k, s);
    }
  }

  lemma ExactIsInOrder(net: Net)
    requires Settled(net) && NothingSent(net) && Exact(net)
    ensures InOrder(net)
  {
    forall c | Listed(net, c) && AtRouter(net, c) && AtRouter(net, c.Peer()) ensures InOrderAt(net, c) {
      forall s ensures c in net.told && c in net.decided && (s in net.told[c] <==> s in net.decided[c]) {
        ExactInOrder(net, c, s);
      }
    }
  }

  /** After any history, once the bus is idle and its links form a forest, its tables are exact if
      and only if no lost connection has kept a tag and no decision has been overtaken. */
  lemma ExactIff(trace: seq<Net>, events: seq<Event>, i: nat)
    requires Run(trace, events) && i < |trace|
    requires Forest(LiveLinks(trace[i])) && Idle(trace[i])
    ensures Exact(trace[i]) <==> InOrder(trace[i]) && forall c, s :: !Kept(trace, events, i, c, s)
  {
    var net := trace[i];
    Invariant(trace, events, i);
    assert Settled(net) && NothingSent(net);
    if Exact(net) {
      ExactIsInOrder(net);
      forall c, s ensures !Kept(trace, events, i, c, s) {
        if Kept(trace, events, i, c, s) {
          KeptIsStale(trace, events, i, c, s);
          StaleNotExact(net, c.Node(), s);
        }
      }
    }
    if InOrder(net) && forall c, s :: !Kept(trace, events, i, c, s) {
      NoneKeptExact(trace, events, i);
    }
  }

  lemma NoneKeptExact(trace: seq<Net>, events: seq<Event>, i: nat)
    requires Run(trace, events) && i < |trace| && Idle(trace[i]) && Quiet(trace[i])
    requires forall c, s :: !Kept(trace, events, i, c, s)
    ensures Exact(trace[i])
  {
    forall k, s ensures !Stale(trace[i], k, s) {
      if k in trace[i].routers {
        StaleIff(trace, events, i, k, s);
      }
    }
    forall n, c, s ensures ExactAt(trace[i], n, c, s) {
      NoneStaleExact(trace[i], n, c, s);
    }
  }

  /** As long as no fan-out has had to wait, only tags that lost connections have kept matter. */
  lemma PromptlyExactIff(trace: seq<Net>, events: seq<Event>, i: nat)
    requires Run(trace, events) && i < |trace| && forall j :: 0 <= j < i ==> !Waits(events[j])
    requires Forest(LiveLinks(trace[i])) && Idle(trace[i])
    ensures Exact(trace[i]) <==> forall c, s :: !Kept(trace, events, i, c, s)
  {
    var net := trace[i];
    Invariant(trace, events, i);
    PromptRuns(trace, events, i);
    forall c | Listed(net, c) && AtRouter(net, c) && AtRouter(net, c.Peer()) ensures InOrderAt(net, c) {
      ListedAtRouter(net, c);
      NotLost(net, c);
    }
    ExactIff(trace, events, i);
  }
}
