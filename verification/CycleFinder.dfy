/** The cycle finder of bus_check: union-find with path halving over the links, and a
    breadth-first search for the rest of the cycle that a link closes. */
module CycleFinder {
  import opened Graphs

  type Pid = int

  type Joint = (Pid, Pid)

  /** The links as edges, each with its place in the list. */
  ghost function LinkEdges(links: seq<Joint>): set<Edge<nat>> {
    set i | 0 <= i < |links| :: EdgeAt(links, i)
  }

  function EdgeAt(links: seq<Joint>, i: nat): Edge<nat>
    requires i < |links|
  {
    Edge(i, links[i].0, links[i].1)
  }

  lemma OneMoreLink(links: seq<Joint>, n: nat)
    requires n < |links|
    ensures LinkEdges(links[..n + 1]) == LinkEdges(links[..n]) + {EdgeAt(links, n)}
    ensures EdgeAt(links, n) !in LinkEdges(links[..n])
  {
    var E := LinkEdges(links[..n]);
    forall e ensures e in LinkEdges(links[..n + 1]) <==> e in E + {EdgeAt(links, n)} {
      if e in E {
        var i: nat :| i < n && e == EdgeAt(links[..n], i);
        assert e == EdgeAt(links[..n + 1], i);
      }
      if e in LinkEdges(links[..n + 1]) {
        var i: nat :| i < n + 1 && e == EdgeAt(links[..n + 1], i);
        if i < n {
          assert e == EdgeAt(links[..n], i);
        }
      }
      assert EdgeAt(links[..n + 1], n) == EdgeAt(links, n);
    }
  }

  // --- union-find ---------------------------------------------------------------------

  ghost predicate RootedAt(parent: map<Pid, Pid>, rep: map<Pid, Pid>, depth: map<Pid, nat>, p: Pid)
    requires rep.Keys == depth.Keys == parent.Keys && p in parent
  {
    var q := parent[p];
    && q in parent && rep[p] in parent
    && rep[q] == rep[p]
    && (if q == p then rep[p] == p else depth[q] < depth[p])
  }

  /** `rep` is the root of each node, and `depth` falls along every chain of parents. */
  ghost predicate Rooted(parent: map<Pid, Pid>, rep: map<Pid, Pid>, depth: map<Pid, nat>) {
    && rep.Keys == depth.Keys == parent.Keys
    && forall p {:trigger RootedAt(parent, rep, depth, p)} :: p in parent ==> RootedAt(parent, rep, depth, p)
  }

  /** Pointing a node at its grandparent moves no node to another root. */
  lemma Halved(parent: map<Pid, Pid>, rep: map<Pid, Pid>, depth: map<Pid, nat>, p: Pid)
    requires Rooted(parent, rep, depth) && p in parent && parent[p] != p
    ensures parent[p] in parent
    ensures var up := parent[parent[p]];
            && Rooted(parent[p := up], rep, depth) && parent[p := up].Keys == parent.Keys
            && up in parent && rep[up] == rep[p] && depth[up] < depth[p]
  {
    assert RootedAt(parent, rep, depth, p);
    var q := parent[p];
    assert RootedAt(parent, rep, depth, q);
    var parent' := parent[p := parent[q]];
    assert parent'.Keys == parent.Keys;
    forall x | x in parent' ensures RootedAt(parent', rep, depth, x) {
      assert RootedAt(parent, rep, depth, x);
    }
  }

  ghost function Merged(rep: map<Pid, Pid>, ra: Pid, rb: Pid): map<Pid, Pid> {
    map p | p in rep :: if rep[p] == ra then rb else rep[p]
  }

  ghost function Deepened(rep: map<Pid, Pid>, depth: map<Pid, nat>, ra: Pid, more: nat): map<Pid, nat>
    requires depth.Keys == rep.Keys
  {
    map p | p in depth :: if rep[p] == ra then depth[p] + more else depth[p]
  }

  lemma Joined(parent: map<Pid, Pid>, rep: map<Pid, Pid>, depth: map<Pid, nat>, ra: Pid, rb: Pid)
    requires Rooted(parent, rep, depth) && ra in parent && rb in parent && ra != rb
    requires rep[ra] == ra && rep[rb] == rb
    ensures Rooted(parent[ra := rb], Merged(rep, ra, rb), Deepened(rep, depth, ra, depth[rb] + 1))
  {
    var parent' := parent[ra := rb];
    var rep', depth' := Merged(rep, ra, rb), Deepened(rep, depth, ra, depth[rb] + 1);
    assert parent'.Keys == parent.Keys;
    forall p | p in parent' ensures RootedAt(parent', rep', depth', p) {
      assert RootedAt(parent, rep, depth, p);
    }
  }

  class DisjointSets {
    var parent: map<Pid, Pid>
    ghost var rep: map<Pid, Pid>
    ghost var depth: map<Pid, nat>

    ghost predicate Valid()
      reads this
    {
      Rooted(parent, rep, depth)
    }

    constructor (pids: set<Pid>)
      ensures Valid() && parent.Keys == pids && forall p :: p in pids ==> rep[p] == p
    {
      parent := map p | p in pids :: p;
      rep := map p | p in pids :: p;
      depth := map p | p in pids :: 0;
    }

    /** Halves the path to the root on the way there. Every node keeps its root. */
    method Root(start: Pid) returns (pid: Pid)
      requires Valid() && start in parent
      modifies this`parent
      ensures Valid() && parent.Keys == old(parent.Keys)
      ensures pid == rep[start] && pid in parent && parent[pid] == pid
    {
      pid := start;
      while parent[pid] != pid
        invariant Valid() && parent.Keys == old(parent.Keys) && pid in parent
        invariant rep[pid] == rep[start]
        decreases depth[pid]
      {
        Halved(parent, rep, depth, pid);
        parent := parent[pid := parent[parent[pid]]];
        pid := parent[pid];
      }
      assert RootedAt(parent, rep, depth, pid);
    }

    /** `parent[root(a)] = root(b)`: the two sets become one, no other changes. */
    method Union(a: Pid, b: Pid)
      requires Valid() && a in parent && b in parent && rep[a] != rep[b]
      modifies this
      ensures Valid() && parent.Keys == old(parent.Keys)
      ensures rep == Merged(old(rep), old(rep[a]), old(rep[b]))
    {
      var rb := Root(b);
      var ra := Root(a);
      RootAgain(parent, rep, depth, a);
      RootAgain(parent, rep, depth, b);
      Joined(parent, rep, depth, ra, rb);
      parent := parent[ra := rb];
      depth := Deepened(rep, depth, ra, depth[rb] + 1);
      rep := Merged(rep, ra, rb);
    }
  }

  /** The root of a root is itself. */
  lemma {:induction false} RootAgain(parent: map<Pid, Pid>, rep: map<Pid, Pid>, depth: map<Pid, nat>, p: Pid)
    requires Rooted(parent, rep, depth) && p in parent
    ensures rep[p] in parent && rep[rep[p]] == rep[p]
    decreases if p in depth then depth[p] else 0
  {
    assert RootedAt(parent, rep, depth, p);
    if parent[p] != p {
      RootAgain(parent, rep, depth, parent[p]);
    }
  }

  // --- a path in the tree ---------------------------------------------------------------

  type Tree = map<Pid, seq<Pid>>

  /** A node without an entry has no neighbours. */
  function Neighbours(tree: Tree, pid: Pid): seq<Pid> {
    if pid in tree then tree[pid] else []
  }

  function AddNeighbour(tree: Tree, a: Pid, b: Pid): Tree {
    tree[a := Neighbours(tree, a) + [b]]
  }

  ghost predicate Lists(tree: Tree, T: set<Edge<nat>>) {
    forall x, y :: y in Neighbours(tree, x) <==> Adjacent(T, x, y)
  }

  lemma ListsOneMore(tree: Tree, T: set<Edge<nat>>, e: Edge<nat>)
    requires Lists(tree, T)
    ensures Lists(AddNeighbour(AddNeighbour(tree, e.a, e.b), e.b, e.a), T + {e})
  {
    var tree' := AddNeighbour(AddNeighbour(tree, e.a, e.b), e.b, e.a);
    forall x, y ensures y in Neighbours(tree', x) <==> Adjacent(T + {e}, x, y) {
      assert y in Neighbours(tree', x) <==> y in Neighbours(tree, x) || e.Joins(x, y);
      if Adjacent(T, x, y) {
        var f :| f in T && f.Joins(x, y);
        assert f in T + {e};
      }
    }
  }

  /** No node twice, and each joined to the next by one of the edges. */
  ghost predicate SimplePath(T: set<Edge<nat>>, p: seq<Pid>, a: Pid, b: Pid) {
    && Walk(T, p, a, b)
    && forall i, j :: 0 <= i < j < |p| ==> p[i] != p[j]
  }

  ghost predicate ReachedFrom(tree: Tree, cameFrom: map<Pid, Pid>, depth: map<Pid, nat>, x: Pid)
    requires cameFrom.Keys == depth.Keys && x in cameFrom
  {
    var from := cameFrom[x];
    from in cameFrom && depth[x] == depth[from] + 1 && x in Neighbours(tree, from)
  }

  /** Where each node was reached from. `depth` is how many steps that took. */
  ghost predicate Reached(tree: Tree, start: Pid, cameFrom: map<Pid, Pid>, depth: map<Pid, nat>) {
    && cameFrom.Keys == depth.Keys
    && start in cameFrom && depth[start] == 0
    && forall x {:trigger ReachedFrom(tree, cameFrom, depth, x)} ::
         x in cameFrom && x != start ==> ReachedFrom(tree, cameFrom, depth, x)
  }

  ghost predicate AllReached(tree: Tree, cameFrom: map<Pid, Pid>, x: Pid) {
    forall y :: y in Neighbours(tree, x) ==> y in cameFrom
  }

  /** Everything reached but what is still queued has had its neighbours reached. */
  ghost predicate Explored(tree: Tree, cameFrom: map<Pid, Pid>, queue: seq<Pid>) {
    forall x {:trigger AllReached(tree, cameFrom, x)} :: x in cameFrom && x !in queue ==> AllReached(tree, cameFrom, x)
  }

  lemma {:induction false} ReachedAll(tree: Tree, T: set<Edge<nat>>, cameFrom: map<Pid, Pid>, p: seq<Pid>, a: Pid,
                                      b: Pid)
    requires Lists(tree, T) && Explored(tree, cameFrom, []) && Walk(T, p, a, b) && a in cameFrom
    ensures b in cameFrom
    decreases |p|
  {
    if |p| > 1 {
      assert Adjacent(T, p[0], p[1]);
      assert p[1] in Neighbours(tree, a) && AllReached(tree, cameFrom, a);
      var q := p[1..];
      forall i | 0 < i < |q| ensures Adjacent(T, q[i - 1], q[i]) {
        assert Adjacent(T, p[i], p[i + 1]);
      }
      ReachedAll(tree, T, cameFrom, q, p[1], b);
    }
  }

  /** What the search still has to do: nodes not reached, and nodes in the queue. */
  ghost function Ahead(V: set<Pid>, cameFrom: map<Pid, Pid>, queue: seq<Pid>): nat {
    |V - cameFrom.Keys| + |queue|
  }

  method Search(tree: Tree, start: Pid, end: Pid, ghost T: set<Edge<nat>>, ghost V: set<Pid>)
    returns (cameFrom: map<Pid, Pid>, ghost depth: map<Pid, nat>)
    requires Lists(tree, T) && EndsIn(T, V) && start in V && Connected(T, start, end)
    ensures Reached(tree, start, cameFrom, depth) && end in cameFrom
  {
    cameFrom, depth := map[start := start], map[start := 0];
    var queue := [start];
    SearchingFirst(tree, start, V);
    while queue != []
      invariant Searching(tree, start, cameFrom, queue, V, depth)
      decreases Ahead(V, cameFrom, queue)
    {
      if queue[0] == end {
        return;
      }
      cameFrom, queue, depth := Visit(tree, start, cameFrom, queue, T, V, depth);
    }
    SearchedAll(tree, start, end, cameFrom, T, V, depth);
  }

  lemma SearchedAll(tree: Tree, start: Pid, end: Pid, cameFrom: map<Pid, Pid>, T: set<Edge<nat>>, V: set<Pid>,
                    depth: map<Pid, nat>)
    requires Lists(tree, T) && Connected(T, start, end) && Searching(tree, start, cameFrom, [], V, depth)
    ensures end in cameFrom
  {
    var p :| Walk(T, p, start, end);
    ReachedAll(tree, T, cameFrom, p, start, end);
  }

  lemma SearchingFirst(tree: Tree, start: Pid, V: set<Pid>)
    requires start in V
    ensures Searching(tree, start, map[start := start], [start], V, map[start := 0])
  {
  }

  /** What holds while the neighbours of a node are queued. */
  ghost predicate Searching(tree: Tree, start: Pid, cameFrom: map<Pid, Pid>, queue: seq<Pid>,
                            V: set<Pid>, depth: map<Pid, nat>) {
    && Reached(tree, start, cameFrom, depth) && Explored(tree, cameFrom, queue)
    && cameFrom.Keys <= V && forall x :: x in queue ==> x in cameFrom
  }

  lemma Discovered(tree: Tree, start: Pid, cameFrom: map<Pid, Pid>, queue: seq<Pid>, V: set<Pid>, depth: map<Pid, nat>,
                   pid: Pid, neighbour: Pid)
    requires Searching(tree, start, cameFrom, queue, V, depth)
    requires pid in cameFrom && neighbour in Neighbours(tree, pid) && neighbour in V && neighbour !in cameFrom
    ensures Searching(tree, start, cameFrom[neighbour := pid], queue + [neighbour], V,
                      depth[neighbour := depth[pid] + 1])
    ensures Ahead(V, cameFrom[neighbour := pid], queue + [neighbour]) == Ahead(V, cameFrom, queue)
  {
    var cameFrom' := cameFrom[neighbour := pid];
    assert V - cameFrom'.Keys == V - cameFrom.Keys - {neighbour};
    forall x | x in cameFrom' && x !in queue + [neighbour] ensures AllReached(tree, cameFrom', x) {
      assert x in cameFrom && x !in queue;
      assert AllReached(tree, cameFrom, x);
    }
    var depth' := depth[neighbour := depth[pid] + 1];
    forall x | x in cameFrom' && x != start ensures ReachedFrom(tree, cameFrom', depth', x) {
      assert x != neighbour ==> ReachedFrom(tree, cameFrom, depth, x);
    }
  }

  lemma NeighbourInside(tree: Tree, T: set<Edge<nat>>, V: set<Pid>, x: Pid, y: Pid)
    requires Lists(tree, T) && EndsIn(T, V) && y in Neighbours(tree, x)
    ensures y in V
  {
    var e :| e in T && e.Joins(x, y);
  }

  /** With its neighbours reached, `pid` is done with. */
  lemma Visited(tree: Tree, cameFrom: map<Pid, Pid>, queue: seq<Pid>, pid: Pid)
    requires Explored(tree, cameFrom, [pid] + queue)
    requires AllReached(tree, cameFrom, pid)
    ensures Explored(tree, cameFrom, queue)
  {
    forall x | x in cameFrom && x !in queue ensures AllReached(tree, cameFrom, x) {
      assert x != pid ==> x !in [pid] + queue;
    }
  }

  /** Take the first of the queue, and queue its neighbours that have not been reached. */
  method Visit(tree: Tree, start: Pid, cameFrom: map<Pid, Pid>, queue: seq<Pid>,
               ghost T: set<Edge<nat>>, ghost V: set<Pid>, ghost depth: map<Pid, nat>)
    returns (cameFrom': map<Pid, Pid>, queue': seq<Pid>, ghost depth': map<Pid, nat>)
    requires Lists(tree, T) && EndsIn(T, V)
    requires queue != [] && Searching(tree, start, cameFrom, queue, V, depth)
    ensures Searching(tree, start, cameFrom', queue', V, depth')
    ensures Ahead(V, cameFrom', queue') < Ahead(V, cameFrom, queue)
  {
    var pid := queue[0];
    cameFrom', queue', depth' := cameFrom, queue[1..], depth;
    assert [pid] + queue' == queue;
    var neighbours := Neighbours(tree, pid);
    for i := 0 to |neighbours|
      invariant Searching(tree, start, cameFrom', [pid] + queue', V, depth') && pid in cameFrom'
      invariant forall j :: 0 <= j < i ==> neighbours[j] in cameFrom'
      invariant Ahead(V, cameFrom', [pid] + queue') == Ahead(V, cameFrom, queue)
    {
      var neighbour := neighbours[i];
      if neighbour !in cameFrom' {
        NeighbourInside(tree, T, V, pid, neighbour);
        Discovered(tree, start, cameFrom', [pid] + queue', V, depth', pid, neighbour);
        assert [pid] + queue' + [neighbour] == [pid] + (queue' + [neighbour]);
        depth' := depth'[neighbour := depth'[pid] + 1];
        cameFrom' := cameFrom'[neighbour := pid];
        queue' := queue' + [neighbour];
      }
    }
    Visited(tree, cameFrom', queue', pid);
    forall x | x in queue' ensures x in cameFrom' {
      assert x in [pid] + queue';
    }
  }

  /** `back` leads from `end` towards the start, one step at a time. */
  ghost predicate Backwards(T: set<Edge<nat>>, back: seq<Pid>, depth: map<Pid, nat>) {
    && (forall i :: 0 <= i < |back| ==> back[i] in depth)
    && (forall i :: 0 <= i < |back| ==> depth[back[i]] == depth[back[0]] - i)
    && (forall i :: 0 < i < |back| ==> Adjacent(T, back[i], back[i - 1]))
  }

  lemma OneFurtherBack(tree: Tree, T: set<Edge<nat>>, start: Pid, cameFrom: map<Pid, Pid>, depth: map<Pid, nat>,
                       back: seq<Pid>)
    requires Lists(tree, T) && Reached(tree, start, cameFrom, depth) && Backwards(T, back, depth)
    requires back != [] && back[|back| - 1] != start
    ensures back[|back| - 1] in cameFrom && Backwards(T, back + [cameFrom[back[|back| - 1]]], depth)
    ensures cameFrom[back[|back| - 1]] in depth && depth[cameFrom[back[|back| - 1]]] < depth[back[|back| - 1]]
  {
    var last := back[|back| - 1];
    assert last in cameFrom && ReachedFrom(tree, cameFrom, depth, last);
    BackwardsOneMore(T, back, depth, cameFrom[last]);
  }

  lemma BackwardsOneMore(T: set<Edge<nat>>, back: seq<Pid>, depth: map<Pid, nat>, next: Pid)
    requires back != [] && Backwards(T, back, depth) && next in depth
    requires depth[back[|back| - 1]] == depth[next] + 1 && Adjacent(T, next, back[|back| - 1])
    ensures Backwards(T, back + [next], depth)
  {
    var back' := back + [next];
    forall i | 0 < i < |back'| ensures Adjacent(T, back'[i], back'[i - 1]) {
      if i < |back| {
        assert Adjacent(T, back[i], back[i - 1]);
      }
    }
  }

  lemma Forwards(T: set<Edge<nat>>, back: seq<Pid>, depth: map<Pid, nat>)
    requires back != [] && Backwards(T, back, depth)
    ensures SimplePath(T, Reverse(back), back[|back| - 1], back[0])
  {
    var path := Reverse(back);
    forall i | 0 < i < |path| ensures Adjacent(T, path[i - 1], path[i]) {
      var j := |back| - i;
      assert Adjacent(T, back[j], back[j - 1]);
    }
    forall i, j | 0 <= i < j < |path| ensures path[i] != path[j] {
      assert depth[back[|back| - 1 - i]] != depth[back[|back| - 1 - j]];
    }
  }

  function Reverse(p: seq<Pid>): seq<Pid> {
    seq(|p|, i requires 0 <= i < |p| => p[|p| - 1 - i])
  }

  /** The path from `start` to `end`: search forwards, then follow back where each came from. */
  method TreePath(tree: Tree, start: Pid, end: Pid, ghost T: set<Edge<nat>>, ghost V: set<Pid>) returns (path: seq<Pid>)
    requires Lists(tree, T) && EndsIn(T, V) && start in V && Connected(T, start, end)
    ensures SimplePath(T, path, start, end)
  {
    ghost var depth: map<Pid, nat>;
    var cameFrom: map<Pid, Pid>;
    cameFrom, depth := Search(tree, start, end, T, V);
    path := [end];
    while path[|path| - 1] != start
      invariant path != [] && path[0] == end && Backwards(T, path, depth)
      decreases depth[path[|path| - 1]]
    {
      OneFurtherBack(tree, T, start, cameFrom, depth, path);
      path := path + [cameFrom[path[|path| - 1]]];
    }
    Forwards(T, path, depth);
    path := Reverse(path);
  }

  // --- the cycles --------------------------------------------------------------------------

  /** Link `i` joins two nodes that the links before it already join. */
  ghost predicate Closes(links: seq<Joint>, i: nat)
    requires i < |links|
  {
    Connected(LinkEdges(links[..i]), links[i].0, links[i].1)
  }

  /** The links that close a cycle, in order. */
  ghost function Closing(links: seq<Joint>): seq<nat> {
    if links == [] then []
    else
      var n := |links| - 1;
      Closing(links[..n]) + if Closes(links, n) then [n] else []
  }

  lemma ClosingOneMore(links: seq<Joint>, n: nat)
    requires n < |links|
    ensures Closing(links[..n + 1]) == Closing(links[..n]) + if Closes(links, n) then [n] else []
  {
    assert links[..n + 1][..n] == links[..n];
  }

  lemma {:induction false} ClosingInRange(links: seq<Joint>, n: nat, k: nat)
    requires n <= |links| && k < |Closing(links[..n])|
    ensures Closing(links[..n])[k] < n && Closes(links, Closing(links[..n])[k])
  {
    if n > 0 {
      ClosingOneMore(links, n - 1);
      if k < |Closing(links[..n - 1])| {
        ClosingInRange(links, n - 1, k);
      }
    }
  }

  /** What is reported for closing link `i`: a path of earlier links between its ends. */
  ghost predicate CycleOf(links: seq<Joint>, i: nat, cycle: seq<Pid>)
    requires i < |links|
  {
    SimplePath(LinkEdges(links[..i]), cycle, links[i].0, links[i].1)
  }

  /** The tree lists some of the links, which join what all the links join. */
  ghost predicate Spanning(links: seq<Joint>, n: nat, T: set<Edge<nat>>)
    requires n <= |links|
  {
    && T <= LinkEdges(links[..n])
    && forall u, v :: Connected(T, u, v) <==> Connected(LinkEdges(links[..n]), u, v)
  }

  lemma SpanningKept(links: seq<Joint>, n: nat, T: set<Edge<nat>>)
    requires n < |links| && Spanning(links, n, T) && Closes(links, n)
    ensures Spanning(links, n + 1, T)
  {
    OneMoreLink(links, n);
    EdgeInside({}, LinkEdges(links[..n]), EdgeAt(links, n));
  }

  lemma SpanningGrows(links: seq<Joint>, n: nat, T: set<Edge<nat>>)
    requires n < |links| && Spanning(links, n, T)
    ensures Spanning(links, n + 1, T + {EdgeAt(links, n)})
  {
    var E, e := LinkEdges(links[..n]), EdgeAt(links, n);
    OneMoreLink(links, n);
    forall u, v ensures Connected(T + {e}, u, v) <==> Connected(E + {e}, u, v) {
      JoinedThrough(T, E, e, u, v);
      JoinedThrough(E, T, e, u, v);
    }
  }

  lemma JoinedThrough(E: set<Edge<nat>>, F: set<Edge<nat>>, e: Edge<nat>, u: Pid, v: Pid)
    requires forall x, y :: Connected(E, x, y) ==> Connected(F, x, y)
    ensures Connected(E + {e}, u, v) ==> Connected(F + {e}, u, v)
  {
    if Connected(E + {e}, u, v) {
      ConnectedThrough(E, e, u, v);
      OneEdge(F + {e}, e);
      if Connected(E, u, v) {
        Monotone(F, F + {e}, u, v);
      } else if Connected(E, u, e.a) && Connected(E, e.b, v) {
        Monotone(F, F + {e}, u, e.a);
        Monotone(F, F + {e}, e.b, v);
        Transitive(F + {e}, u, e.a, e.b);
        Transitive(F + {e}, u, e.b, v);
      } else {
        Monotone(F, F + {e}, u, e.b);
        Monotone(F, F + {e}, e.a, v);
        Transitive(F + {e}, u, e.b, e.a);
        Transitive(F + {e}, u, e.a, v);
      }
    }
  }

  /** A link from a node to itself may be of a node that is not among `pids`. */
  ghost predicate InNodes(links: seq<Joint>, pids: set<Pid>) {
    forall i :: 0 <= i < |links| ==> links[i].0 == links[i].1 || (links[i].0 in pids && links[i].1 in pids)
  }

  /** The classes of the union-find are the components of the links so far. */
  ghost predicate Agrees(rep: map<Pid, Pid>, links: seq<Joint>, n: nat, pids: set<Pid>)
    requires n <= |links| && rep.Keys == pids
  {
    forall u, v :: u in pids && v in pids ==> (rep[u] == rep[v] <==> Connected(LinkEdges(links[..n]), u, v))
  }

  lemma AgreesAtFirst(rep: map<Pid, Pid>, links: seq<Joint>, pids: set<Pid>)
    requires rep.Keys == pids && forall p :: p in pids ==> rep[p] == p
    ensures Agrees(rep, links, 0, pids) && Spanning(links, 0, {})
  {
    var E := LinkEdges(links[..0]);
    assert E == {};
    forall u, v | u in pids && v in pids ensures u == v <==> Connected(E, u, v) {
      Reflexive(E, u);
      if Connected(E, u, v) && u != v {
        var p :| Walk(E, p, u, v);
        var _, _ := LastDeparture(E, p, u, v);
      }
    }
  }

  lemma AgreesKept(rep: map<Pid, Pid>, links: seq<Joint>, n: nat, pids: set<Pid>)
    requires n < |links| && rep.Keys == pids && Agrees(rep, links, n, pids) && Closes(links, n)
    ensures Agrees(rep, links, n + 1, pids)
  {
    OneMoreLink(links, n);
    EdgeInside({}, LinkEdges(links[..n]), EdgeAt(links, n));
  }

  lemma AgreesAfterUnion(rep: map<Pid, Pid>, rep': map<Pid, Pid>, links: seq<Joint>, n: nat, pids: set<Pid>)
    requires n < |links| && rep.Keys == rep'.Keys == pids && Agrees(rep, links, n, pids)
    requires var (a, b) := links[n];
             && a in pids && b in pids && rep[a] != rep[b]
             && forall p :: p in pids ==> rep'[p] == if rep[p] == rep[a] then rep[b] else rep[p]
    ensures Agrees(rep', links, n + 1, pids)
  {
    var E, e := LinkEdges(links[..n]), EdgeAt(links, n);
    OneMoreLink(links, n);
    forall u, v | u in pids && v in pids ensures rep'[u] == rep'[v] <==> Connected(E + {e}, u, v) {
      if Connected(E + {e}, u, v) {
        ConnectedThrough(E, e, u, v);
      }
      if rep'[u] == rep'[v] {
        OneEdge(E + {e}, e);
        if rep[u] == rep[v] {
          Monotone(E, E + {e}, u, v);
        } else if rep[u] == rep[e.a] {
          Monotone(E, E + {e}, u, e.a);
          Monotone(E, E + {e}, e.b, v);
          Transitive(E + {e}, u, e.a, e.b);
          Transitive(E + {e}, u, e.b, v);
        } else {
          Monotone(E, E + {e}, u, e.b);
          Monotone(E, E + {e}, e.a, v);
          Transitive(E + {e}, u, e.b, e.a);
          Transitive(E + {e}, u, e.a, v);
        }
      }
    }
  }

  /** One cycle for every link that closes one, in order, and the cycle it closes. */
  ghost predicate CyclesOf(links: seq<Joint>, n: nat, cycles: seq<seq<Pid>>)
    requires n <= |links|
  {
    var closing := Closing(links[..n]);
    && |cycles| == |closing|
    && forall k :: 0 <= k < |cycles| ==> closing[k] < |links| && CycleOf(links, closing[k], cycles[k])
  }

  lemma CyclesOneMore(links: seq<Joint>, n: nat, cycles: seq<seq<Pid>>, cycle: seq<Pid>)
    requires n < |links| && CyclesOf(links, n, cycles) && Closes(links, n) && CycleOf(links, n, cycle)
    ensures CyclesOf(links, n + 1, cycles + [cycle])
  {
    ClosingOneMore(links, n);
  }

  lemma WiderPath(T: set<Edge<nat>>, E: set<Edge<nat>>, p: seq<Pid>, a: Pid, b: Pid)
    requires T <= E && SimplePath(T, p, a, b)
    ensures SimplePath(E, p, a, b)
  {
  }

  /** The state after the first `n` links. */
  ghost predicate Done(links: seq<Joint>, n: nat, pids: set<Pid>, rep: map<Pid, Pid>, tree: Tree, T: set<Edge<nat>>,
                       cycles: seq<seq<Pid>>)
    requires n <= |links| && rep.Keys == pids
  {
    && Agrees(rep, links, n, pids)
    && Lists(tree, T) && EndsIn(T, pids) && Spanning(links, n, T)
    && CyclesOf(links, n, cycles)
  }

  lemma DoneCycle(links: seq<Joint>, n: nat, pids: set<Pid>, rep: map<Pid, Pid>, tree: Tree, T: set<Edge<nat>>,
                  cycles: seq<seq<Pid>>, cycle: seq<Pid>)
    requires n < |links| && rep.Keys == pids && Done(links, n, pids, rep, tree, T, cycles)
    requires Closes(links, n) && SimplePath(T, cycle, links[n].0, links[n].1)
    ensures Done(links, n + 1, pids, rep, tree, T, cycles + [cycle])
  {
    WiderPath(T, LinkEdges(links[..n]), cycle, links[n].0, links[n].1);
    CyclesOneMore(links, n, cycles, cycle);
    SpanningKept(links, n, T);
    AgreesKept(rep, links, n, pids);
  }

  /** A link from a node to itself adds a cycle. */
  lemma DoneSelf(links: seq<Joint>, n: nat, pids: set<Pid>, rep: map<Pid, Pid>, tree: Tree, T: set<Edge<nat>>,
                 cycles: seq<seq<Pid>>)
    requires n < |links| && rep.Keys == pids && Done(links, n, pids, rep, tree, T, cycles)
    requires links[n].0 == links[n].1
    ensures Done(links, n + 1, pids, rep, tree, T, cycles + [[links[n].0]])
  {
    Reflexive(LinkEdges(links[..n]), links[n].0);
    DoneCycle(links, n, pids, rep, tree, T, cycles, [links[n].0]);
  }

  /** A link within one tree adds a cycle. */
  lemma DoneClosing(links: seq<Joint>, n: nat, pids: set<Pid>, rep: map<Pid, Pid>, tree: Tree, T: set<Edge<nat>>,
                    cycles: seq<seq<Pid>>, cycle: seq<Pid>)
    requires n < |links| && rep.Keys == pids && Done(links, n, pids, rep, tree, T, cycles)
    requires links[n].0 in pids && links[n].1 in pids && rep[links[n].0] == rep[links[n].1]
    requires SimplePath(T, cycle, links[n].0, links[n].1)
    ensures Done(links, n + 1, pids, rep, tree, T, cycles + [cycle])
  {
    assert Closes(links, n);
    DoneCycle(links, n, pids, rep, tree, T, cycles, cycle);
  }

  /** A link between two trees joins them. */
  lemma DoneJoining(links: seq<Joint>, n: nat, pids: set<Pid>, rep: map<Pid, Pid>, tree: Tree, T: set<Edge<nat>>,
                    cycles: seq<seq<Pid>>)
    requires n < |links| && rep.Keys == pids && Done(links, n, pids, rep, tree, T, cycles)
    requires links[n].0 in pids && links[n].1 in pids && rep[links[n].0] != rep[links[n].1]
    ensures var (a, b) := links[n];
            var rep' := Merged(rep, rep[a], rep[b]);
            && rep'.Keys == pids
            && Done(links, n + 1, pids, rep', AddNeighbour(AddNeighbour(tree, a, b), b, a), T + {EdgeAt(links, n)},
                    cycles)
  {
    var (a, b) := links[n];
    AgreesAfterUnion(rep, Merged(rep, rep[a], rep[b]), links, n, pids);
    ClosingOneMore(links, n);
    ListsOneMore(tree, T, EdgeAt(links, n));
    SpanningGrows(links, n, T);
  }

  method FindCycles(pids: set<Pid>, links: seq<Joint>) returns (cycles: seq<seq<Pid>>)
    requires InNodes(links, pids)
    ensures CyclesOf(links, |links|, cycles)
    ensures |cycles| == |links| - (|pids| - |Components(pids, LinkEdges(links))|)
    ensures cycles == [] <==> Forest(LinkEdges(links))
  {
    var sets := new DisjointSets(pids);
    var tree: Tree := map[];
    ghost var T: set<Edge<nat>> := {};
    cycles := [];
    AgreesAtFirst(sets.rep, links, pids);
    for i := 0 to |links|
      invariant fresh(sets) && sets.Valid() && sets.parent.Keys == sets.rep.Keys == pids
      invariant Done(links, i, pids, sets.rep, tree, T, cycles)
    {
      var (a, b) := links[i];
      if a == b {
        DoneSelf(links, i, pids, sets.rep, tree, T, cycles);
        cycles := cycles + [[a]];
      } else {
        var ra := sets.Root(a);
        var rb := sets.Root(b);
        if ra == rb {
          TreeJoins(links, i, pids, sets.rep, tree, T, cycles);
          var path := TreePath(tree, a, b, T, pids);
          DoneClosing(links, i, pids, sets.rep, tree, T, cycles, path);
          cycles := cycles + [path];
        } else {
          DoneJoining(links, i, pids, sets.rep, tree, T, cycles);
          sets.Union(a, b);
          tree := AddNeighbour(AddNeighbour(tree, a, b), b, a);
          T := T + {EdgeAt(links, i)};
        }
      }
    }
    Counted(pids, links);
  }

  lemma TreeJoins(links: seq<Joint>, n: nat, pids: set<Pid>, rep: map<Pid, Pid>, tree: Tree, T: set<Edge<nat>>,
                  cycles: seq<seq<Pid>>)
    requires n < |links| && rep.Keys == pids && Done(links, n, pids, rep, tree, T, cycles)
    requires links[n].0 in pids && links[n].1 in pids && rep[links[n].0] == rep[links[n].1]
    ensures Lists(tree, T) && EndsIn(T, pids) && Connected(T, links[n].0, links[n].1)
  {
  }

  lemma Counted(pids: set<Pid>, links: seq<Joint>)
    requires InNodes(links, pids)
    ensures links[..|links|] == links
    ensures |Closing(links)| == |links| - (|pids| - |Components(pids, LinkEdges(links))|)
    ensures Closing(links) == [] <==> Forest(LinkEdges(links))
  {
    assert links[..|links|] == links;
    ClosingCount(pids, links, |links|);
    NoneIffForest(links);
  }

  // --- counting ------------------------------------------------------------------------------

  lemma {:induction false} ClosingCount(pids: set<Pid>, links: seq<Joint>, n: nat)
    requires InNodes(links, pids) && n <= |links|
    ensures |Closing(links[..n])| == n - (|pids| - |Components(pids, LinkEdges(links[..n]))|)
  {
    if n == 0 {
      assert LinkEdges(links[..0]) == {};
      NoEdges(pids, LinkEdges(links[..0]));
    } else {
      var E, e := LinkEdges(links[..n - 1]), EdgeAt(links, n - 1);
      ClosingCount(pids, links, n - 1);
      ClosingOneMore(links, n - 1);
      OneMoreLink(links, n - 1);
      if Closes(links, n - 1) {
        EdgeInside(pids, E, e);
      } else {
        Reflexive(E, e.a);
        EdgeBetween(pids, E, e);
      }
    }
  }

  lemma {:induction false} CountLinks(links: seq<Joint>, n: nat)
    requires n <= |links|
    ensures |LinkEdges(links[..n])| == n
  {
    if n == 0 {
      assert LinkEdges(links[..0]) == {};
    } else {
      CountLinks(links, n - 1);
      OneMoreLink(links, n - 1);
    }
  }

  ghost function EndsOf(links: seq<Joint>): set<Pid> {
    (set i | 0 <= i < |links| :: links[i].0) + (set i | 0 <= i < |links| :: links[i].1)
  }

  /** No link closes a cycle exactly when the links form a forest. */
  lemma NoneIffForest(links: seq<Joint>)
    ensures Closing(links) == [] <==> Forest(LinkEdges(links))
  {
    var V := EndsOf(links);
    assert links[..|links|] == links;
    ClosingCount(V, links, |links|);
    CountLinks(links, |links|);
    ForestCount(V, LinkEdges(links));
  }

  lemma SameLinksSameComponents<I, J>(V: set<Pid>, E: set<Edge<I>>, F: set<Edge<J>>)
    requires forall x, y :: Adjacent(E, x, y) <==> Adjacent(F, x, y)
    ensures Components(V, E) == Components(V, F)
  {
    forall v ensures Class(V, E, v) == Class(V, F, v) {
      forall u ensures Connected(E, v, u) <==> Connected(F, v, u) {
        if Connected(E, v, u) {
          SameAdjacency(E, F, v, u);
        }
        if Connected(F, v, u) {
          SameAdjacency(F, E, v, u);
        }
      }
    }
  }

  lemma AdjacentIsLinked(links: seq<Joint>, x: Pid, y: Pid)
    ensures Adjacent(LinkEdges(links), x, y) <==> (x, y) in links || (y, x) in links
  {
    if Adjacent(LinkEdges(links), x, y) {
      var e :| e in LinkEdges(links) && e.Joins(x, y);
      var i: nat :| i < |links| && e == EdgeAt(links, i);
      assert links[i] == (e.a, e.b);
    }
    if i :| 0 <= i < |links| && (links[i] == (x, y) || links[i] == (y, x)) {
      assert EdgeAt(links, i) in LinkEdges(links) && EdgeAt(links, i).Joins(x, y);
    }
  }

  /** How many cycles are reported does not depend on the order of the links. */
  lemma OrderIsIrrelevant(links: seq<Joint>, links': seq<Joint>)
    requires multiset(links) == multiset(links')
    ensures |Closing(links)| == |Closing(links')|
  {
    var V := EndsOf(links);
    forall x: Joint ensures x in links <==> x in links' {
      assert x in multiset(links) <==> x in multiset(links');
    }
    forall i | 0 <= i < |links'| ensures links'[i].0 in V && links'[i].1 in V {
      assert links'[i] in links;
    }
    assert |links| == |multiset(links)| == |multiset(links')| == |links'|;
    forall x, y ensures Adjacent(LinkEdges(links), x, y) <==> Adjacent(LinkEdges(links'), x, y) {
      AdjacentIsLinked(links, x, y);
      AdjacentIsLinked(links', x, y);
    }
    SameLinksSameComponents(V, LinkEdges(links), LinkEdges(links'));
    assert links[..|links|] == links && links'[..|links'|] == links';
    ClosingCount(V, links, |links|);
    ClosingCount(V, links', |links'|);
  }
}
