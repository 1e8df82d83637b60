/** Undirected multigraphs: connectivity, forests and counting components.

    The cycle check, the routing tables and the cycle finder all speak about the same
    thing, the links between the nodes of a bus, so they share this vocabulary. */
module Graphs {

  /** A link between `a` and `b`. Two links between the same ends differ in their `id`. */
  datatype Edge<I> = Edge(id: I, a: int, b: int) {
    predicate Joins(x: int, y: int) {
      (a == x && b == y) || (a == y && b == x)
    }

    predicate At(x: int) {
      a == x || b == x
    }
  }

  ghost predicate Adjacent<I>(E: set<Edge<I>>, x: int, y: int) {
    exists e :: e in E && e.Joins(x, y)
  }

  /** `p` lists the nodes visited from `u` to `v`, moving along one edge at a time. */
  ghost predicate Walk<I>(E: set<Edge<I>>, p: seq<int>, u: int, v: int) {
    && p != [] && p[0] == u && p[|p| - 1] == v
    && forall i :: 0 < i < |p| ==> Adjacent(E, p[i - 1], p[i])
  }

  ghost predicate Connected<I>(E: set<Edge<I>>, u: int, v: int) {
    exists p :: Walk(E, p, u, v)
  }

  /** Every edge is a bridge: no edge has its ends joined by the other edges. */
  ghost predicate Forest<I>(E: set<Edge<I>>) {
    forall e :: e in E ==> !Connected(E - {e}, e.a, e.b)
  }

  ghost predicate EndsIn<I>(E: set<Edge<I>>, V: set<int>) {
    forall e :: e in E ==> e.a in V && e.b in V
  }

  // --- connectivity ---------------------------------------------------------

  lemma Reflexive<I>(E: set<Edge<I>>, u: int)
    ensures Connected(E, u, u)
  {
    assert Walk(E, [u], u, u);
  }

  lemma OneEdge<I>(E: set<Edge<I>>, e: Edge<I>)
    requires e in E
    ensures Connected(E, e.a, e.b) && Connected(E, e.b, e.a)
  {
    assert e.Joins(e.a, e.b) && e.Joins(e.b, e.a);
    assert Walk(E, [e.a, e.b], e.a, e.b);
    assert Walk(E, [e.b, e.a], e.b, e.a);
  }

  lemma Transitive<I>(E: set<Edge<I>>, u: int, v: int, w: int)
    requires Connected(E, u, v) && Connected(E, v, w)
    ensures Connected(E, u, w)
  {
    var p :| Walk(E, p, u, v);
    var q :| Walk(E, q, v, w);
    var r := p + q[1..];
    forall i | 0 < i < |r| ensures Adjacent(E, r[i - 1], r[i]) {
      if i >= |p| {
        assert r[i] == q[i - |p| + 1] && r[i - 1] == q[i - |p|];
      }
    }
    assert Walk(E, r, u, w);
  }

  lemma Symmetric<I>(E: set<Edge<I>>, u: int, v: int)
    requires Connected(E, u, v)
    ensures Connected(E, v, u)
  {
    var p :| Walk(E, p, u, v);
    var q := seq(|p|, i requires 0 <= i < |p| => p[|p| - 1 - i]);
    forall i | 0 < i < |q| ensures Adjacent(E, q[i - 1], q[i]) {
      var j := |p| - i;
      assert Adjacent(E, p[j - 1], p[j]);
      var e :| e in E && e.Joins(p[j - 1], p[j]);
      assert e.Joins(p[j], p[j - 1]);
    }
    assert Walk(E, q, v, u);
  }

  /** A node that no edge touches is connected to itself alone. */
  lemma Isolated<I>(E: set<Edge<I>>, u: int, v: int)
    requires forall e :: e in E ==> !e.At(u)
    ensures Connected(E, u, v) ==> u == v
  {
    if Connected(E, u, v) {
      var p :| Walk(E, p, u, v);
      assert |p| > 1 ==> Adjacent(E, p[0], p[1]);
    }
  }

  lemma Monotone<I>(E: set<Edge<I>>, F: set<Edge<I>>, u: int, v: int)
    requires E <= F && Connected(E, u, v)
    ensures Connected(F, u, v)
  {
    var p :| Walk(E, p, u, v);
    assert Walk(F, p, u, v);
  }

  /** Only which nodes are adjacent matters, not through which edges. */
  lemma SameAdjacency<I, J>(E: set<Edge<I>>, F: set<Edge<J>>, u: int, v: int)
    requires forall x, y :: Adjacent(E, x, y) ==> Adjacent(F, x, y)
    requires Connected(E, u, v)
    ensures Connected(F, u, v)
  {
    var p :| Walk(E, p, u, v);
    assert Walk(F, p, u, v);
  }

  ghost function Avoiding<I>(E: set<Edge<I>>, x: int): set<Edge<I>> {
    set e | e in E && !e.At(x)
  }

  /** The last time a walk leaves `x` it takes an edge at `x` and never comes back. */
  lemma {:induction false} LastDeparture<I>(E: set<Edge<I>>, p: seq<int>, x: int, t: int)
    returns (e: Edge<I>, z: int)
    requires Walk(E, p, x, t) && x != t
    ensures e in E && e.Joins(x, z) && z != x
    ensures Connected(Avoiding(E, x), z, t)
    decreases |p|
  {
    if j :| 0 < j < |p| && p[j] == x {
      var q := p[j..];
      forall i | 0 < i < |q| ensures Adjacent(E, q[i - 1], q[i]) {
        assert q[i - 1] == p[j + i - 1] && q[i] == p[j + i];
      }
      e, z := LastDeparture(E, q, x, t);
    } else {
      assert Adjacent(E, p[0], p[1]);
      e :| e in E && e.Joins(p[0], p[1]);
      z := p[1];
      var F := Avoiding(E, x);
      var q := p[1..];
      forall i | 0 < i < |q| ensures Adjacent(F, q[i - 1], q[i]) {
        assert Adjacent(E, p[i], p[i + 1]);
        var f :| f in E && f.Joins(p[i], p[i + 1]);
        assert f in F;
      }
      assert Walk(F, q, z, t);
    }
  }

  /** A walk that may use one more edge either does without it or crosses it one way. */
  lemma {:induction false} CrossOrNot<I>(E: set<Edge<I>>, e: Edge<I>, p: seq<int>, u: int, v: int)
    requires Walk(E + {e}, p, u, v)
    ensures || Connected(E, u, v)
            || (Connected(E, u, e.a) && Connected(E, e.b, v))
            || (Connected(E, u, e.b) && Connected(E, e.a, v))
    decreases |p|
  {
    if |p| == 1 {
      Reflexive(E, u);
    } else {
      var q := p[1..];
      assert forall i :: 0 < i < |q| ==> q[i - 1] == p[i] && q[i] == p[i + 1];
      CrossOrNot(E, e, q, p[1], v);
      assert Adjacent(E + {e}, p[0], p[1]);
      var f :| f in E + {e} && f.Joins(u, p[1]);
      if f in E {
        OneEdge(E, f);
        Extend(E, u, p[1], v);
        Extend(E, u, p[1], e.a);
        Extend(E, u, p[1], e.b);
      } else {
        Reflexive(E, u);
        Reflexive(E, p[1]);
      }
    }
  }

  lemma Extend<I>(E: set<Edge<I>>, u: int, w: int, v: int)
    ensures Connected(E, u, w) && Connected(E, w, v) ==> Connected(E, u, v)
  {
    if Connected(E, u, w) && Connected(E, w, v) {
      Transitive(E, u, w, v);
    }
  }

  lemma ConnectedThrough<I>(E: set<Edge<I>>, e: Edge<I>, u: int, v: int)
    requires Connected(E + {e}, u, v)
    ensures || Connected(E, u, v)
            || (Connected(E, u, e.a) && Connected(E, e.b, v))
            || (Connected(E, u, e.b) && Connected(E, e.a, v))
  {
    var p :| Walk(E + {e}, p, u, v);
    CrossOrNot(E, e, p, u, v);
  }

  // --- forests --------------------------------------------------------------

  lemma SubForest<I>(E: set<Edge<I>>, F: set<Edge<I>>)
    requires E <= F && Forest(F)
    ensures Forest(E)
  {
    forall e | e in E ensures !Connected(E - {e}, e.a, e.b) {
      if Connected(E - {e}, e.a, e.b) {
        Monotone(E - {e}, F - {e}, e.a, e.b);
      }
    }
  }

  /** Adding an edge between two separate trees gives a forest, and only then. */
  lemma ForestPlusEdge<I>(E: set<Edge<I>>, e: Edge<I>)
    requires e !in E
    ensures Forest(E + {e}) <==> Forest(E) && !Connected(E, e.a, e.b)
  {
    assert E + {e} - {e} == E;
    if Forest(E) && !Connected(E, e.a, e.b) {
      forall f | f in E ensures !Connected(E + {e} - {f}, f.a, f.b) {
        if Connected(E + {e} - {f}, f.a, f.b) {
          BridgeStaysBridge(E, e, f);
        }
      }
    }
    if Forest(E + {e}) {
      SubForest(E, E + {e});
    }
  }

  lemma BridgeStaysBridge<I>(E: set<Edge<I>>, e: Edge<I>, f: Edge<I>)
    requires e !in E && f in E && Connected(E + {e} - {f}, f.a, f.b)
    ensures Connected(E - {f}, f.a, f.b) || Connected(E, e.a, e.b)
  {
    var F := E - {f};
    assert E + {e} - {f} == F + {e};
    ConnectedThrough(F, e, f.a, f.b);
    if !Connected(F, f.a, f.b) {
      OneEdge(E, f);
      if Connected(F, f.a, e.a) && Connected(F, e.b, f.b) {
        Chain(F, E, f.a, f.b, e.a, e.b);
      } else {
        Chain(F, E, f.a, f.b, e.b, e.a);
        Symmetric(E, e.b, e.a);
      }
    }
  }

  lemma Chain<I>(F: set<Edge<I>>, E: set<Edge<I>>, s: int, t: int, x: int, y: int)
    requires F <= E && Connected(F, s, x) && Connected(F, y, t) && Connected(E, s, t)
    ensures Connected(E, x, y)
  {
    Monotone(F, E, s, x);
    Monotone(F, E, y, t);
    Symmetric(E, s, x);
    Symmetric(E, y, t);
    Transitive(E, x, s, t);
    Transitive(E, x, t, y);
  }

  /** If every edge joined two separate trees of the edges before it, in some order, the
      result is a forest. `rank` gives the order. */
  lemma {:induction false} OrderedForest<I>(E: set<Edge<I>>, rank: map<Edge<I>, int>)
    requires E <= rank.Keys
    requires forall e, f :: e in E && f in E && e != f ==> rank[e] != rank[f]
    requires forall e :: e in E ==> !Connected(Below(E, rank, rank[e]), e.a, e.b)
    ensures Forest(E)
    decreases |E|
  {
    if E != {} {
      var e := Highest(E, rank);
      var F := E - {e};
      forall f | f in F ensures !Connected(Below(F, rank, rank[f]), f.a, f.b) {
        assert Below(F, rank, rank[f]) == Below(E, rank, rank[f]);
      }
      OrderedForest(F, rank);
      assert Below(E, rank, rank[e]) == F;
      ForestPlusEdge(F, e);
      assert F + {e} == E;
    }
  }

  ghost function Below<I>(E: set<Edge<I>>, rank: map<Edge<I>, int>, n: int): set<Edge<I>>
    requires E <= rank.Keys
  {
    set e | e in E && rank[e] < n
  }

  lemma {:induction false} Highest<I>(E: set<Edge<I>>, rank: map<Edge<I>, int>) returns (e: Edge<I>)
    requires E <= rank.Keys && E != {}
    ensures e in E && forall f :: f in E ==> rank[f] <= rank[e]
    decreases |E|
  {
    var g :| g in E;
    if E == {g} {
      e := g;
    } else {
      var h := Highest(E - {g}, rank);
      e := if rank[g] < rank[h] then h else g;
    }
  }

  // --- counting components ----------------------------------------------------

  /** The nodes of `V` in the same component as `v`. */
  ghost function Class<I>(V: set<int>, E: set<Edge<I>>, v: int): set<int> {
    set u | u in V && Connected(E, v, u)
  }

  ghost function Components<I>(V: set<int>, E: set<Edge<I>>): set<set<int>> {
    set v | v in V :: Class(V, E, v)
  }

  lemma SameClass<I>(V: set<int>, E: set<Edge<I>>, u: int, v: int)
    requires Connected(E, u, v)
    ensures Class(V, E, u) == Class(V, E, v)
  {
    Symmetric(E, u, v);
    forall w ensures Connected(E, u, w) <==> Connected(E, v, w) {
      Extend(E, v, u, w);
      Extend(E, u, v, w);
    }
  }

  lemma ClassesDiffer<I>(V: set<int>, E: set<Edge<I>>, u: int, v: int)
    requires u in V && v in V && !Connected(E, u, v)
    ensures Class(V, E, u) != Class(V, E, v)
  {
    Reflexive(E, v);
    assert v in Class(V, E, v) && v !in Class(V, E, u);
  }

  ghost function Any<T>(S: set<T>): (x: T)
    requires S != {}
    ensures x in S
  {
    var x :| x in S;
    x
  }

  ghost function Singletons(V: set<int>): set<set<int>> {
    set v | v in V :: {v}
  }

  lemma {:induction false} CountSingletons(V: set<int>)
    ensures |Singletons(V)| == |V|
    decreases |V|
  {
    if V == {} {
      assert Singletons(V) == {};
    } else {
      var x := Any(V);
      CountSingletons(V - {x});
      assert Singletons(V) == Singletons(V - {x}) + {{x}};
      assert {x} !in Singletons(V - {x});
    }
  }

  lemma NoEdges<I>(V: set<int>, E: set<Edge<I>>)
    requires E == {}
    ensures |Components(V, E)| == |V|
  {
    forall v | v in V ensures Class(V, E, v) == {v} {
      Reflexive(E, v);
      forall u | u in V && Connected(E, v, u) ensures u == v {
        var p :| Walk(E, p, v, u);
        if u != v {
          var _, _ := LastDeparture(E, p, v, u);
        }
      }
    }
    assert Components(V, E) == Singletons(V);
    CountSingletons(V);
  }

  /** An edge inside one component leaves the components as they are. */
  lemma EdgeInside<I>(V: set<int>, E: set<Edge<I>>, e: Edge<I>)
    requires Connected(E, e.a, e.b)
    ensures Components(V, E + {e}) == Components(V, E)
    ensures forall u, v :: Connected(E + {e}, u, v) <==> Connected(E, u, v)
  {
    forall u, v ensures Connected(E + {e}, u, v) <==> Connected(E, u, v) {
      if Connected(E, u, v) {
        Monotone(E, E + {e}, u, v);
      }
      if Connected(E + {e}, u, v) {
        ConnectedThrough(E, e, u, v);
        Symmetric(E, e.a, e.b);
        Extend(E, u, e.a, e.b);
        Extend(E, u, e.b, v);
        Extend(E, u, e.b, e.a);
        Extend(E, u, e.a, v);
      }
    }
    assert forall v :: Class(V, E + {e}, v) == Class(V, E, v);
  }

  /** The two components that the edge joins become one, and the others stay. */
  lemma MergedComponents<I>(V: set<int>, E: set<Edge<I>>, e: Edge<I>)
    requires e.a in V && e.b in V
    ensures var A, B := Class(V, E, e.a), Class(V, E, e.b);
            Components(V, E + {e}) == (Components(V, E) - {A, B}) + {A + B}
  {
    var F := E + {e};
    var A, B := Class(V, E, e.a), Class(V, E, e.b);
    var C := Components(V, E);
    forall v | v in V
      ensures Class(V, F, v) == if v in A || v in B then A + B else Class(V, E, v)
      ensures v in Class(V, E, v)
    {
      MergedClass(V, E, e, v);
      Reflexive(E, v);
    }
    assert Class(V, F, e.a) == A + B;
    forall X | X in C - {A, B} ensures X in Components(V, F) {
      var v :| v in V && X == Class(V, E, v);
      NotIn(V, E, v, e.a);
      NotIn(V, E, v, e.b);
      assert Class(V, F, v) == X;
    }
    forall X | X in Components(V, F) ensures X in (C - {A, B}) + {A + B} {
      var v :| v in V && X == Class(V, F, v);
    }
  }

  /** An edge between two components merges them: exactly one component fewer. */
  lemma EdgeBetween<I>(V: set<int>, E: set<Edge<I>>, e: Edge<I>)
    requires e.a in V && e.b in V && !Connected(E, e.a, e.b)
    ensures |Components(V, E + {e})| == |Components(V, E)| - 1
  {
    var A, B := Class(V, E, e.a), Class(V, E, e.b);
    var C := Components(V, E);
    MergedComponents(V, E, e);
    ClassesDiffer(V, E, e.a, e.b);
    assert A in C && B in C;
    Reflexive(E, e.a);
    if A + B in C - {A, B} {
      var v :| v in V && A + B == Class(V, E, v);
      assert e.a in A;
      assert e.a in Class(V, E, v);
      SameClass(V, E, v, e.a);
    }
    assert C - {A, B} == C - {A} - {B};
  }

  lemma NotIn<I>(V: set<int>, E: set<Edge<I>>, v: int, x: int)
    requires v in V && Class(V, E, v) != Class(V, E, x)
    ensures v !in Class(V, E, x)
  {
    if v in Class(V, E, x) {
      SameClass(V, E, x, v);
    }
  }

  lemma MergedClass<I>(V: set<int>, E: set<Edge<I>>, e: Edge<I>, v: int)
    requires v in V && e.a in V && e.b in V
    ensures var A, B := Class(V, E, e.a), Class(V, E, e.b);
            Class(V, E + {e}, v) == if v in A || v in B then A + B else Class(V, E, v)
  {
    var F := E + {e};
    var A, B := Class(V, E, e.a), Class(V, E, e.b);
    OneEdge(F, e);
    if v in A || v in B {
      var x := if v in A then e.a else e.b;
      Monotone(E, F, x, v);
      Symmetric(F, x, v);
      Symmetric(E, x, v);
      Extend(F, v, x, e.a);
      Extend(F, v, x, e.b);
      Reflexive(F, x);
      forall u | u in V ensures Connected(F, v, u) <==> u in A || u in B {
        if u in A {
          Monotone(E, F, e.a, u);
          Transitive(F, v, e.a, u);
        }
        if u in B {
          Monotone(E, F, e.b, u);
          Transitive(F, v, e.b, u);
        }
        if Connected(F, v, u) {
          ConnectedThrough(E, e, v, u);
          Extend(E, x, v, u);
        }
      }
    } else {
      forall u | u in V ensures Connected(F, v, u) <==> Connected(E, v, u) {
        if Connected(E, v, u) {
          Monotone(E, F, v, u);
        }
        if Connected(F, v, u) {
          ConnectedThrough(E, e, v, u);
          if Connected(E, v, e.a) {
            Symmetric(E, v, e.a);
          }
          if Connected(E, v, e.b) {
            Symmetric(E, v, e.b);
          }
        }
      }
    }
  }

  /** The counting law: with `E` edges on `V`, there are at least |V| - |E| components, and
      exactly that many when, and only when, the edges form a forest. */
  lemma {:induction false} ForestCount<I>(V: set<int>, E: set<Edge<I>>)
    requires EndsIn(E, V)
    ensures |E| + |Components(V, E)| >= |V|
    ensures Forest(E) <==> |E| + |Components(V, E)| == |V|
    decreases |E|
  {
    if E == {} {
      NoEdges(V, E);
    } else if Forest(E) {
      var e :| e in E;
      var F := E - {e};
      ForestCount(V, F);
      SubForest(F, E);
      EdgeBetween(V, F, e);
      assert F + {e} == E;
    } else {
      var e :| e in E && Connected(E - {e}, e.a, e.b);
      var F := E - {e};
      ForestCount(V, F);
      EdgeInside(V, F, e);
      assert F + {e} == E;
    }
  }
}
