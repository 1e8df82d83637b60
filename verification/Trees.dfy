/** Subtrees of a forest of links, as a message sees them: what lies ahead of it when it arrives
    on a connection. */
module Trees {
  import opened Graphs
  import opened Links

  /** The nodes reached by a message that arrives on `c` and never goes back over it. */
  ghost function Ahead(E: set<Link>, V: set<NodeId>, c: Conn): set<NodeId> {
    set w | w in V && Connected(E - {c.link}, c.Node(), w)
  }

  /** `d` is another connection of the node where `c` ends. */
  ghost predicate Onward(E: set<Link>, c: Conn, d: Conn) {
    d.link in E && d.Node() == c.Node() && d != c
  }

  lemma NoSelfLinks(E: set<Link>, l: Link)
    requires Forest(E) && l in E
    ensures l.a != l.b
  {
    Reflexive(E - {l}, l.a);
  }

  lemma OtherLink(E: set<Link>, c: Conn, d: Conn)
    requires Forest(E) && Onward(E, c, d)
    ensures d.link != c.link
  {
    NoSelfLinks(E, d.link);
    assert c == Conn(c.link, c.up) && d == Conn(d.link, d.up);
  }

  /** Either end of a link of a forest is cut off from the other without the link. */
  lemma CutOff(E: set<Link>, c: Conn)
    requires Forest(E) && c.link in E
    ensures !Connected(E - {c.link}, c.Node(), c.Peer().Node())
  {
    if Connected(E - {c.link}, c.Node(), c.Peer().Node()) {
      Symmetric(E - {c.link}, c.Node(), c.Peer().Node());
    }
  }

  /** Beyond `d`, no path needs the other connections of the node. */
  lemma BeyondAvoids(E: set<Link>, c: Conn, d: Conn, w: NodeId)
    requires Forest(E) && c.link in E && Onward(E, c, d)
    requires Connected(E - {d.link}, d.Peer().Node(), w)
    ensures Connected(E - {d.link} - {c.link}, d.Peer().Node(), w)
  {
    OtherLink(E, c, d);
    CutOff(E, d.Peer());
    var F := E - {d.link} - {c.link};
    var G := E - {d.link};
    assert F + {c.link} == G;
    var z, n, y := d.Peer().Node(), c.Node(), c.Peer().Node();
    ConnectedThrough(F, c.link, z, w);
    if Connected(F, z, n) {
      Monotone(F, G, z, n);
    }
    if Connected(F, z, y) {
      Monotone(F, G, z, y);
      OneEdge(G, c.link);
      Transitive(G, z, y, n);
    }
  }

  /** The subtree beyond `d` is part of what lies ahead of `c`, without the node itself. */
  lemma SubtreeInside(E: set<Link>, V: set<NodeId>, c: Conn, d: Conn)
    requires Forest(E) && c.link in E && Onward(E, c, d)
    ensures Ahead(E, V, d.Peer()) <= Ahead(E, V, c) - {c.Node()}
  {
    OtherLink(E, c, d);
    CutOff(E, d.Peer());
    var G := E - {c.link};
    forall w | w in Ahead(E, V, d.Peer()) ensures w in Ahead(E, V, c) - {c.Node()} {
      BeyondAvoids(E, c, d, w);
      Monotone(E - {d.link} - {c.link}, G, d.Peer().Node(), w);
      OneEdge(G, d.link);
      Transitive(G, c.Node(), d.Peer().Node(), w);
    }
  }

  lemma SubtreesDisjoint(E: set<Link>, V: set<NodeId>, d: Conn, f: Conn)
    requires Forest(E) && d.link in E && Onward(E, d, f)
    ensures Ahead(E, V, d.Peer()) !! Ahead(E, V, f.Peer())
  {
    OtherLink(E, d, f);
    CutOff(E, d.Peer());
    var F, G := E - {d.link} - {f.link}, E - {d.link};
    assert E - {f.link} - {d.link} == F;
    var z, x, n := d.Peer().Node(), f.Peer().Node(), d.Node();
    forall w | w in Ahead(E, V, d.Peer()) && w in Ahead(E, V, f.Peer()) ensures false {
      BeyondAvoids(E, f, d, w);
      BeyondAvoids(E, d, f, w);
      Symmetric(F, x, w);
      Transitive(F, z, w, x);
      Monotone(F, G, z, x);
      OneEdge(G, f.link);
      Transitive(G, z, x, n);
    }
  }

  /** Everything ahead, other than the node itself, is beyond one of its other connections. */
  lemma SomeSubtree(E: set<Link>, V: set<NodeId>, c: Conn, w: NodeId) returns (d: Conn)
    requires Forest(E) && c.link in E && w in Ahead(E, V, c) && w != c.Node()
    ensures Onward(E, c, d) && w in Ahead(E, V, d.Peer())
  {
    var G := E - {c.link};
    var p :| Walk(G, p, c.Node(), w);
    var e, z := LastDeparture(G, p, c.Node(), w);
    d := Conn(e, e.a == c.Node());
    Monotone(Avoiding(G, c.Node()), E - {e}, z, w);
  }

  lemma OnlySubtree(E: set<Link>, V: set<NodeId>, c: Conn, w: NodeId)
    requires Forest(E) && c.link in E && (w !in Ahead(E, V, c) || w == c.Node())
    ensures forall d :: Onward(E, c, d) ==> w !in Ahead(E, V, d.Peer())
  {
    forall d | Onward(E, c, d) ensures w !in Ahead(E, V, d.Peer()) {
      SubtreeInside(E, V, c, d);
    }
  }

  // --- sums over sets of connections --------------------------------------------------

  ghost function Sum(S: set<Conn>, f: Conn -> int): int
    decreases |S|
  {
    if S == {} then 0 else var x := Any(S); f(x) + Sum(S - {x}, f)
  }

  lemma {:induction false} SumPick(S: set<Conn>, f: Conn -> int, x: Conn)
    requires x in S
    ensures Sum(S, f) == f(x) + Sum(S - {x}, f)
    decreases |S|
  {
    var y := Any(S);
    if y != x {
      SumPick(S - {y}, f, x);
      SumPick(S - {x}, f, y);
      assert S - {y} - {x} == S - {x} - {y};
    }
  }

  lemma {:induction false} SumPlus(S: set<Conn>, f: Conn -> int, g: Conn -> int, h: Conn -> int)
    requires forall x :: x in S ==> h(x) == f(x) + g(x)
    ensures Sum(S, h) == Sum(S, f) + Sum(S, g)
    decreases |S|
  {
    if S != {} {
      SumPlus(S - {Any(S)}, f, g, h);
    }
  }

  lemma {:induction false} SumZero(S: set<Conn>, f: Conn -> int)
    requires forall x :: x in S ==> f(x) == 0
    ensures Sum(S, f) == 0
    decreases |S|
  {
    if S != {} {
      SumZero(S - {Any(S)}, f);
    }
  }

  /** Only the members of `P` contribute to the sum. */
  lemma {:induction false} SumSupport(S: set<Conn>, P: set<Conn>, f: Conn -> int, g: Conn -> int)
    requires P <= S
    requires forall x :: x in S ==> f(x) == if x in P then g(x) else 0
    ensures Sum(S, f) == Sum(P, g)
    decreases |P|
  {
    if P == {} {
      SumZero(S, f);
    } else {
      var x := Any(P);
      SumPick(S, f, x);
      SumSupport(S - {x}, P - {x}, f, g);
    }
  }

  /** Connections that lead on from the node where `c` ends, seen from their other ends. */
  ghost predicate AllOnward(E: set<Link>, c: Conn, P: set<Conn>) {
    forall x :: x in P ==> Onward(E, c, x.Peer())
  }

  ghost function Beyond(E: set<Link>, V: set<NodeId>, P: set<Conn>): set<NodeId> {
    set w | w in V && exists x :: x in P && w in Ahead(E, V, x)
  }

  ghost function Size(E: set<Link>, V: set<NodeId>): Conn -> int {
    c => |Ahead(E, V, c)|
  }

  lemma {:induction false} SizesAddUp(E: set<Link>, V: set<NodeId>, c: Conn, P: set<Conn>)
    requires Forest(E) && c.link in E && AllOnward(E, c, P)
    ensures Sum(P, Size(E, V)) == |Beyond(E, V, P)|
    decreases |P|
  {
    if P == {} {
      assert Beyond(E, V, P) == {};
    } else {
      var x := Any(P);
      var Q := P - {x};
      SizesAddUp(E, V, c, Q);
      forall y | y in Q ensures Ahead(E, V, x) !! Ahead(E, V, y) {
        assert x.Peer().Peer() == x && y.Peer().Peer() == y;
        assert Onward(E, x.Peer(), y.Peer());
        SubtreesDisjoint(E, V, x.Peer(), y.Peer());
      }
      assert Beyond(E, V, P) == Ahead(E, V, x) + Beyond(E, V, Q);
      assert Ahead(E, V, x) !! Beyond(E, V, Q);
    }
  }

  /** Whatever part of the node's other connections a message is passed on to, the subtrees
      still to go add up to less than the one before. */
  lemma Shrinks(E: set<Link>, V: set<NodeId>, c: Conn, P: set<Conn>)
    requires Forest(E) && c.link in E && AllOnward(E, c, P) && c.Node() in V
    ensures Sum(P, Size(E, V)) < |Ahead(E, V, c)|
  {
    SizesAddUp(E, V, c, P);
    Reflexive(E - {c.link}, c.Node());
    forall x | x in P ensures Ahead(E, V, x) <= Ahead(E, V, c) - {c.Node()} {
      assert x.Peer().Peer() == x;
      SubtreeInside(E, V, c, x.Peer());
    }
    assert Beyond(E, V, P) <= Ahead(E, V, c) - {c.Node()};
    Smaller(Beyond(E, V, P), Ahead(E, V, c) - {c.Node()});
  }

  lemma {:induction false} Smaller<T>(A: set<T>, B: set<T>)
    requires A <= B
    ensures |A| <= |B|
    decreases |A|
  {
    if A != {} {
      var x := Any(A);
      Smaller(A - {x}, B - {x});
    }
  }

  /** 1 if `k` lies ahead. */
  ghost function Finds(E: set<Link>, V: set<NodeId>, k: NodeId): Conn -> int {
    c => if k in Ahead(E, V, c) then 1 else 0
  }

  /** A node ahead is beyond exactly one of the connections, if beyond any of them. */
  lemma {:induction false} FoundOnce(E: set<Link>, V: set<NodeId>, c: Conn, P: set<Conn>, k: NodeId)
    requires Forest(E) && c.link in E && AllOnward(E, c, P)
    ensures Sum(P, Finds(E, V, k)) == if exists x :: x in P && k in Ahead(E, V, x) then 1 else 0
    decreases |P|
  {
    if P != {} {
      var x := Any(P);
      var Q := P - {x};
      FoundOnce(E, V, c, Q, k);
      forall y | y in Q ensures Ahead(E, V, x) !! Ahead(E, V, y) {
        assert x.Peer().Peer() == x && y.Peer().Peer() == y;
        assert Onward(E, x.Peer(), y.Peer());
        SubtreesDisjoint(E, V, x.Peer(), y.Peer());
      }
    }
  }
}
