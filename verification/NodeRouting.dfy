/** The routing part of `PubSubNode`: its subscription tables, and the handlers that change them.
    Each method is the code between two awaits, and does what `Routing` says. */
module NodeRouting {
  import opened Links
  import opened Subjects
  import opened Routing
  import opened Sequences

  /** The connections tagged with each subject. */
  type Table = map<Subject, seq<Conn>>

  // --- one table --------------------------------------------------------------------------------

  ghost function TagsOf(table: Table): set<Tag> {
    set s, c | s in table && c in table[s] :: Tag(c, s)
  }

  /** No empty list, no connection twice, and only connections of one side. */
  ghost predicate TableOk(table: Table, up: bool) {
    forall s :: s in table ==> table[s] != [] && Distinct(table[s]) && forall c :: c in table[s] ==> c.up == up
  }

  function Get(table: Table, s: Subject): seq<Conn> {
    if s in table then table[s] else []
  }

  function AddSubscriber(table: Table, s: Subject, c: Conn): Table {
    var connections := Get(table, s);
    table[s := if c in connections then connections else connections + [c]]
  }

  function Without(cs: seq<Conn>, c: Conn): seq<Conn> {
    if cs == [] then [] else if cs[0] == c then cs[1..] else [cs[0]] + Without(cs[1..], c)
  }

  /** A subject without connections leaves the table. */
  function DiscardSubscriber(table: Table, s: Subject, c: Conn): Table {
    if c !in Get(table, s) then table
    else if Without(table[s], c) == [] then table - {s}
    else table[s := Without(table[s], c)]
  }

  lemma TagIsIn(table: Table, s: Subject, c: Conn)
    ensures Tag(c, s) in TagsOf(table) <==> c in Get(table, s)
  {
  }

  lemma AddIs(table: Table, s: Subject, c: Conn, up: bool)
    requires TableOk(table, up) && c.up == up
    ensures TableOk(AddSubscriber(table, s, c), up)
    ensures TagsOf(AddSubscriber(table, s, c)) == TagsOf(table) + {Tag(c, s)}
  {
    var table' := AddSubscriber(table, s, c);
    if c !in Get(table, s) {
      DistinctAppend(Get(table, s), c);
    }
    forall t ensures t in TagsOf(table') <==> t in TagsOf(table) + {Tag(c, s)} {
      TagIsIn(table, t.subject, t.conn);
      TagIsIn(table', t.subject, t.conn);
    }
  }

  lemma {:induction false} WithoutIs(cs: seq<Conn>, c: Conn)
    requires Distinct(cs)
    ensures Distinct(Without(cs, c)) && Elements(Without(cs, c)) == Elements(cs) - {c}
  {
    if cs != [] {
      var rest := Without(cs[1..], c);
      WithoutIs(cs[1..], c);
      assert Elements(cs) == {cs[0]} + Elements(cs[1..]);
      assert cs[0] !in cs[1..];
      if cs[0] != c {
        assert cs[0] !in Elements(rest);
        DistinctConcat([cs[0]], rest);
      }
    }
  }

  lemma DiscardIs(table: Table, s: Subject, c: Conn, up: bool)
    requires TableOk(table, up)
    ensures TableOk(DiscardSubscriber(table, s, c), up)
    ensures TagsOf(DiscardSubscriber(table, s, c)) == TagsOf(table) - {Tag(c, s)}
  {
    var table' := DiscardSubscriber(table, s, c);
    if c in Get(table, s) {
      WithoutIs(table[s], c);
      forall d ensures d in Without(table[s], c) <==> d in table[s] && d != c {
        assert d in Elements(Without(table[s], c)) <==> d in Elements(table[s]) - {c};
      }
    }
    forall t ensures t in TagsOf(table') <==> t in TagsOf(table) - {Tag(c, s)} {
      TagIsIn(table, t.subject, t.conn);
      TagIsIn(table', t.subject, t.conn);
    }
  }

  /** Every connection tagged with a subject that `subject` matches, once each. */
  method MatchingConnections(table: Table, subject: Subject) returns (connections: seq<Conn>)
    ensures Distinct(connections)
    ensures forall c :: c in connections <==> exists s :: s in table && Match(subject, s) && c in table[s]
  {
    connections := [];
    var left := table.Keys;
    while left != {}
      invariant left <= table.Keys && Distinct(connections)
      invariant forall c :: c in connections <==>
                  exists s :: s in table.Keys - left && Match(subject, s) && c in table[s]
      decreases left
    {
      var tagged :| tagged in left;
      ghost var before := connections;
      if Match(subject, tagged) {
        connections := Update(connections, table[tagged]);
      }
      left := left - {tagged};
      forall c ensures c in connections <==> exists s :: s in table.Keys - left && Match(subject, s) && c in table[s] {
        OneMoreSubject(table, subject, left, tagged, c);
      }
    }
  }

  lemma OneMoreSubject(table: Table, subject: Subject, left: set<Subject>, tagged: Subject, c: Conn)
    requires tagged in table && tagged !in left
    ensures (exists s :: s in table.Keys - left && Match(subject, s) && c in table[s])
            <==> (exists s :: s in table.Keys - (left + {tagged}) && Match(subject, s) && c in table[s])
                 || (Match(subject, tagged) && c in table[tagged])
  {
  }

  /** Append the connections that are not there yet. */
  method Update(connections: seq<Conn>, more: seq<Conn>) returns (all: seq<Conn>)
    requires Distinct(connections)
    ensures Distinct(all) && forall c :: c in all <==> c in connections || c in more
  {
    all := connections;
    for i := 0 to |more|
      invariant Distinct(all) && forall c :: c in all <==> c in connections || c in more[..i]
    {
      if more[i] !in all {
        DistinctAppend(all, more[i]);
        all := all + [more[i]];
      }
    }
  }

  // --- the node -----------------------------------------------------------------------------------

  function Except(cs: seq<Conn>, left: set<Conn>): seq<Conn> {
    if cs == [] then []
    else (if cs[0] in left then [] else [cs[0]]) + Except(cs[1..], left)
  }

  lemma {:induction false} ExceptIs(cs: seq<Conn>, left: set<Conn>)
    requires Distinct(cs)
    ensures Distinct(Except(cs, left)) && Elements(Except(cs, left)) == Elements(cs) - left
  {
    if cs != [] {
      var rest := Except(cs[1..], left);
      ExceptIs(cs[1..], left);
      assert Elements(cs) == {cs[0]} + Elements(cs[1..]);
      assert cs[0] !in cs[1..];
      if cs[0] !in left {
        assert cs[0] !in Elements(rest);
        DistinctConcat([cs[0]], rest);
      } else {
        assert Except(cs, left) == rest;
      }
    }
  }

  /** What forgetting a connection's tags for some subjects, one after another, comes to. */
  ghost function ForgetAll(r: Router, c: Conn, order: seq<Subject>): (Router, seq<Send>)
    decreases |order|
  {
    if order == [] then (r, [])
    else
      var n := |order| - 1;
      var (before, sends) := ForgetAll(r, c, order[..n]);
      var (after, send) := Routing.Unsubscribe(before, c, order[n]);
      (after, sends + [send])
  }

  lemma {:induction false} ForgetAllIs(r: Router, c: Conn, order: seq<Subject>)
    ensures ForgetAll(r, c, order).0 == r.(tags := set t | t in r.tags && !(t.conn == c && t.subject in order))
    decreases |order|
  {
    if order != [] {
      var n := |order| - 1;
      ForgetAllIs(r, c, order[..n]);
      assert order == order[..n] + [order[n]];
    }
  }

  /** `held` belongs to the connections being checked, so it is history here. */
  class RoutingNode {
    var upstream: seq<Conn>
    var downstream: seq<Conn>
    var pending: set<Conn>
    var upstreamSubscriptions: Table
    var downstreamSubscriptions: Table
    ghost var held: map<Conn, seq<Message>>

    ghost predicate Valid()
      reads this
    {
      && Distinct(downstream + upstream)
      && TableOk(downstreamSubscriptions, false) && TableOk(upstreamSubscriptions, true)
    }

    ghost function Model(): Router
      reads this
    {
      Router(Elements(downstream + upstream), pending, held,
             TagsOf(downstreamSubscriptions) + TagsOf(upstreamSubscriptions))
    }

    constructor ()
      ensures Valid() && Model() == NEW_ROUTER
    {
      upstream, downstream, pending := [], [], {};
      upstreamSubscriptions, downstreamSubscriptions, held := map[], map[], map[];
    }

    /** The connections but `source` and the pending ones. */
    function ActivePeersExcept(source: Conn): seq<Conn>
      reads this
    {
      Except(downstream + upstream, pending + {source})
    }

    lemma PeersAre(source: Conn)
      requires Valid()
      ensures Distinct(ActivePeersExcept(source))
      ensures Elements(ActivePeersExcept(source)) == Model().Active() - {source}
    {
      ExceptIs(downstream + upstream, pending + {source});
    }

    function Subscribers(s: Subject): seq<Conn>
      reads this
    {
      Get(downstreamSubscriptions, s) + Get(upstreamSubscriptions, s)
    }

    lemma SubscribersAre(s: Subject)
      requires Valid()
      ensures Distinct(Subscribers(s)) && Elements(Subscribers(s)) == Model().Subscribers(s)
      ensures |Subscribers(s)| == |Model().Subscribers(s)|
    {
      var down, up := Get(downstreamSubscriptions, s), Get(upstreamSubscriptions, s);
      DistinctConcat(down, up);
      forall c ensures c in Elements(down + up) <==> c in Model().Subscribers(s) {
        TagIsIn(downstreamSubscriptions, s, c);
        TagIsIn(upstreamSubscriptions, s, c);
        if c in Model().Subscribers(s) {
          var t :| t in Model().tags && t.subject == s && t.conn == c;
          assert t == Tag(c, s);
        }
        if Tag(c, s) in Model().tags {
          assert Tag(c, s).conn == c;
        }
      }
      CountDistinct(down + up);
    }

    /** Tag `c` with `s`, in the table of its side. */
    method AddTag(c: Conn, s: Subject)
      requires Valid()
      modifies this`upstreamSubscriptions, this`downstreamSubscriptions
      ensures Valid() && Model() == old(Model()).(tags := old(Model()).tags + {Tag(c, s)})
    {
      if c.up {
        AddIs(upstreamSubscriptions, s, c, true);
        upstreamSubscriptions := AddSubscriber(upstreamSubscriptions, s, c);
      } else {
        AddIs(downstreamSubscriptions, s, c, false);
        downstreamSubscriptions := AddSubscriber(downstreamSubscriptions, s, c);
      }
    }

    lemma TagSide(c: Conn, s: Subject)
      requires Valid()
      ensures Tag(c, s) in Model().tags <==>
              c in Get(if c.up then upstreamSubscriptions else downstreamSubscriptions, s)
    {
      TagIsIn(upstreamSubscriptions, s, c);
      TagIsIn(downstreamSubscriptions, s, c);
    }

    /** Remove the tag. False if it was not there. */
    method DiscardTag(c: Conn, s: Subject) returns (there: bool)
      requires Valid()
      modifies this`upstreamSubscriptions, this`downstreamSubscriptions
      ensures Valid() && there == (Tag(c, s) in old(Model()).tags)
      ensures Model() == old(Model()).(tags := old(Model()).tags - {Tag(c, s)})
    {
      TagSide(c, s);
      if c.up {
        DiscardIs(upstreamSubscriptions, s, c, true);
        there := c in Get(upstreamSubscriptions, s);
        assert Tag(c, s) !in TagsOf(downstreamSubscriptions) by {
          TagIsIn(downstreamSubscriptions, s, c);
        }
        upstreamSubscriptions := DiscardSubscriber(upstreamSubscriptions, s, c);
      } else {
        DiscardIs(downstreamSubscriptions, s, c, false);
        there := c in Get(downstreamSubscriptions, s);
        assert Tag(c, s) !in TagsOf(upstreamSubscriptions) by {
          TagIsIn(upstreamSubscriptions, s, c);
        }
        downstreamSubscriptions := DiscardSubscriber(downstreamSubscriptions, s, c);
      }
      assert Model().tags == old(Model()).tags - {Tag(c, s)};
    }

    /** Whom to tell that this node no longer wants `s` from them. */
    method Unsubscribe(c: Conn, s: Subject) returns (to: seq<Conn>)
      requires Valid()
      modifies this`upstreamSubscriptions, this`downstreamSubscriptions
      ensures Valid() && Distinct(to)
      ensures (Model(), Send(Elements(to), Subscription(s, false))) == Routing.Unsubscribe(old(Model()), c, s)
    {
      ghost var before := Model();
      var there := DiscardTag(c, s);
      if !there {
        assert before.(tags := before.tags - {Tag(c, s)}) == Model();
        to := [];
        assert Elements(to) == {};
        return;
      }
      var remaining := Subscribers(s);
      SubscribersAre(s);
      PeersAre(c);
      if remaining == [] {
        to := ActivePeersExcept(c);
      } else if |remaining| == 1 {
        to := remaining;
      } else {
        to := [];
        assert Elements(to) == {};
      }
    }

    method HandleSubscription(source: Conn, s: Subject, subscribe: bool) returns (to: seq<Conn>)
      requires Valid()
      modifies this`upstreamSubscriptions, this`downstreamSubscriptions
      ensures Valid() && Distinct(to)
      ensures (Model(), Send(Elements(to), Subscription(s, subscribe)))
              == Routing.Handle(old(Model()), source, Subscription(s, subscribe))
    {
      if subscribe {
        AddTag(source, s);
        PeersAre(source);
        to := ActivePeersExcept(source);
      } else {
        to := Unsubscribe(source, s);
      }
    }

    /** Every connection gets one copy, however many of its tags match, and `source` none. */
    method HandlePublish(source: Conn, s: Subject, payload: seq<int>) returns (to: seq<Conn>)
      requires Valid()
      ensures Distinct(to)
      ensures (Model(), Send(Elements(to), Publish(s, payload))) == Routing.Handle(Model(), source, Publish(s, payload))
    {
      var down := MatchingConnections(downstreamSubscriptions, s);
      var up := MatchingConnections(upstreamSubscriptions, s);
      DistinctConcat(down, up);
      ExceptIs(down + up, {source});
      to := Except(down + up, {source});
      forall c ensures c in Elements(down + up) <==> c in Model().Matching(s) {
        MatchingAre(down, up, s, c);
      }
      assert Elements(down + up) == Model().Matching(s);
    }

    lemma MatchingAre(down: seq<Conn>, up: seq<Conn>, s: Subject, c: Conn)
      requires forall d :: d in down <==>
                 exists k :: k in downstreamSubscriptions && Match(s, k) && d in downstreamSubscriptions[k]
      requires forall d :: d in up <==>
                 exists k :: k in upstreamSubscriptions && Match(s, k) && d in upstreamSubscriptions[k]
      ensures c in Elements(down + up) <==> c in Model().Matching(s)
    {
      if c in down {
        var k :| k in downstreamSubscriptions && Match(s, k) && c in downstreamSubscriptions[k];
        assert Tag(c, k) in Model().tags && Tag(c, k).conn == c;
      }
      if c in up {
        var k :| k in upstreamSubscriptions && Match(s, k) && c in upstreamSubscriptions[k];
        assert Tag(c, k) in Model().tags && Tag(c, k).conn == c;
      }
      if c in Model().Matching(s) {
        var t :| t in Model().tags && Match(s, t.subject) && t.conn == c;
        TagIsIn(downstreamSubscriptions, t.subject, c);
        TagIsIn(upstreamSubscriptions, t.subject, c);
      }
    }

    /** Untag a lost connection from every subject, and tell those who need to know. */
    method DropConnection(c: Conn) returns (subjects: seq<Subject>, tos: seq<seq<Conn>>)
      requires Valid()
      modifies this`upstreamSubscriptions, this`downstreamSubscriptions
      ensures Valid() && Model() == ForgetAll(old(Model()), c, subjects).0
      ensures Lists(subjects, set t | t in old(Model()).tags && t.conn == c :: t.subject)
      ensures |tos| == |subjects| == |ForgetAll(old(Model()), c, subjects).1|
      ensures forall i :: 0 <= i < |tos| ==>
                Distinct(tos[i])
                && Send(Elements(tos[i]), Subscription(subjects[i], false)) == ForgetAll(old(Model()), c, subjects).1[i]
      ensures forall t :: t in Model().tags <==> t in old(Model()).tags && t.conn != c
    {
      ghost var before := Model();
      subjects := SubjectsOf(c);
      tos := [];
      for i := 0 to |subjects|
        invariant Valid() && |tos| == i == |ForgetAll(before, c, subjects[..i]).1|
        invariant Model() == ForgetAll(before, c, subjects[..i]).0
        invariant forall j :: 0 <= j < i ==>
                    Distinct(tos[j])
                    && Send(Elements(tos[j]), Subscription(subjects[j], false))
                       == ForgetAll(before, c, subjects[..i]).1[j]
      {
        assert subjects[..i + 1][..i] == subjects[..i];
        var to := Unsubscribe(c, subjects[i]);
        tos := tos + [to];
      }
      assert subjects[..|subjects|] == subjects;
      ForgetAllIs(before, c, subjects);
      assert forall t :: t in before.tags && t.conn == c ==> t.subject in subjects;
    }

    /** The subjects that `c` is tagged with. */
    method SubjectsOf(c: Conn) returns (subjects: seq<Subject>)
      requires Valid()
      ensures Lists(subjects, set t | t in Model().tags && t.conn == c :: t.subject)
    {
      var table := if c.up then upstreamSubscriptions else downstreamSubscriptions;
      subjects := [];
      var left := table.Keys;
      while left != {}
        invariant left <= table.Keys && Distinct(subjects)
        invariant forall s :: s in subjects <==> s in table.Keys - left && c in table[s]
        decreases left
      {
        var s :| s in left;
        left := left - {s};
        if c in table[s] {
          DistinctAppend(subjects, s);
          subjects := subjects + [s];
        }
      }
      forall s ensures s in subjects <==> s in set t | t in Model().tags && t.conn == c :: t.subject {
        TagSide(c, s);
        if Tag(c, s) in Model().tags {
          assert Tag(c, s).subject == s;
        }
      }
    }
  }
}
