/** Both guards of the cycle check are needed: two runs that end in a cycle, each breaking one
    of them and keeping the other. In both, two nodes connect to each other at the same time. */
module CycleRaces {
  import opened Graphs
  import opened Links
  import opened CycleCheck
  import opened Results

  const L1: Link := Edge(0, 0, 1)
  const L2: Link := Edge(1, 1, 0)
  const U1 := Conn(L1, true)
  const D1 := Conn(L1, false)
  const U2 := Conn(L2, true)
  const D2 := Conn(L2, false)

  datatype Guard = HelloGuard | QueryGuard | BothGuards

  ghost predicate Keeps(s: State, e: Event, g: Guard) {
    match g
    case HelloGuard => HelloFirst(s, e)
    case QueryGuard => NoQueryBetween(s, e)
    case BothGuards => HelloFirst(s, e) && NoQueryBetween(s, e)
  }

  /** The events lead from `s` to `t`, each enabled when it happens and keeping guard `g`. */
  ghost predicate Leads(s: State, events: seq<Event>, t: State, g: Guard)
    decreases |events|
  {
    if events == [] then s == t
    else Enabled(s, events[0]) && Keeps(s, events[0], g) && Leads(Step(s, events[0]), events[1..], t, g)
  }

  ghost predicate Reaches(s: State, t: State, g: Guard) {
    exists events :: Leads(s, events, t, g)
  }

  lemma Unfold2(s: State, e1: Event, s1: State, e2: Event, t: State, g: Guard)
    requires Enabled(s, e1) && Keeps(s, e1, g) && s1 == Step(s, e1)
    requires Enabled(s1, e2) && Keeps(s1, e2, g) && t == Step(s1, e2)
    ensures Leads(s, [e1, e2], t, g)
  {
    assert [e1, e2][1..] == [e2];
    assert Leads(Step(s, e1), [e2], t, g);
  }

  lemma {:induction false} LeadsOn(s: State, a: seq<Event>, t: State, b: seq<Event>, u: State, g: Guard)
    requires Leads(s, a, t, g) && Leads(t, b, u, g)
    ensures Leads(s, a + b, u, g)
    decreases |a|
  {
    if a == [] {
      assert a + b == b;
    } else {
      LeadsOn(Step(s, a[0]), a[1..], t, b, u, g);
      assert (a + b)[1..] == a[1..] + b;
    }
  }

  lemma ReachesOn(s: State, t: State, u: State, g: Guard)
    requires Reaches(s, t, g) && Reaches(t, u, g)
    ensures Reaches(s, u, g)
  {
    var a :| Leads(s, a, t, g);
    var b :| Leads(t, b, u, g);
    LeadsOn(s, a, t, b, u, g);
  }

  const START := State(map[0 := FRESH_NODE, 1 := FRESH_NODE], {}, {}, {}, [], map[])

  const A2 := State(
    map[0 := Node({U1}, {U1}, map[], map[], false, false, map[U1 := Waiting], false),
        1 := Node({D1}, {}, map[], map[], false, false, map[], false)],
    {Msg(D1, Hello(0)), Msg(U1, Hello(1))},
    {L1}, {L1}, [], map[])

  lemma ATo2()
    ensures Reaches(START, A2, QueryGuard)
  {
    var t1 := Step(START, Establish(L1));
    var t2 := Step(t1, Arrive(L1));
    assert t2.nodes[0] == A2.nodes[0];
    assert t2.nodes[1] == A2.nodes[1];
    assert t2.nodes == A2.nodes;
    assert t2.net == A2.net;
    Unfold2(START, Establish(L1), t1, Arrive(L1), A2, QueryGuard);
  }

  const A4 := State(
    map[0 := Node({U1, D2}, {U1}, map[], map[], false, false, map[U1 := Waiting], false),
        1 := Node({D1, U2}, {U2}, map[], map[], false, false, map[U2 := Waiting], false)],
    {Msg(D1, Hello(0)), Msg(U1, Hello(1)), Msg(D2, Hello(1)), Msg(U2, Hello(0))},
    {L1, L2}, {L1, L2}, [], map[])

  lemma ATo4()
    ensures Reaches(A2, A4, QueryGuard)
  {
    var t1 := Step(A2, Establish(L2));
    var t2 := Step(t1, Arrive(L2));
    assert t2.nodes[0] == A4.nodes[0];
    assert t2.nodes[1] == A4.nodes[1];
    assert t2.nodes == A4.nodes;
    assert t2.net == A4.net;
    Unfold2(A2, Establish(L2), t1, Arrive(L2), A4, QueryGuard);
  }

  const A6 := State(
    map[0 := Node({U1, D2}, {U1}, map[U1 := 1], map[], false, false, map[U1 := Waiting], false),
        1 := Node({D1, U2}, {U2}, map[U2 := 0], map[], false, false, map[U2 := Waiting], false)],
    {Msg(D1, Hello(0)), Msg(U1, Hello(1)), Msg(D2, Hello(1)), Msg(U2, Hello(0))},
    {L1, L2}, {L1, L2}, [], map[])

  lemma ATo6()
    ensures Reaches(A4, A6, QueryGuard)
  {
    var t1 := Step(A4, Deliver(Msg(U1, Hello(1))));
    var t2 := Step(t1, Deliver(Msg(U2, Hello(0))));
    assert t2.nodes[0] == A6.nodes[0];
    assert t2.nodes[1] == A6.nodes[1];
    assert t2.nodes == A6.nodes;
    assert t2.net == A6.net;
    Unfold2(A4, Deliver(Msg(U1, Hello(1))), t1, Deliver(Msg(U2, Hello(0))), A6, QueryGuard);
  }

  const A8 := State(
    map[0 := Node({U1, D2}, {U1}, map[U1 := 1], map[], false, true, map[U1 := Ready(0, 1)], false),
        1 := Node({D1, U2}, {U2}, map[U2 := 0], map[], false, false, map[U2 := Waiting], false)],
    {Msg(D1, Hello(0)), Msg(U1, Hello(1)), Msg(D2, Hello(1)), Msg(U2, Hello(0))},
    {L1, L2}, {L1, L2}, [], map[])

  lemma ATo8()
    ensures Reaches(A6, A8, QueryGuard)
  {
    var t1 := Step(A6, Acquire(U1));
    var t2 := Step(t1, Greet(U1));
    assert t2.nodes[0] == A8.nodes[0];
    assert t2.nodes[1] == A8.nodes[1];
    assert t2.nodes == A8.nodes;
    assert t2.net == A8.net;
    Unfold2(A6, Acquire(U1), t1, Greet(U1), A8, QueryGuard);
  }

  const A10 := State(
    map[0 := Node({U1, D2}, {}, map[U1 := 1], map[], false, true, map[U1 := Accepted], false),
        1 := Node({D1, U2}, {U2}, map[U2 := 0], map[], false, false, map[U2 := Waiting], false)],
    {Msg(D1, Hello(0)), Msg(U1, Hello(1)), Msg(D2, Hello(1)), Msg(U2, Hello(0))},
    {L1, L2}, {L1, L2}, [L1], map[L1 := 0])

  lemma ATo10()
    ensures Reaches(A8, A10, QueryGuard)
  {
    var t1 := Step(A8, Start(U1));
    assert t1.nodes[0].ActiveNodeConns() == {};
    var t2 := Step(t1, Act(U1));
    assert t2.nodes[0] == A10.nodes[0];
    assert t2.nodes[1] == A10.nodes[1];
    assert t2.nodes == A10.nodes;
    assert t2.net == A10.net;
    Unfold2(A8, Start(U1), t1, Act(U1), A10, QueryGuard);
  }

  const A12 := State(
    map[0 := Node({U1, D2}, {}, map[U1 := 1], map[], false, true, map[U1 := Accepted], false),
        1 := Node({D1, U2}, {U2}, map[U2 := 0], map[], false, true, map[U2 := Ready(0, 0)], false)],
    {Msg(D1, Hello(0)), Msg(U1, Hello(1)), Msg(D2, Hello(1)), Msg(U2, Hello(0))},
    {L1, L2}, {L1, L2}, [L1], map[L1 := 0])

  lemma ATo12()
    ensures Reaches(A10, A12, QueryGuard)
  {
    var t1 := Step(A10, Acquire(U2));
    var t2 := Step(t1, Greet(U2));
    assert t2.nodes[0] == A12.nodes[0];
    assert t2.nodes[1] == A12.nodes[1];
    assert t2.nodes == A12.nodes;
    assert t2.net == A12.net;
    Unfold2(A10, Acquire(U2), t1, Greet(U2), A12, QueryGuard);
  }

  const A14 := State(
    map[0 := Node({U1, D2}, {}, map[U1 := 1], map[], false, true, map[U1 := Accepted], false),
        1 := Node({D1, U2}, {}, map[U2 := 0], map[], false, true, map[U2 := Accepted], false)],
    {Msg(D1, Hello(0)), Msg(U1, Hello(1)), Msg(D2, Hello(1)), Msg(U2, Hello(0))},
    {L1, L2}, {L1, L2}, [L1, L2], map[L1 := 0, L2 := 1])

  lemma ATo14()
    ensures Reaches(A12, A14, QueryGuard)
  {
    var t1 := Step(A12, Start(U2));
    assert t1.nodes[1].ActiveNodeConns() == {};
    var t2 := Step(t1, Act(U2));
    assert t2.nodes[0] == A14.nodes[0];
    assert t2.nodes[1] == A14.nodes[1];
    assert t2.nodes == A14.nodes;
    assert t2.net == A14.net;
    Unfold2(A12, Start(U2), t1, Act(U2), A14, QueryGuard);
  }

  lemma AUntil8()
    ensures Reaches(START, A8, QueryGuard)
  {
    ATo2();
    ATo4();
    ReachesOn(START, A2, A4, QueryGuard);
    ATo6();
    ReachesOn(START, A4, A6, QueryGuard);
    ATo8();
    ReachesOn(START, A6, A8, QueryGuard);
  }

  lemma ALast()
    ensures Reaches(START, A14, QueryGuard)
  {
    AUntil8();
    ATo10();
    ReachesOn(START, A8, A10, QueryGuard);
    ATo12();
    ReachesOn(START, A10, A12, QueryGuard);
    ATo14();
    ReachesOn(START, A12, A14, QueryGuard);
  }

  const B2 := State(
    map[0 := Node({U1}, {U1}, map[], map[], false, false, map[U1 := Waiting], false),
        1 := Node({D1}, {}, map[], map[], false, false, map[], false)],
    {Msg(D1, Hello(0)), Msg(U1, Hello(1))},
    {L1}, {L1}, [], map[])

  lemma BTo2()
    ensures Reaches(START, B2, HelloGuard)
  {
    var t1 := Step(START, Establish(L1));
    var t2 := Step(t1, Arrive(L1));
    assert t2.nodes[0] == B2.nodes[0];
    assert t2.nodes[1] == B2.nodes[1];
    assert t2.nodes == B2.nodes;
    assert t2.net == B2.net;
    Unfold2(START, Establish(L1), t1, Arrive(L1), B2, HelloGuard);
  }

  const B4 := State(
    map[0 := Node({U1}, {U1}, map[U1 := 1], map[], false, true, map[U1 := Greeting], false),
        1 := Node({D1}, {}, map[], map[], false, false, map[], false)],
    {Msg(D1, Hello(0)), Msg(U1, Hello(1))},
    {L1}, {L1}, [], map[])

  lemma BTo4()
    ensures Reaches(B2, B4, HelloGuard)
  {
    var t1 := Step(B2, Deliver(Msg(U1, Hello(1))));
    var t2 := Step(t1, Acquire(U1));
    assert t2.nodes[0] == B4.nodes[0];
    assert t2.nodes[1] == B4.nodes[1];
    assert t2.nodes == B4.nodes;
    assert t2.net == B4.net;
    Unfold2(B2, Deliver(Msg(U1, Hello(1))), t1, Acquire(U1), B4, HelloGuard);
  }

  const B6 := State(
    map[0 := Node({U1}, {U1}, map[U1 := 1], map[], false, true, map[U1 := Ready(0, 1)], false),
        1 := Node({D1, U2}, {U2}, map[], map[], false, false, map[U2 := Waiting], false)],
    {Msg(D1, Hello(0)), Msg(U1, Hello(1)), Msg(D2, Hello(1))},
    {L1, L2}, {L1}, [], map[])

  lemma BTo6()
    ensures Reaches(B4, B6, HelloGuard)
  {
    var t1 := Step(B4, Greet(U1));
    var t2 := Step(t1, Establish(L2));
    assert t2.nodes[0] == B6.nodes[0];
    assert t2.nodes[1] == B6.nodes[1];
    assert t2.nodes == B6.nodes;
    assert t2.net == B6.net;
    Unfold2(B4, Greet(U1), t1, Establish(L2), B6, HelloGuard);
  }

  const B8 := State(
    map[0 := Node({U1, D2}, {U1}, map[U1 := 1], map[], false, true, map[U1 := Ready(0, 1)], false),
        1 := Node({D1, U2}, {U2}, map[U2 := 0], map[], false, false, map[U2 := Waiting], false)],
    {Msg(D1, Hello(0)), Msg(U1, Hello(1)), Msg(D2, Hello(1)), Msg(U2, Hello(0))},
    {L1, L2}, {L1, L2}, [], map[])

  lemma BTo8()
    ensures Reaches(B6, B8, HelloGuard)
  {
    var t1 := Step(B6, Arrive(L2));
    var t2 := Step(t1, Deliver(Msg(U2, Hello(0))));
    assert t2.nodes[0] == B8.nodes[0];
    assert t2.nodes[1] == B8.nodes[1];
    assert t2.nodes == B8.nodes;
    assert t2.net == B8.net;
    Unfold2(B6, Arrive(L2), t1, Deliver(Msg(U2, Hello(0))), B8, HelloGuard);
  }

  const B10 := State(
    map[0 := Node({U1, D2}, {U1}, map[U1 := 1], map[], false, true, map[U1 := Ready(0, 1)], false),
        1 := Node({D1, U2}, {U2}, map[U2 := 0], map[], false, true, map[U2 := Ready(0, 0)], false)],
    {Msg(D1, Hello(0)), Msg(U1, Hello(1)), Msg(D2, Hello(1)), Msg(U2, Hello(0))},
    {L1, L2}, {L1, L2}, [], map[])

  lemma BTo10()
    ensures Reaches(B8, B10, HelloGuard)
  {
    var t1 := Step(B8, Acquire(U2));
    var t2 := Step(t1, Greet(U2));
    assert t2.nodes[0] == B10.nodes[0];
    assert t2.nodes[1] == B10.nodes[1];
    assert t2.nodes == B10.nodes;
    assert t2.net == B10.net;
    Unfold2(B8, Acquire(U2), t1, Greet(U2), B10, HelloGuard);
  }

  const B12 := State(
    map[0 := Node({U1, D2}, {U1}, map[U1 := 1, D2 := 1], map[], false, true, map[U1 := Ready(0, 1)], false),
        1 := Node({D1, U2}, {U2}, map[U2 := 0, D1 := 0], map[], false, true, map[U2 := Ready(0, 0)], false)],
    {Msg(D1, Hello(0)), Msg(U1, Hello(1)), Msg(D2, Hello(1)), Msg(U2, Hello(0))},
    {L1, L2}, {L1, L2}, [], map[])

  lemma BTo12()
    ensures Reaches(B10, B12, HelloGuard)
  {
    var t1 := Step(B10, Deliver(Msg(D1, Hello(0))));
    var t2 := Step(t1, Deliver(Msg(D2, Hello(1))));
    assert t2.nodes[0] == B12.nodes[0];
    assert t2.nodes[1] == B12.nodes[1];
    assert t2.nodes == B12.nodes;
    assert t2.net == B12.net;
    Unfold2(B10, Deliver(Msg(D1, Hello(0))), t1, Deliver(Msg(D2, Hello(1))), B12, HelloGuard);
  }

  const B14 := State(
    map[0 := Node({U1, D2}, {U1}, map[U1 := 1, D2 := 1], map[0 := Query(Own(U1), 1, {D2}, {D2}, false, None)], true,
          true, map[U1 := Asking(0, 1, 0)], false),
        1 := Node({D1, U2}, {U2}, map[U2 := 0, D1 := 0], map[], false, true, map[U2 := Ready(0, 0)], false)],
    {Msg(D1, Hello(0)), Msg(U1, Hello(1)), Msg(D2, Hello(1)), Msg(U2, Hello(0)), Msg(U2, Ask(0, 1)), Msg(D2,
          Answer(0, NotFound))},
    {L1, L2}, {L1, L2}, [L1], map[L1 := 0])

  lemma BTo14()
    ensures Reaches(B12, B14, HelloGuard)
  {
    var t1 := Step(B12, Start(U1));
    assert t1.nodes[0].ActiveNodeConns() == {D2};
    var t2 := Step(t1, Deliver(Msg(U2, Ask(0, 1))));
    assert t2.nodes[0] == B14.nodes[0];
    assert t2.nodes[1] == B14.nodes[1];
    assert t2.nodes == B14.nodes;
    assert t2.net == B14.net;
    Unfold2(B12, Start(U1), t1, Deliver(Msg(U2, Ask(0, 1))), B14, HelloGuard);
  }

  const B16 := State(
    map[0 := Node({U1, D2}, {U1}, map[U1 := 1, D2 := 1], map[], false, true, map[U1 := Decided(0, 1, 0, NotFound)],
          false),
        1 := Node({D1, U2}, {U2}, map[U2 := 0, D1 := 0], map[], false, true, map[U2 := Ready(0, 0)], false)],
    {Msg(D1, Hello(0)), Msg(U1, Hello(1)), Msg(D2, Hello(1)), Msg(U2, Hello(0)), Msg(U2, Ask(0, 1)), Msg(D2,
          Answer(0, NotFound))},
    {L1, L2}, {L1, L2}, [L1], map[L1 := 0])

  lemma BTo16()
    ensures Reaches(B14, B16, HelloGuard)
  {
    var t1 := Step(B14, Deliver(Msg(D2, Answer(0, NotFound))));
    var t2 := Step(t1, Finish(0, 0));
    assert t2.nodes[0] == B16.nodes[0];
    assert t2.nodes[1] == B16.nodes[1];
    assert t2.nodes == B16.nodes;
    assert t2.net == B16.net;
    Unfold2(B14, Deliver(Msg(D2, Answer(0, NotFound))), t1, Finish(0, 0), B16, HelloGuard);
  }

  const B18 := State(
    map[0 := Node({U1, D2}, {U1}, map[U1 := 1, D2 := 1], map[], false, true, map[U1 := Decided(0, 1, 0, NotFound)],
          false),
        1 := Node({D1, U2}, {U2}, map[U2 := 0, D1 := 0], map[1 := Query(Own(U2), 0, {D1}, {D1}, false, None)], true,
              true, map[U2 := Asking(0, 0, 1)], false)],
    {Msg(D1, Hello(0)), Msg(U1, Hello(1)), Msg(D2, Hello(1)), Msg(U2, Hello(0)), Msg(U2, Ask(0, 1)), Msg(D2,
          Answer(0, NotFound)), Msg(U1, Ask(1, 0)), Msg(D1, Answer(1, NotFound))},
    {L1, L2}, {L1, L2}, [L1, L2], map[L1 := 0, L2 := 1])

  lemma BTo18()
    ensures Reaches(B16, B18, HelloGuard)
  {
    var t1 := Step(B16, Start(U2));
    assert t1.nodes[1].ActiveNodeConns() == {D1};
    var t2 := Step(t1, Deliver(Msg(U1, Ask(1, 0))));
    assert t2.nodes[0] == B18.nodes[0];
    assert t2.nodes[1] == B18.nodes[1];
    assert t2.nodes == B18.nodes;
    assert t2.net == B18.net;
    Unfold2(B16, Start(U2), t1, Deliver(Msg(U1, Ask(1, 0))), B18, HelloGuard);
  }

  const B20 := State(
    map[0 := Node({U1, D2}, {U1}, map[U1 := 1, D2 := 1], map[], false, true, map[U1 := Decided(0, 1, 0, NotFound)],
          false),
        1 := Node({D1, U2}, {U2}, map[U2 := 0, D1 := 0], map[], false, true, map[U2 := Decided(0, 0, 1, NotFound)],
              false)],
    {Msg(D1, Hello(0)), Msg(U1, Hello(1)), Msg(D2, Hello(1)), Msg(U2, Hello(0)), Msg(U2, Ask(0, 1)), Msg(D2,
          Answer(0, NotFound)), Msg(U1, Ask(1, 0)), Msg(D1, Answer(1, NotFound))},
    {L1, L2}, {L1, L2}, [L1, L2], map[L1 := 0, L2 := 1])

  lemma BTo20()
    ensures Reaches(B18, B20, HelloGuard)
  {
    var t1 := Step(B18, Deliver(Msg(D1, Answer(1, NotFound))));
    var t2 := Step(t1, Finish(1, 1));
    assert t2.nodes[0] == B20.nodes[0];
    assert t2.nodes[1] == B20.nodes[1];
    assert t2.nodes == B20.nodes;
    assert t2.net == B20.net;
    Unfold2(B18, Deliver(Msg(D1, Answer(1, NotFound))), t1, Finish(1, 1), B20, HelloGuard);
  }

  const B22 := State(
    map[0 := Node({U1, D2}, {}, map[U1 := 1, D2 := 1], map[], false, true, map[U1 := Accepted], false),
        1 := Node({D1, U2}, {}, map[U2 := 0, D1 := 0], map[], false, true, map[U2 := Accepted], false)],
    {Msg(D1, Hello(0)), Msg(U1, Hello(1)), Msg(D2, Hello(1)), Msg(U2, Hello(0)), Msg(U2, Ask(0, 1)), Msg(D2,
          Answer(0, NotFound)), Msg(U1, Ask(1, 0)), Msg(D1, Answer(1, NotFound))},
    {L1, L2}, {L1, L2}, [L1, L2], map[L1 := 0, L2 := 1])

  lemma BTo22()
    ensures Reaches(B20, B22, HelloGuard)
  {
    var t1 := Step(B20, Act(U1));
    var t2 := Step(t1, Act(U2));
    assert t2.nodes[0] == B22.nodes[0];
    assert t2.nodes[1] == B22.nodes[1];
    assert t2.nodes == B22.nodes;
    assert t2.net == B22.net;
    Unfold2(B20, Act(U1), t1, Act(U2), B22, HelloGuard);
  }

  lemma BUntil8()
    ensures Reaches(START, B8, HelloGuard)
  {
    BTo2();
    BTo4();
    ReachesOn(START, B2, B4, HelloGuard);
    BTo6();
    ReachesOn(START, B4, B6, HelloGuard);
    BTo8();
    ReachesOn(START, B6, B8, HelloGuard);
  }

  lemma BUntil16()
    ensures Reaches(START, B16, HelloGuard)
  {
    BUntil8();
    BTo10();
    ReachesOn(START, B8, B10, HelloGuard);
    BTo12();
    ReachesOn(START, B10, B12, HelloGuard);
    BTo14();
    ReachesOn(START, B12, B14, HelloGuard);
    BTo16();
    ReachesOn(START, B14, B16, HelloGuard);
  }

  lemma BLast()
    ensures Reaches(START, B22, HelloGuard)
  {
    BUntil16();
    BTo18();
    ReachesOn(START, B16, B18, HelloGuard);
    BTo20();
    ReachesOn(START, B18, B20, HelloGuard);
    BTo22();
    ReachesOn(START, B20, B22, HelloGuard);
  }

  /** A run of the events from the start. */
  lemma {:induction false} Unrolled(s: State, events: seq<Event>, t: State, g: Guard) returns (trace: seq<State>)
    requires Leads(s, events, t, g)
    ensures |trace| == |events| + 1 && trace[0] == s && trace[|events|] == t
    ensures forall i :: 0 <= i < |events| ==>
              Enabled(trace[i], events[i]) && Keeps(trace[i], events[i], g) && trace[i + 1] == Step(trace[i], events[i])
    decreases |events|
  {
    if events == [] {
      trace := [s];
    } else {
      var rest := Unrolled(Step(s, events[0]), events[1..], t, g);
      trace := [s] + rest;
      forall i | 0 <= i < |events|
        ensures Enabled(trace[i], events[i]) && Keeps(trace[i], events[i], g) && trace[i + 1] == Step(trace[i],
              events[i])
      {
        if i > 0 {
          assert events[i] == events[1..][i - 1] && trace[i] == rest[i - 1] && trace[i + 1] == rest[i];
        }
      }
    }
  }

  lemma TwoLinksAreACycle(s: State)
    requires L1 in ActiveLinks(s) && L2 in ActiveLinks(s)
    ensures !Forest(ActiveLinks(s))
  {
    assert L2 in ActiveLinks(s) - {L1};
    OneEdge(ActiveLinks(s) - {L1}, L2);
  }

  ghost predicate CyclicRun(trace: seq<State>, events: seq<Event>, g: Guard) {
    && Run(trace, events) && !Forest(ActiveLinks(trace[|events|]))
    && forall i :: 0 <= i < |events| ==> Keeps(trace[i], events[i], g)
  }

  lemma Witness(s: State, g: Guard)
    requires Reaches(START, s, g) && L1 in ActiveLinks(s) && L2 in ActiveLinks(s)
    ensures exists trace, events :: CyclicRun(trace, events, g)
  {
    var events :| Leads(START, events, s, g);
    var trace := Unrolled(START, events, s, g);
    TwoLinksAreACycle(s);
    assert CyclicRun(trace, events, g);
  }

  /** Without guard (a): each node asks before the other has processed its Hello, so neither
      counts the other's link as a node connection, and both accept at once. */
  lemma GuardAIsNeeded()
    ensures exists trace, events :: CyclicRun(trace, events, QueryGuard)
  {
    ALast();
    Witness(A14, QueryGuard);
  }

  /** Without guard (b): node 1's query reaches node 0 after node 0's own query has ended, but
      before its link has left `pending`, and is answered "not found". */
  lemma GuardBIsNeeded()
    ensures exists trace, events :: CyclicRun(trace, events, HelloGuard)
  {
    BLast();
    Witness(B22, HelloGuard);
  }
}
