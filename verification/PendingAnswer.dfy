/** Why an answer on a pending connection certifies nothing: a run that keeps both guards, in which
    node 0 is joined to node 2, is asked about node 2 over its pending connection from node 1, and
    answers "not found". */
module PendingAnswer {
  import opened Graphs
  import opened Links
  import opened Results
  import opened CycleCheck
  import opened CycleSafety
  import CR = CycleRaces

  const L1: Link := Edge(0, 0, 2)
  const L2: Link := Edge(1, 0, 1)
  const L3: Link := Edge(2, 1, 2)
  const U1 := Conn(L1, true)
  const D1 := Conn(L1, false)
  const U2 := Conn(L2, true)
  const D2 := Conn(L2, false)
  const U3 := Conn(L3, true)
  const D3 := Conn(L3, false)

  const START := State(map[0 := FRESH_NODE, 1 := FRESH_NODE, 2 := FRESH_NODE], {}, {}, {}, [], map[])

  const S2 := State(
    map[0 := Node({U1}, {U1}, map[], map[], false, false, map[U1 := Waiting], false),
        1 := FRESH_NODE,
        2 := Node({D1}, {}, map[], map[], false, false, map[], false)],
    {Msg(D1, Hello(0)), Msg(U1, Hello(2))},
    {L1}, {L1}, [], map[])

  lemma To2()
    ensures CR.Reaches(START, S2, CR.BothGuards)
  {
    var t1 := Step(START, Establish(L1));
    var t2 := Step(t1, Arrive(L1));
    assert t2.nodes[0] == S2.nodes[0];
    assert t2.nodes[1] == S2.nodes[1];
    assert t2.nodes[2] == S2.nodes[2];
    assert t2.nodes == S2.nodes;
    assert t2.net == S2.net;
    CR.Unfold2(START, Establish(L1), t1, Arrive(L1), S2, CR.BothGuards);
  }

  const S4 := State(
    map[0 := Node({U1}, {U1}, map[U1 := 2], map[], false, false, map[U1 := Waiting], false),
        1 := FRESH_NODE,
        2 := Node({D1}, {}, map[D1 := 0], map[], false, false, map[], false)],
    {Msg(D1, Hello(0)), Msg(U1, Hello(2))},
    {L1}, {L1}, [], map[])

  lemma To4()
    ensures CR.Reaches(S2, S4, CR.BothGuards)
  {
    var t1 := Step(S2, Deliver(Msg(D1, Hello(0))));
    var t2 := Step(t1, Deliver(Msg(U1, Hello(2))));
    assert t2.nodes[0] == S4.nodes[0];
    assert t2.nodes[1] == S4.nodes[1];
    assert t2.nodes[2] == S4.nodes[2];
    assert t2.nodes == S4.nodes;
    assert t2.net == S4.net;
    CR.Unfold2(S2, Deliver(Msg(D1, Hello(0))), t1, Deliver(Msg(U1, Hello(2))), S4, CR.BothGuards);
  }

  const S6 := State(
    map[0 := Node({U1}, {U1}, map[U1 := 2], map[], false, true, map[U1 := Ready(0, 2)], false),
        1 := FRESH_NODE,
        2 := Node({D1}, {}, map[D1 := 0], map[], false, false, map[], false)],
    {Msg(D1, Hello(0)), Msg(U1, Hello(2))},
    {L1}, {L1}, [], map[])

  lemma To6()
    ensures CR.Reaches(S4, S6, CR.BothGuards)
  {
    var t1 := Step(S4, Acquire(U1));
    var t2 := Step(t1, Greet(U1));
    assert t2.nodes[0] == S6.nodes[0];
    assert t2.nodes[1] == S6.nodes[1];
    assert t2.nodes[2] == S6.nodes[2];
    assert t2.nodes == S6.nodes;
    assert t2.net == S6.net;
    CR.Unfold2(S4, Acquire(U1), t1, Greet(U1), S6, CR.BothGuards);
  }

  const S8 := State(
    map[0 := Node({U1}, {}, map[U1 := 2], map[], false, true, map[U1 := Accepted], false),
        1 := FRESH_NODE,
        2 := Node({D1}, {}, map[D1 := 0], map[], false, false, map[], false)],
    {Msg(D1, Hello(0)), Msg(U1, Hello(2))},
    {L1}, {L1}, [L1], map[L1 := 0])

  lemma To8()
    ensures CR.Reaches(S6, S8, CR.BothGuards)
  {
    var t1 := Step(S6, Start(U1));
    assert t1.nodes[0].ActiveNodeConns() == {};
    var t2 := Step(t1, Act(U1));
    assert t2.nodes[0] == S8.nodes[0];
    assert t2.nodes[1] == S8.nodes[1];
    assert t2.nodes[2] == S8.nodes[2];
    assert t2.nodes == S8.nodes;
    assert t2.net == S8.net;
    CR.Unfold2(S6, Start(U1), t1, Act(U1), S8, CR.BothGuards);
  }

  const S10 := State(
    map[0 := Node({U1, U2}, {U2}, map[U1 := 2], map[], false, false, map[U2 := Waiting], false),
        1 := FRESH_NODE,
        2 := Node({D1}, {}, map[D1 := 0], map[], false, false, map[], false)],
    {Msg(D1, Hello(0)), Msg(U1, Hello(2)), Msg(D2, Hello(0))},
    {L1, L2}, {L1}, [L1], map[L1 := 0])

  lemma To10()
    ensures CR.Reaches(S8, S10, CR.BothGuards)
  {
    var t1 := Step(S8, Release(U1));
    var t2 := Step(t1, Establish(L2));
    assert t2.nodes[0] == S10.nodes[0];
    assert t2.nodes[1] == S10.nodes[1];
    assert t2.nodes[2] == S10.nodes[2];
    assert t2.nodes == S10.nodes;
    assert t2.net == S10.net;
    CR.Unfold2(S8, Release(U1), t1, Establish(L2), S10, CR.BothGuards);
  }

  const S12 := State(
    map[0 := Node({U1, U2}, {U2}, map[U1 := 2], map[], false, false, map[U2 := Waiting], false),
        1 := Node({D2}, {}, map[D2 := 0], map[], false, false, map[], false),
        2 := Node({D1}, {}, map[D1 := 0], map[], false, false, map[], false)],
    {Msg(D1, Hello(0)), Msg(U1, Hello(2)), Msg(D2, Hello(0)), Msg(U2, Hello(1))},
    {L1, L2}, {L1, L2}, [L1], map[L1 := 0])

  lemma To12()
    ensures CR.Reaches(S10, S12, CR.BothGuards)
  {
    var t1 := Step(S10, Arrive(L2));
    var t2 := Step(t1, Deliver(Msg(D2, Hello(0))));
    assert t2.nodes[0] == S12.nodes[0];
    assert t2.nodes[1] == S12.nodes[1];
    assert t2.nodes[2] == S12.nodes[2];
    assert t2.nodes == S12.nodes;
    assert t2.net == S12.net;
    CR.Unfold2(S10, Arrive(L2), t1, Deliver(Msg(D2, Hello(0))), S12, CR.BothGuards);
  }

  const S14 := State(
    map[0 := Node({U1, U2}, {U2}, map[U1 := 2], map[], false, false, map[U2 := Waiting], false),
        1 := Node({D2, U3}, {U3}, map[D2 := 0], map[], false, false, map[U3 := Waiting], false),
        2 := Node({D1, D3}, {}, map[D1 := 0], map[], false, false, map[], false)],
    {Msg(D1, Hello(0)), Msg(U1, Hello(2)), Msg(D2, Hello(0)), Msg(U2, Hello(1)), Msg(D3, Hello(1)), Msg(U3,
      Hello(2))},
    {L1, L2, L3}, {L1, L2, L3}, [L1], map[L1 := 0])

  lemma To14()
    ensures CR.Reaches(S12, S14, CR.BothGuards)
  {
    var t1 := Step(S12, Establish(L3));
    var t2 := Step(t1, Arrive(L3));
    assert t2.nodes[0] == S14.nodes[0];
    assert t2.nodes[1] == S14.nodes[1];
    assert t2.nodes[2] == S14.nodes[2];
    assert t2.nodes == S14.nodes;
    assert t2.net == S14.net;
    CR.Unfold2(S12, Establish(L3), t1, Arrive(L3), S14, CR.BothGuards);
  }

  const S16 := State(
    map[0 := Node({U1, U2}, {U2}, map[U1 := 2], map[], false, false, map[U2 := Waiting], false),
        1 := Node({D2, U3}, {U3}, map[D2 := 0, U3 := 2], map[], false, false, map[U3 := Waiting], false),
        2 := Node({D1, D3}, {}, map[D1 := 0, D3 := 1], map[], false, false, map[], false)],
    {Msg(D1, Hello(0)), Msg(U1, Hello(2)), Msg(D2, Hello(0)), Msg(U2, Hello(1)), Msg(D3, Hello(1)), Msg(U3,
      Hello(2))},
    {L1, L2, L3}, {L1, L2, L3}, [L1], map[L1 := 0])

  lemma To16()
    ensures CR.Reaches(S14, S16, CR.BothGuards)
  {
    var t1 := Step(S14, Deliver(Msg(D3, Hello(1))));
    var t2 := Step(t1, Deliver(Msg(U3, Hello(2))));
    assert t2.nodes[0] == S16.nodes[0];
    assert t2.nodes[1] == S16.nodes[1];
    assert t2.nodes[2] == S16.nodes[2];
    assert t2.nodes == S16.nodes;
    assert t2.net == S16.net;
    CR.Unfold2(S14, Deliver(Msg(D3, Hello(1))), t1, Deliver(Msg(U3, Hello(2))), S16, CR.BothGuards);
  }

  const S18 := State(
    map[0 := Node({U1, U2}, {U2}, map[U1 := 2], map[], false, false, map[U2 := Waiting], false),
        1 := Node({D2, U3}, {U3}, map[D2 := 0, U3 := 2], map[], false, true, map[U3 := Ready(0, 2)], false),
        2 := Node({D1, D3}, {}, map[D1 := 0, D3 := 1], map[], false, false, map[], false)],
    {Msg(D1, Hello(0)), Msg(U1, Hello(2)), Msg(D2, Hello(0)), Msg(U2, Hello(1)), Msg(D3, Hello(1)), Msg(U3,
      Hello(2))},
    {L1, L2, L3}, {L1, L2, L3}, [L1], map[L1 := 0])

  lemma To18()
    ensures CR.Reaches(S16, S18, CR.BothGuards)
  {
    var t1 := Step(S16, Acquire(U3));
    var t2 := Step(t1, Greet(U3));
    assert t2.nodes[0] == S18.nodes[0];
    assert t2.nodes[1] == S18.nodes[1];
    assert t2.nodes[2] == S18.nodes[2];
    assert t2.nodes == S18.nodes;
    assert t2.net == S18.net;
    CR.Unfold2(S16, Acquire(U3), t1, Greet(U3), S18, CR.BothGuards);
  }

  const S20 := State(
    map[0 := Node({U1, U2}, {U2}, map[U1 := 2], map[], false, false, map[U2 := Waiting], false),
        1 := Node({D2, U3}, {U3}, map[D2 := 0, U3 := 2], map[1 := Query(Own(U3), 2, {D2}, {D2}, false, None)], true,
             true, map[U3 := Asking(0, 2, 1)], false),
        2 := Node({D1, D3}, {}, map[D1 := 0, D3 := 1], map[], false, false, map[], false)],
    {Msg(D1, Hello(0)), Msg(U1, Hello(2)), Msg(D2, Hello(0)), Msg(U2, Hello(1)), Msg(D3, Hello(1)), Msg(U3,
      Hello(2)), Msg(U2, Ask(1, 2)), Msg(D2, Answer(1, NotFound))},
    {L1, L2, L3}, {L1, L2, L3}, [L1, L3], map[L1 := 0, L3 := 1])

  lemma To20()
    ensures CR.Reaches(S18, S20, CR.BothGuards)
  {
    var t1 := Step(S18, Start(U3));
    assert t1.nodes[1].ActiveNodeConns() == {D2};
    var t2 := Step(t1, Deliver(Msg(U2, Ask(1, 2))));
    assert t2.nodes[0] == S20.nodes[0];
    assert t2.nodes[1] == S20.nodes[1];
    assert t2.nodes[2] == S20.nodes[2];
    assert t2.nodes == S20.nodes;
    assert t2.net == S20.net;
    CR.Unfold2(S18, Start(U3), t1, Deliver(Msg(U2, Ask(1, 2))), S20, CR.BothGuards);
  }

  lemma Until10()
    ensures CR.Reaches(START, S10, CR.BothGuards)
  {
    To2();
    To4();
    CR.ReachesOn(START, S2, S4, CR.BothGuards);
    To6();
    CR.ReachesOn(START, S4, S6, CR.BothGuards);
    To8();
    CR.ReachesOn(START, S6, S8, CR.BothGuards);
    To10();
    CR.ReachesOn(START, S8, S10, CR.BothGuards);
  }

  lemma Until20()
    ensures CR.Reaches(START, S20, CR.BothGuards)
  {
    Until10();
    To12();
    CR.ReachesOn(START, S10, S12, CR.BothGuards);
    To14();
    CR.ReachesOn(START, S12, S14, CR.BothGuards);
    To16();
    CR.ReachesOn(START, S14, S16, CR.BothGuards);
    To18();
    CR.ReachesOn(START, S16, S18, CR.BothGuards);
    To20();
    CR.ReachesOn(START, S18, S20, CR.BothGuards);
  }

  /** The link between nodes 0 and 2 was accepted before node 1's query started. */
  lemma StillJoined()
    ensures Connected(Earlier(S20, 1) - {L2}, 0, 2)
  {
    assert InPlay(S20, L1);
    assert L1 in Earlier(S20, 1) - {L2};
    OneEdge(Earlier(S20, 1) - {L2}, L1);
  }

  /** A run that keeps both guards, up to a state in which "not found" for `q` has been sent to `c`
      from a pending connection, although earlier links do lead from there to the target. */
  ghost predicate Misleads(trace: seq<State>, events: seq<Event>, q: QueryId, c: Conn) {
    && GuardedRun(trace, events)
    && var s := trace[|events|];
       && Msg(c, Answer(q, NotFound)) in s.net && q < |s.asks| && !CutOff(s, q, c)
       && c.Peer().Node() in s.nodes && c.Peer() in s.nodes[c.Peer().Node()].pending
  }

  lemma PendingAnswersMislead()
    ensures exists trace, events :: Misleads(trace, events, 1, D2)
  {
    Until20();
    var events :| CR.Leads(START, events, S20, CR.BothGuards);
    var trace := CR.Unrolled(START, events, S20, CR.BothGuards);
    forall i | 0 <= i < |events| ensures HelloFirst(trace[i], events[i]) && NoQueryBetween(trace[i], events[i]) {
      assert CR.Keeps(trace[i], events[i], CR.BothGuards);
    }
    StillJoined();
    assert D2.Peer() == U2;
    assert Misleads(trace, events, 1, D2);
  }
}
