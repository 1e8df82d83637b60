/** Why what is read after a failure matters: a run that ends idle, with links that form a tree and
    with a tag for a subject to which no client ahead is subscribed, because node 0 read a "subscribe"
    on a connection that its own relay loop had just dropped. */
module StaleTags {
  import opened Graphs
  import opened Links
  import opened Results
  import opened Subjects
  import opened Routing
  import opened Quiescence
  import opened Reach

  const LK: Link := Edge(0, 0, 1)
  const LD: Link := Edge(1, 2, 0)
  const UK := Conn(LK, true)
  const DK := Conn(LK, false)
  const UD := Conn(LD, true)
  const DD := Conn(LD, false)

  const S: Subject := "s"
  const SUB_S := Subscription(S, true)

  function N0(): Net {
    Net(map[0 := NEW_ROUTER, 1 := NEW_ROUTER], {2}, {}, map[], map[], map[], [], {}, {}, Leftovers({}, map[]))
  }

  function N1(): Net {
    Net(map[0 := Router({UK}, {UK}, map[UK := []], {}), 1 := NEW_ROUTER], {2}, {}, map[UK := [], DK := []],
        map[UK := {}, DK := {}], map[UK := {}, DK := {}], [], {LK}, {}, Leftovers({}, map[]))
  }

  function N2(): Net {
    Net(map[0 := Router({UK}, {UK}, map[UK := []], {}), 1 := Router({DK}, {}, map[], {})], {2}, {}, map[UK := [],
        DK := []], map[UK := {}, DK := {}], map[UK := {}, DK := {}], [], {LK}, {LK}, Leftovers({}, map[]))
  }

  function N3(): Net {
    Net(map[0 := Router({UK}, {}, map[UK := []], {}), 1 := Router({DK}, {}, map[], {})], {2}, {}, map[UK := [],
        DK := []], map[UK := {}, DK := {}], map[UK := {}, DK := {}], [], {LK}, {LK}, Leftovers({}, map[]))
  }

  function N4(): Net {
    Net(map[0 := Router({UK}, {}, map[], {}), 1 := Router({DK}, {}, map[], {})], {2}, {}, map[UK := [], DK := []],
        map[UK := {}, DK := {}], map[UK := {}, DK := {}], [], {LK}, {LK}, Leftovers({}, map[]))
  }

  function N5(): Net {
    Net(map[0 := Router({UK}, {}, map[], {}), 1 := Router({DK}, {}, map[], {})], {2}, {UD}, map[UK := [], DK := [],
        UD := [], DD := []], map[UK := {}, DK := {}, UD := {}, DD := {}], map[UK := {}, DK := {}, UD := {},
        DD := {}], [], {LK, LD}, {LK}, Leftovers({}, map[]))
  }

  function N6(): Net {
    Net(map[0 := Router({UK, DD}, {}, map[], {}), 1 := Router({DK}, {}, map[], {})], {2}, {UD}, map[UK := [],
        DK := [], UD := [], DD := []], map[UK := {}, DK := {}, UD := {}, DD := {}], map[UK := {}, DK := {}, UD := {},
        DD := {}], [], {LK, LD}, {LK, LD}, Leftovers({}, map[]))
  }

  function N7(): Net {
    Net(map[0 := Router({UK, DD}, {}, map[], {}), 1 := Router({DK}, {}, map[], {})], {2}, {UD}, map[UK := [],
        DK := [], UD := [], DD := [SUB_S]], map[UK := {}, DK := {}, UD := {S}, DD := {}], map[UK := {}, DK := {},
        UD := {}, DD := {}], [], {LK, LD}, {LK, LD}, Leftovers({}, map[]))
  }

  function N8(): Net {
    Net(map[0 := Router({UK}, {}, map[], {}), 1 := Router({DK}, {}, map[], {})], {2}, {UD}, map[UK := [], DK := [],
        UD := [], DD := [SUB_S]], map[UK := {}, DK := {}, UD := {S}, DD := {}], map[UK := {}, DK := {}, UD := {},
        DD := {}], [], {LK, LD}, {LK, LD}, Leftovers({}, map[DD := Loss(Relay(DD), false, [])]))
  }

  function N9(): Net {
    Net(map[0 := Router({UK}, {}, map[], {}), 1 := Router({DK}, {}, map[], {})], {2}, {UD}, map[UK := [], DK := [],
        UD := [], DD := [SUB_S]], map[UK := {}, DK := {}, UD := {S}, DD := {}], map[UK := {}, DK := {}, UD := {},
        DD := {}], [], {LK, LD}, {LK, LD}, Leftovers({}, map[DD := Loss(Relay(DD), true, [SUB_S])]))
  }

  function N10(): Net {
    Net(map[0 := Router({UK}, {}, map[], {Tag(DD, S)}), 1 := Router({DK}, {}, map[], {})], {2}, {UD}, map[UK := [],
        DK := [SUB_S], UD := [], DD := [SUB_S]], map[UK := {S}, DK := {}, UD := {S}, DD := {}], map[UK := {S},
        DK := {}, UD := {}, DD := {}], [], {LK, LD}, {LK, LD}, Leftovers({}, map[DD := Loss(Relay(DD), true, [])]))
  }

  function N11(): Net {
    Net(map[0 := Router({UK}, {}, map[], {Tag(DD, S)}), 1 := Router({DK}, {}, map[], {})], {2}, {}, map[UK := [],
        DK := [SUB_S], UD := [], DD := [SUB_S]], map[UK := {S}, DK := {}, UD := {S}, DD := {}], map[UK := {S},
        DK := {}, UD := {}, DD := {}], [], {LK, LD}, {LK, LD}, Leftovers({}, map[DD := Loss(Relay(DD), true, [])]))
  }

  function N12(): Net {
    Net(map[0 := Router({UK}, {}, map[], {Tag(DD, S)}), 1 := Router({DK}, {}, map[], {Tag(DK, S)})], {2}, {},
        map[UK := [], DK := [], UD := [], DD := [SUB_S]], map[UK := {S}, DK := {}, UD := {S}, DD := {}],
        map[UK := {S}, DK := {}, UD := {}, DD := {}], [], {LK, LD}, {LK, LD}, Leftovers({}, map[DD := Loss(Relay(DD),
        true, [])]))
  }


  lemma Step1()
    requires Reached(N0())
    ensures Reached(N1())
  {
    Establishes(N0(), LK, N1().routers[0], N1());
  }

  lemma Step2()
    requires Reached(N1())
    ensures Reached(N2())
  {
    ArrivesAt(N1(), LK, N2().routers[1], N2());
  }

  lemma Step3()
    requires Reached(N2())
    ensures Reached(N3())
  {
    Activates(N2(), UK, N3().routers[0], N3());
  }

  lemma Step4()
    requires Reached(N3())
    ensures Reached(N4())
  {
    IsDrained(N3(), UK, N4().routers[0], N4());
  }

  lemma Step5()
    requires Reached(N4())
    ensures Reached(N5())
  {
    Connects(N4(), LD, N5());
  }

  lemma Step6()
    requires Reached(N5())
    ensures Reached(N6())
  {
    ArrivesAt(N5(), LD, N6().routers[0], N6());
  }

  lemma Step7()
    requires Reached(N6())
    ensures Reached(N7())
  {
    assert Apply({}, SUB_S) == {S};
    assert UD.Peer() == DD && [] + [SUB_S] == [SUB_S];
    ClientSends(N6(), UD, SUB_S, N7());
  }

  lemma Step8()
    requires Reached(N7())
    ensures Reached(N8())
  {
    assert TagsAt(N7().routers[0], DD) == {};
    Drops(N7(), Fail(DD, false), DD, N8().routers[0], N8());
  }

  lemma Step9()
    requires Reached(N8())
    ensures Reached(N9())
  {
    Shuts(N8(), DD, 1, N9().lost.loss[DD], N9());
  }

  lemma Chan10()
    ensures N10().chan == Queued(N9().chan, {UK}, SUB_S)
  {
    assert UK.Peer() == DK;
    OneQueued(N9().chan, UK, SUB_S);
    assert [] + [SUB_S] == [SUB_S];
    assert N9().chan[DK := [SUB_S]] == N10().chan;
  }

  lemma Told10()
    ensures N10().told == Noted(N9().told, {UK}, SUB_S)
  {
    OneNoted(N9().told, UK, SUB_S);
    assert Apply({}, SUB_S) == {S};
    assert N9().told[UK := {S}] == N10().told;
  }

  lemma Decided10()
    ensures N10().decided == Noted(N9().decided, {UK}, SUB_S)
  {
    OneNoted(N9().decided, UK, SUB_S);
    assert Apply({}, SUB_S) == {S};
    assert N9().decided[UK := {S}] == N10().decided;
  }

  lemma Handled10()
    ensures Response(N9(), DD, SUB_S) == (N10().routers[0], Send({UK}, SUB_S))
  {
    assert N9().routers[0].Active() - {DD} == {UK};
    assert N9().routers[0].tags + {Tag(DD, S)} == {Tag(DD, S)};
    assert Open(N9(), UK);
    assert OnOpen(N9(), Send({UK}, SUB_S)) == Send({UK}, SUB_S);
  }

  lemma Ready10()
    ensures Enabled(N9(), ReadOn(DD, None))
  {
    Handled10();
  }

  lemma Sends10()
    ensures Sends(N9(), SetLoss(N9(), DD, N10().lost.loss[DD]).chan, DD, N10().routers[0], {UK}, SUB_S, N10())
  {
    Told10();
    Chan10();
    Decided10();
  }

  lemma Step10()
    requires Reached(N9())
    ensures Reached(N10())
  {
    Handled10();
    Ready10();
    Sends10();
    assert N9().lost.loss[DD].unread[1..] == N10().lost.loss[DD].unread;
    ReadsLate(N9(), DD, SUB_S, N10().routers[0], {UK}, SetLoss(N9(), DD, N10().lost.loss[DD]), N10());
  }

  lemma Step11()
    requires Reached(N10())
    ensures Reached(N11())
  {
    ClientLeaves(N10(), UD, N11());
  }

  lemma Chan12()
    ensures N12().chan == Queued(N11().chan[DK := N11().chan[DK][1..]], {}, SUB_S)
  {
    assert N11().chan[DK][1..] == [];
    NoneNoted(N11().chan[DK := []], N11().told, SUB_S);
  }

  lemma Handled12()
    ensures Response(N11(), DK, SUB_S) == (N12().routers[1], Send({}, SUB_S))
  {
    assert N11().routers[1].Active() - {DK} == {};
    assert N11().routers[1].tags + {Tag(DK, S)} == {Tag(DK, S)};
    assert OnOpen(N11(), Send({}, SUB_S)) == Send({}, SUB_S);
  }

  lemma Ready12()
    ensures Enabled(N11(), Receive(DK, None))
  {
    Handled12();
  }

  lemma Step12()
    requires Reached(N11())
    ensures Reached(N12())
  {
    NoneNoted(N11().chan, N11().told, SUB_S);
    Chan12();
    NoneNoted(N11().chan, N11().decided, SUB_S);
    Handled12();
    Ready12();
    Receives(N11(), DK, SUB_S, N12().routers[1], {}, N12());
  }

  lemma LastIsReached()
    ensures Reached(N12())
  {
    Starts(N0());
    Step1();
    Step2();
    Step3();
    Step4();
    Step5();
    Step6();
    Step7();
    Step8();
    Step9();
    Step10();
    Step11();
    Step12();
  }

  function Last(): Net {
    N12()
  }

  lemma OneLink()
    ensures LiveLinks(Last()) == {LK} && Forest(LiveLinks(Last()))
  {
    assert Listed(Last(), UK) && Listed(Last(), DK) && !Listed(Last(), UD);
    Isolated({LK} - {LK}, 0, 1);
  }

  lemma IdleAtLast()
    ensures Idle(Last())
  {
    assert Last().routers[0].conns == {UK} && Last().routers[1].conns == {DK};
    assert UK.Peer() == DK && DK.Peer() == UK;
  }

  /** Nothing is in progress and the links are a tree, yet node 1 is tagged with a subject for which
      no client ahead is subscribed. */
  ghost predicate Misled(net: Net) {
    && Idle(net) && Forest(LiveLinks(net))
    && 1 in net.routers && DK in net.routers[1].conns && Tag(DK, S) in net.routers[1].tags
    && !SubscribedAhead(net, DK.Peer(), S)
  }

  lemma StaleTagSpreads()
    ensures exists trace, events :: Run(trace, events) && Misled(trace[|events|])
  {
    LastIsReached();
    OneLink();
    IdleAtLast();
    assert Misled(Last());
    var trace, events :| Run(trace, events) && trace[|events|] == Last();
  }
}
