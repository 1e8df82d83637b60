/** Why it matters that a fan-out waits: a run that ends idle, with links that form a tree and no
    stale tag, yet node 1 does not know of a subscribed client.

    Clients 2 and 3 are connected to node 0. When 2 unsubscribes, the queue of 3 is full, so node 0
    drops 3 and waits for it to be closed before it tells node 1. Meanwhile client 4 connects and
    subscribes, and node 1 is told at once. The "unsubscribe" that waited then comes last. */
module Overtaken {
  import opened Graphs
  import opened Links
  import opened Results
  import opened Subjects
  import opened Routing
  import opened Trees
  import opened Quiescence
  import opened Reach

  const LK: Link := Edge(0, 0, 1)
  const LD: Link := Edge(1, 2, 0)
  const LE: Link := Edge(2, 3, 0)
  const LY: Link := Edge(3, 4, 0)
  const UK := Conn(LK, true)
  const DK := Conn(LK, false)
  const UD := Conn(LD, true)
  const DD := Conn(LD, false)
  const UE := Conn(LE, true)
  const DE := Conn(LE, false)
  const UY := Conn(LY, true)
  const DY := Conn(LY, false)

  const S: Subject := "s"
  const SUB_S := Subscription(S, true)
  const UNSUB_S := Subscription(S, false)

  function N0(): Net {
    Net(map[0 := NEW_ROUTER, 1 := NEW_ROUTER], {2, 3, 4}, {}, map[], map[], map[], [], {}, {}, Leftovers({}, map[]))
  }

  function N1(): Net {
    Net(map[0 := Router({UK}, {UK}, map[UK := []], {}), 1 := NEW_ROUTER], {2, 3, 4}, {}, map[UK := [], DK := []],
        map[UK := {}, DK := {}], map[UK := {}, DK := {}], [], {LK}, {}, Leftovers({}, map[]))
  }

  function N2(): Net {
    Net(map[0 := Router({UK}, {UK}, map[UK := []], {}), 1 := Router({DK}, {}, map[], {})], {2, 3, 4}, {},
        map[UK := [], DK := []], map[UK := {}, DK := {}], map[UK := {}, DK := {}], [], {LK}, {LK}, Leftovers({},
        map[]))
  }

  function N3(): Net {
    Net(map[0 := Router({UK}, {}, map[UK := []], {}), 1 := Router({DK}, {}, map[], {})], {2, 3, 4}, {}, map[UK := [],
        DK := []], map[UK := {}, DK := {}], map[UK := {}, DK := {}], [], {LK}, {LK}, Leftovers({}, map[]))
  }

  function N4(): Net {
    Net(map[0 := Router({UK}, {}, map[], {}), 1 := Router({DK}, {}, map[], {})], {2, 3, 4}, {}, map[UK := [],
        DK := []], map[UK := {}, DK := {}], map[UK := {}, DK := {}], [], {LK}, {LK}, Leftovers({}, map[]))
  }

  function N5(): Net {
    Net(map[0 := Router({UK}, {}, map[], {}), 1 := Router({DK}, {}, map[], {})], {2, 3, 4}, {UD}, map[UK := [],
        DK := [], UD := [], DD := []], map[UK := {}, DK := {}, UD := {}, DD := {}], map[UK := {}, DK := {}, UD := {},
        DD := {}], [], {LK, LD}, {LK}, Leftovers({}, map[]))
  }

  function N6(): Net {
    Net(map[0 := Router({UK, DD}, {}, map[], {}), 1 := Router({DK}, {}, map[], {})], {2, 3, 4}, {UD}, map[UK := [],
        DK := [], UD := [], DD := []], map[UK := {}, DK := {}, UD := {}, DD := {}], map[UK := {}, DK := {}, UD := {},
        DD := {}], [], {LK, LD}, {LK, LD}, Leftovers({}, map[]))
  }

  function N7(): Net {
    Net(map[0 := Router({UK, DD}, {}, map[], {}), 1 := Router({DK}, {}, map[], {})], {2, 3, 4}, {UD, UE},
        map[UK := [], DK := [], UD := [], DD := [], UE := [], DE := []], map[UK := {}, DK := {}, UD := {}, DD := {},
        UE := {}, DE := {}], map[UK := {}, DK := {}, UD := {}, DD := {}, UE := {}, DE := {}], [], {LK, LD, LE}, {LK,
        LD}, Leftovers({}, map[]))
  }

  function N8(): Net {
    Net(map[0 := Router({UK, DD, DE}, {}, map[], {}), 1 := Router({DK}, {}, map[], {})], {2, 3, 4}, {UD, UE},
        map[UK := [], DK := [], UD := [], DD := [], UE := [], DE := []], map[UK := {}, DK := {}, UD := {}, DD := {},
        UE := {}, DE := {}], map[UK := {}, DK := {}, UD := {}, DD := {}, UE := {}, DE := {}], [], {LK, LD, LE}, {LK,
        LD, LE}, Leftovers({}, map[]))
  }

  function N9(): Net {
    Net(map[0 := Router({UK, DD, DE}, {}, map[], {}), 1 := Router({DK}, {}, map[], {})], {2, 3, 4}, {UD, UE},
        map[UK := [], DK := [], UD := [], DD := [SUB_S], UE := [], DE := []], map[UK := {}, DK := {}, UD := {S},
        DD := {}, UE := {}, DE := {}], map[UK := {}, DK := {}, UD := {}, DD := {}, UE := {}, DE := {}], [], {LK, LD,
        LE}, {LK, LD, LE}, Leftovers({}, map[]))
  }

  function N10(): Net {
    Net(map[0 := Router({UK, DD, DE}, {}, map[], {Tag(DD, S)}), 1 := Router({DK}, {}, map[], {})], {2, 3, 4}, {UD,
        UE}, map[UK := [], DK := [SUB_S], UD := [], DD := [], UE := [SUB_S], DE := []], map[UK := {S}, DK := {},
        UD := {S}, DD := {}, UE := {}, DE := {S}], map[UK := {S}, DK := {}, UD := {}, DD := {}, UE := {}, DE := {S}],
        [], {LK, LD, LE}, {LK, LD, LE}, Leftovers({}, map[]))
  }

  function N11(): Net {
    Net(map[0 := Router({UK, DD, DE}, {}, map[], {Tag(DD, S)}), 1 := Router({DK}, {}, map[], {})], {2, 3, 4}, {UD,
        UE}, map[UK := [], DK := [SUB_S], UD := [], DD := [UNSUB_S], UE := [SUB_S], DE := []], map[UK := {S},
        DK := {}, UD := {}, DD := {}, UE := {}, DE := {S}], map[UK := {S}, DK := {}, UD := {}, DD := {}, UE := {},
        DE := {S}], [], {LK, LD, LE}, {LK, LD, LE}, Leftovers({}, map[]))
  }

  function N12(): Net {
    Net(map[0 := Router({UK, DD}, {}, map[], {}), 1 := Router({DK}, {}, map[], {})], {2, 3, 4}, {UD, UE},
        map[UK := [], DK := [SUB_S], UD := [], DD := [], UE := [SUB_S], DE := []], map[UK := {S}, DK := {}, UD := {},
        DD := {}, UE := {}, DE := {S}], map[UK := {}, DK := {}, UD := {}, DD := {}, UE := {}, DE := {}],
        [Fanout(Relay(DD), DE, Send({UK}, UNSUB_S))], {LK, LD, LE}, {LK, LD, LE}, Leftovers({},
        map[DE := Loss(Relay(DD), false, [])]))
  }

  function N13(): Net {
    Net(map[0 := Router({UK, DD}, {}, map[], {}), 1 := Router({DK}, {}, map[], {})], {2, 3, 4}, {UD, UE, UY},
        map[UK := [], DK := [SUB_S], UD := [], DD := [], UE := [SUB_S], DE := [], UY := [], DY := []], map[UK := {S},
        DK := {}, UD := {}, DD := {}, UE := {}, DE := {S}, UY := {}, DY := {}], map[UK := {}, DK := {}, UD := {},
        DD := {}, UE := {}, DE := {}, UY := {}, DY := {}], [Fanout(Relay(DD), DE, Send({UK}, UNSUB_S))], {LK, LD, LE,
        LY}, {LK, LD, LE}, Leftovers({}, map[DE := Loss(Relay(DD), false, [])]))
  }

  function N14(): Net {
    Net(map[0 := Router({UK, DD, DY}, {}, map[], {}), 1 := Router({DK}, {}, map[], {})], {2, 3, 4}, {UD, UE, UY},
        map[UK := [], DK := [SUB_S], UD := [], DD := [], UE := [SUB_S], DE := [], UY := [], DY := []], map[UK := {S},
        DK := {}, UD := {}, DD := {}, UE := {}, DE := {S}, UY := {}, DY := {}], map[UK := {}, DK := {}, UD := {},
        DD := {}, UE := {}, DE := {}, UY := {}, DY := {}], [Fanout(Relay(DD), DE, Send({UK}, UNSUB_S))], {LK, LD, LE,
        LY}, {LK, LD, LE, LY}, Leftovers({}, map[DE := Loss(Relay(DD), false, [])]))
  }

  function N15(): Net {
    Net(map[0 := Router({UK, DD, DY}, {}, map[], {}), 1 := Router({DK}, {}, map[], {})], {2, 3, 4}, {UD, UE, UY},
        map[UK := [], DK := [SUB_S], UD := [], DD := [], UE := [SUB_S], DE := [], UY := [], DY := [SUB_S]],
        map[UK := {S}, DK := {}, UD := {}, DD := {}, UE := {}, DE := {S}, UY := {S}, DY := {}], map[UK := {},
        DK := {}, UD := {}, DD := {}, UE := {}, DE := {}, UY := {}, DY := {}], [Fanout(Relay(DD), DE, Send({UK},
        UNSUB_S))], {LK, LD, LE, LY}, {LK, LD, LE, LY}, Leftovers({}, map[DE := Loss(Relay(DD), false, [])]))
  }

  function N16(): Net {
    Net(map[0 := Router({UK, DD, DY}, {}, map[], {Tag(DY, S)}), 1 := Router({DK}, {}, map[], {})], {2, 3, 4}, {UD,
        UE, UY}, map[UK := [], DK := [SUB_S, SUB_S], UD := [SUB_S], DD := [], UE := [SUB_S], DE := [], UY := [],
        DY := []], map[UK := {S}, DK := {}, UD := {}, DD := {S}, UE := {}, DE := {S}, UY := {S}, DY := {}],
        map[UK := {S}, DK := {}, UD := {}, DD := {S}, UE := {}, DE := {}, UY := {}, DY := {}], [Fanout(Relay(DD), DE,
        Send({UK}, UNSUB_S))], {LK, LD, LE, LY}, {LK, LD, LE, LY}, Leftovers({}, map[DE := Loss(Relay(DD), false,
        [])]))
  }

  function N17(): Net {
    Net(map[0 := Router({UK, DD, DY}, {}, map[], {Tag(DY, S)}), 1 := Router({DK}, {}, map[], {})], {2, 3, 4}, {UD,
        UE, UY}, map[UK := [], DK := [SUB_S, SUB_S], UD := [SUB_S], DD := [], UE := [SUB_S], DE := [], UY := [],
        DY := []], map[UK := {S}, DK := {}, UD := {}, DD := {S}, UE := {}, DE := {S}, UY := {S}, DY := {}],
        map[UK := {S}, DK := {}, UD := {}, DD := {S}, UE := {}, DE := {}, UY := {}, DY := {}], [Fanout(Relay(DD), DE,
        Send({UK}, UNSUB_S))], {LK, LD, LE, LY}, {LK, LD, LE, LY}, Leftovers({}, map[DE := Loss(Relay(DD), true,
        [])]))
  }

  function N18(): Net {
    Net(map[0 := Router({UK, DD, DY}, {}, map[], {Tag(DY, S)}), 1 := Router({DK}, {}, map[], {})], {2, 3, 4}, {UD,
        UE, UY}, map[UK := [], DK := [SUB_S, SUB_S, UNSUB_S], UD := [SUB_S], DD := [], UE := [SUB_S], DE := [],
        UY := [], DY := []], map[UK := {}, DK := {}, UD := {}, DD := {S}, UE := {}, DE := {S}, UY := {S}, DY := {}],
        map[UK := {S}, DK := {}, UD := {}, DD := {S}, UE := {}, DE := {}, UY := {}, DY := {}], [], {LK, LD, LE, LY},
        {LK, LD, LE, LY}, Leftovers({}, map[DE := Loss(Relay(DD), true, [])]))
  }

  function N19(): Net {
    Net(map[0 := Router({UK, DD, DY}, {}, map[], {Tag(DY, S)}), 1 := Router({DK}, {}, map[], {Tag(DK, S)})], {2, 3,
        4}, {UD, UE, UY}, map[UK := [], DK := [SUB_S, UNSUB_S], UD := [SUB_S], DD := [], UE := [SUB_S], DE := [],
        UY := [], DY := []], map[UK := {}, DK := {}, UD := {}, DD := {S}, UE := {}, DE := {S}, UY := {S}, DY := {}],
        map[UK := {S}, DK := {}, UD := {}, DD := {S}, UE := {}, DE := {}, UY := {}, DY := {}], [], {LK, LD, LE, LY},
        {LK, LD, LE, LY}, Leftovers({}, map[DE := Loss(Relay(DD), true, [])]))
  }

  function N20(): Net {
    Net(map[0 := Router({UK, DD, DY}, {}, map[], {Tag(DY, S)}), 1 := Router({DK}, {}, map[], {Tag(DK, S)})], {2, 3,
        4}, {UD, UE, UY}, map[UK := [], DK := [UNSUB_S], UD := [SUB_S], DD := [], UE := [SUB_S], DE := [], UY := [],
        DY := []], map[UK := {}, DK := {}, UD := {}, DD := {S}, UE := {}, DE := {S}, UY := {S}, DY := {}],
        map[UK := {S}, DK := {}, UD := {}, DD := {S}, UE := {}, DE := {}, UY := {}, DY := {}], [], {LK, LD, LE, LY},
        {LK, LD, LE, LY}, Leftovers({}, map[DE := Loss(Relay(DD), true, [])]))
  }

  function N21(): Net {
    Net(map[0 := Router({UK, DD, DY}, {}, map[], {Tag(DY, S)}), 1 := Router({DK}, {}, map[], {})], {2, 3, 4}, {UD,
        UE, UY}, map[UK := [], DK := [], UD := [SUB_S], DD := [], UE := [SUB_S], DE := [], UY := [], DY := []],
        map[UK := {}, DK := {}, UD := {}, DD := {S}, UE := {}, DE := {S}, UY := {S}, DY := {}], map[UK := {S},
        DK := {}, UD := {}, DD := {S}, UE := {}, DE := {}, UY := {}, DY := {}], [], {LK, LD, LE, LY}, {LK, LD, LE,
        LY}, Leftovers({}, map[DE := Loss(Relay(DD), true, [])]))
  }

  function N22(): Net {
    Net(map[0 := Router({UK, DD, DY}, {}, map[], {Tag(DY, S)}), 1 := Router({DK}, {}, map[], {})], {2, 3, 4}, {UD,
        UE, UY}, map[UK := [], DK := [], UD := [], DD := [], UE := [SUB_S], DE := [], UY := [], DY := []],
        map[UK := {}, DK := {}, UD := {}, DD := {S}, UE := {}, DE := {S}, UY := {S}, DY := {}], map[UK := {S},
        DK := {}, UD := {}, DD := {S}, UE := {}, DE := {}, UY := {}, DY := {}], [], {LK, LD, LE, LY}, {LK, LD, LE,
        LY}, Leftovers({}, map[DE := Loss(Relay(DD), true, [])]))
  }

  function N23(): Net {
    Net(map[0 := Router({UK, DD, DY}, {}, map[], {Tag(DY, S)}), 1 := Router({DK}, {}, map[], {})], {2, 3, 4}, {UD,
        UY}, map[UK := [], DK := [], UD := [], DD := [], UE := [SUB_S], DE := [], UY := [], DY := []], map[UK := {},
        DK := {}, UD := {}, DD := {S}, UE := {}, DE := {S}, UY := {S}, DY := {}], map[UK := {S}, DK := {}, UD := {},
        DD := {S}, UE := {}, DE := {}, UY := {}, DY := {}], [], {LK, LD, LE, LY}, {LK, LD, LE, LY}, Leftovers({},
        map[DE := Loss(Relay(DD), true, [])]))
  }


  lemma Step1()
    requires Reached(N0())
    ensures Reached(N1())
  {
    Establishes(N0(), LK, N1().routers[0], N1());
  }

  lemma Step2()
    requires Reached(N1())
    ensures Reached(N2())
  {
    ArrivesAt(N1(), LK, N2().routers[1], N2());
  }

  lemma Step3()
    requires Reached(N2())
    ensures Reached(N3())
  {
    Activates(N2(), UK, N3().routers[0], N3());
  }

  lemma Step4()
    requires Reached(N3())
    ensures Reached(N4())
  {
    IsDrained(N3(), UK, N4().routers[0], N4());
  }

  lemma Step5()
    requires Reached(N4())
    ensures Reached(N5())
  {
    Connects(N4(), LD, N5());
  }

  lemma Step6()
    requires Reached(N5())
    ensures Reached(N6())
  {
    ArrivesAt(N5(), LD, N6().routers[0], N6());
  }

  lemma Step7()
    requires Reached(N6())
    ensures Reached(N7())
  {
    Connects(N6(), LE, N7());
  }

  lemma Step8()
    requires Reached(N7())
    ensures Reached(N8())
  {
    ArrivesAt(N7(), LE, N8().routers[0], N8());
  }

  lemma Step9()
    requires Reached(N8())
    ensures Reached(N9())
  {
    assert Apply({}, SUB_S) == {S};
    assert UD.Peer() == DD && [] + [SUB_S] == [SUB_S];
    ClientSends(N8(), UD, SUB_S, N9());
  }

  lemma Chan10()
    ensures N10().chan == Queued(N9().chan[DD := N9().chan[DD][1..]], {UK, DE}, SUB_S)
  {
    assert N9().chan[DD][1..] == [];
    assert UK.Peer() == DK && DE.Peer() == UE;
    TwoQueued(N9().chan[DD := []], UK, DE, SUB_S);
    assert [] + [SUB_S] == [SUB_S];
    assert N9().chan[DD := []][DK := [SUB_S]][UE := [SUB_S]] == N10().chan;
  }

  lemma Told10()
    ensures N10().told == Noted(N9().told, {UK, DE}, SUB_S)
  {
    TwoNoted(N9().told, UK, DE, SUB_S);
    assert Apply({}, SUB_S) == {S};
    assert N9().told[UK := {S}][DE := {S}] == N10().told;
  }

  lemma Decided10()
    ensures N10().decided == Noted(N9().decided, {UK, DE}, SUB_S)
  {
    TwoNoted(N9().decided, UK, DE, SUB_S);
    assert Apply({}, SUB_S) == {S};
    assert N9().decided[UK := {S}][DE := {S}] == N10().decided;
  }

  lemma Handled10()
    ensures Response(N9(), DD, SUB_S) == (N10().routers[0], Send({UK, DE}, SUB_S))
  {
    assert N9().routers[0].Active() - {DD} == {UK, DE};
    assert N9().routers[0].tags + {Tag(DD, S)} == {Tag(DD, S)};
    assert Open(N9(), UK);
    assert Open(N9(), DE);
    assert OnOpen(N9(), Send({UK, DE}, SUB_S)) == Send({UK, DE}, SUB_S);
  }

  lemma Ready10()
    ensures Enabled(N9(), Receive(DD, None))
  {
    Handled10();
  }

  lemma Sends10()
    ensures Sends(N9(), N9().chan[DD := N9().chan[DD][1..]], DD, N10().routers[0], {UK, DE}, SUB_S, N10())
  {
    Told10();
    Chan10();
    Decided10();
  }

  lemma Step10()
    requires Reached(N9())
    ensures Reached(N10())
  {
    Handled10();
    Ready10();
    Sends10();
    Receives(N9(), DD, SUB_S, N10().routers[0], {UK, DE}, N10());
  }

  lemma Step11()
    requires Reached(N10())
    ensures Reached(N11())
  {
    assert Apply({S}, UNSUB_S) == {};
    assert UD.Peer() == DD && [] + [UNSUB_S] == [UNSUB_S];
    ClientSends(N10(), UD, UNSUB_S, N11());
  }

  lemma Chan12()
    ensures N12().chan == Queued(N11().chan[DD := N11().chan[DD][1..]], {}, UNSUB_S)
  {
    assert N11().chan[DD][1..] == [];
    NoneNoted(N11().chan[DD := []], N11().told, UNSUB_S);
  }

  lemma Decided12()
    ensures N12().decided == Noted(N11().decided, {UK, DE}, UNSUB_S)
  {
    TwoNoted(N11().decided, UK, DE, UNSUB_S);
    assert Apply({S}, UNSUB_S) == {};
    assert N11().decided[UK := {}][DE := {}] == N12().decided;
  }

  lemma Handled12()
    ensures Response(N11(), DD, UNSUB_S) == (Router({UK, DD, DE}, {}, map[], {}), Send({UK, DE}, UNSUB_S))
  {
    var r := N11().routers[0].(tags := {});
    assert N11().routers[0].tags - {Tag(DD, S)} == r.tags && r == Router({UK, DD, DE}, {}, map[], {});
    assert r.Subscribers(S) == {} && r.Active() - {DD} == {UK, DE};
    assert Open(N11(), UK);
    assert Open(N11(), DE);
    assert OnOpen(N11(), Send({UK, DE}, UNSUB_S)) == Send({UK, DE}, UNSUB_S);
  }

  lemma Ready12()
    ensures Enabled(N11(), Receive(DD, Some(Stop(DE, {UK}))))
  {
    Handled12();
    assert DE in N11().routers[0].conns;
  }

  lemma Stops12()
    ensures Stops(N11(), N11().chan[DD := N11().chan[DD][1..]], N11().lost, Relay(DD), DD, Router({UK, DD, DE}, {},
            map[], {}), Send({UK, DE}, UNSUB_S), Stop(DE, {UK}), {}, N12().routers[0], N12())
  {
    NoneNoted(N11().chan, N11().told, UNSUB_S);
    Chan12();
    Decided12();
    assert TagsAt(Router({UK, DD, DE}, {}, map[], {}), DE) == {};
  }

  lemma Step12()
    requires Reached(N11())
    ensures Reached(N12())
  {
    Handled12();
    Ready12();
    Stops12();
    ReceiveStops(N11(), DD, Router({UK, DD, DE}, {}, map[], {}), Send({UK, DE}, UNSUB_S), Stop(DE, {UK}), {},
      N12().routers[0], N12());
  }

  lemma Step13()
    requires Reached(N12())
    ensures Reached(N13())
  {
    Connects(N12(), LY, N13());
  }

  lemma Step14()
    requires Reached(N13())
    ensures Reached(N14())
  {
    ArrivesAt(N13(), LY, N14().routers[0], N14());
  }

  lemma Step15()
    requires Reached(N14())
    ensures Reached(N15())
  {
    assert Apply({}, SUB_S) == {S};
    assert UY.Peer() == DY && [] + [SUB_S] == [SUB_S];
    ClientSends(N14(), UY, SUB_S, N15());
  }

  lemma Chan16()
    ensures N16().chan == Queued(N15().chan[DY := N15().chan[DY][1..]], {UK, DD}, SUB_S)
  {
    assert N15().chan[DY][1..] == [];
    assert UK.Peer() == DK && DD.Peer() == UD;
    TwoQueued(N15().chan[DY := []], UK, DD, SUB_S);
    assert [SUB_S] + [SUB_S] == [SUB_S, SUB_S];
    assert [] + [SUB_S] == [SUB_S];
    assert N15().chan[DY := []][DK := [SUB_S, SUB_S]][UD := [SUB_S]] == N16().chan;
  }

  lemma Told16()
    ensures N16().told == Noted(N15().told, {UK, DD}, SUB_S)
  {
    TwoNoted(N15().told, UK, DD, SUB_S);
    assert Apply({S}, SUB_S) == {S};
    assert Apply({}, SUB_S) == {S};
    assert N15().told[UK := {S}][DD := {S}] == N16().told;
  }

  lemma Decided16()
    ensures N16().decided == Noted(N15().decided, {UK, DD}, SUB_S)
  {
    TwoNoted(N15().decided, UK, DD, SUB_S);
    assert Apply({}, SUB_S) == {S};
    assert N15().decided[UK := {S}][DD := {S}] == N16().decided;
  }

  lemma Handled16()
    ensures Response(N15(), DY, SUB_S) == (N16().routers[0], Send({UK, DD}, SUB_S))
  {
    assert N15().routers[0].Active() - {DY} == {UK, DD};
    assert N15().routers[0].tags + {Tag(DY, S)} == {Tag(DY, S)};
    assert Open(N15(), UK);
    assert Open(N15(), DD);
    assert OnOpen(N15(), Send({UK, DD}, SUB_S)) == Send({UK, DD}, SUB_S);
  }

  lemma Ready16()
    ensures Enabled(N15(), Receive(DY, None))
  {
    Handled16();
  }

  lemma Sends16()
    ensures Sends(N15(), N15().chan[DY := N15().chan[DY][1..]], DY, N16().routers[0], {UK, DD}, SUB_S, N16())
  {
    Told16();
    Chan16();
    Decided16();
  }

  lemma Step16()
    requires Reached(N15())
    ensures Reached(N16())
  {
    Handled16();
    Ready16();
    Sends16();
    Receives(N15(), DY, SUB_S, N16().routers[0], {UK, DD}, N16());
  }

  lemma Step17()
    requires Reached(N16())
    ensures Reached(N17())
  {
    Shuts(N16(), DE, 0, N17().lost.loss[DE], N17());
  }

  lemma Chan18()
    ensures N18().chan == Queued(N17().chan, {UK}, UNSUB_S)
  {
    assert UK.Peer() == DK;
    OneQueued(N17().chan, UK, UNSUB_S);
    assert [SUB_S, SUB_S] + [UNSUB_S] == [SUB_S, SUB_S, UNSUB_S];
    assert N17().chan[DK := [SUB_S, SUB_S, UNSUB_S]] == N18().chan;
  }

  lemma Told18()
    ensures N18().told == Noted(N17().told, {UK}, UNSUB_S)
  {
    OneNoted(N17().told, UK, UNSUB_S);
    assert Apply({S}, UNSUB_S) == {};
    assert N17().told[UK := {}] == N18().told;
  }

  lemma Step18()
    requires Reached(N17())
    ensures Reached(N18())
  {
    Told18();
    Chan18();
    assert OnOpen(N17(), N17().stalled[0].rest) == Send({UK}, UNSUB_S);
    Resumes(N17(), {UK}, UNSUB_S, N18());
  }

  lemma Chan19()
    ensures N19().chan == Queued(N18().chan[DK := N18().chan[DK][1..]], {}, SUB_S)
  {
    assert N18().chan[DK][1..] == [SUB_S, UNSUB_S];
    NoneNoted(N18().chan[DK := [SUB_S, UNSUB_S]], N18().told, SUB_S);
  }

  lemma Handled19()
    ensures Response(N18(), DK, SUB_S) == (N19().routers[1], Send({}, SUB_S))
  {
    assert N18().routers[1].Active() - {DK} == {};
    assert N18().routers[1].tags + {Tag(DK, S)} == {Tag(DK, S)};
    assert OnOpen(N18(), Send({}, SUB_S)) == Send({}, SUB_S);
  }

  lemma Ready19()
    ensures Enabled(N18(), Receive(DK, None))
  {
    Handled19();
  }

  lemma Step19()
    requires Reached(N18())
    ensures Reached(N19())
  {
    NoneNoted(N18().chan, N18().told, SUB_S);
    Chan19();
    NoneNoted(N18().chan, N18().decided, SUB_S);
    Handled19();
    Ready19();
    Receives(N18(), DK, SUB_S, N19().routers[1], {}, N19());
  }

  lemma Chan20()
    ensures N20().chan == Queued(N19().chan[DK := N19().chan[DK][1..]], {}, SUB_S)
  {
    assert N19().chan[DK][1..] == [UNSUB_S];
    NoneNoted(N19().chan[DK := [UNSUB_S]], N19().told, SUB_S);
  }

  lemma Handled20()
    ensures Response(N19(), DK, SUB_S) == (N20().routers[1], Send({}, SUB_S))
  {
    assert N19().routers[1].Active() - {DK} == {};
    assert N19().routers[1].tags + {Tag(DK, S)} == {Tag(DK, S)};
    assert OnOpen(N19(), Send({}, SUB_S)) == Send({}, SUB_S);
  }

  lemma Ready20()
    ensures Enabled(N19(), Receive(DK, None))
  {
    Handled20();
  }

  lemma Step20()
    requires Reached(N19())
    ensures Reached(N20())
  {
    NoneNoted(N19().chan, N19().told, SUB_S);
    Chan20();
    NoneNoted(N19().chan, N19().decided, SUB_S);
    Handled20();
    Ready20();
    Receives(N19(), DK, SUB_S, N20().routers[1], {}, N20());
  }

  lemma Chan21()
    ensures N21().chan == Queued(N20().chan[DK := N20().chan[DK][1..]], {}, UNSUB_S)
  {
    assert N20().chan[DK][1..] == [];
    NoneNoted(N20().chan[DK := []], N20().told, UNSUB_S);
  }

  lemma Handled21()
    ensures Response(N20(), DK, UNSUB_S) == (N21().routers[1], Send({}, UNSUB_S))
  {
    var r := N20().routers[1].(tags := {});
    assert N20().routers[1].tags - {Tag(DK, S)} == r.tags && r == N21().routers[1];
    assert r.Subscribers(S) == {} && r.Active() - {DK} == {};
    assert OnOpen(N20(), Send({}, UNSUB_S)) == Send({}, UNSUB_S);
  }

  lemma Ready21()
    ensures Enabled(N20(), Receive(DK, None))
  {
    Handled21();
  }

  lemma Sends21()
    ensures Sends(N20(), N20().chan[DK := N20().chan[DK][1..]], DK, N21().routers[1], {}, UNSUB_S, N21())
  {
    NoneNoted(N20().chan, N20().told, UNSUB_S);
    Chan21();
    NoneNoted(N20().chan, N20().decided, UNSUB_S);
  }

  lemma Step21()
    requires Reached(N20())
    ensures Reached(N21())
  {
    Handled21();
    Ready21();
    Sends21();
    Receives(N20(), DK, UNSUB_S, N21().routers[1], {}, N21());
  }

  lemma Step22()
    requires Reached(N21())
    ensures Reached(N22())
  {
    assert N21().chan[UD][1..] == [];
    ClientReceives(N21(), UD, N22());
  }

  lemma Step23()
    requires Reached(N22())
    ensures Reached(N23())
  {
    ClientLeaves(N22(), UE, N23());
  }

  lemma LastIsReached()
    ensures Reached(N23())
  {
    Starts(N0());
    Step1();
    Step2();
    Step3();
    Step4();
    Step5();
    Step6();
    Step7();
    Step8();
    Step9();
    Step10();
    Step11();
    Step12();
    Step13();
    Step14();
    Step15();
    Step16();
    Step17();
    Step18();
    Step19();
    Step20();
    Step21();
    Step22();
    Step23();
  }

  function Last(): Net {
    N23()
  }

  lemma Listing()
    ensures forall c :: Listed(Last(), c) <==> c in {UK, DK, UD, DD, UY, DY}
  {
    assert Last().routers[0].conns == {UK, DD, DY} && Last().routers[1].conns == {DK};
    assert Last().clientConns == {UD, UY};
    forall c | c in {UK, DK, UD, DD, UY, DY} ensures Listed(Last(), c) {
    }
  }

  lemma Star()
    ensures LiveLinks(Last()) == {LK, LD, LY} && Forest({LK, LD, LY})
  {
    Listing();
    var E := {LK, LD, LY};
    Isolated(E - {LK}, 1, 0);
    Isolated(E - {LD}, 2, 0);
    Isolated(E - {LY}, 4, 0);
    if Connected(E - {LK}, 0, 1) {
      Symmetric(E - {LK}, 0, 1);
    }
  }

  lemma IdleAtLast()
    ensures Idle(Last())
  {
    Listing();
    assert UK.Peer() == DK && DK.Peer() == UK && UD.Peer() == DD && DD.Peer() == UD;
    assert UY.Peer() == DY && DY.Peer() == UY;
  }

  lemma Subscriber()
    ensures SubscribedAhead(Last(), UK, S)
  {
    Star();
    assert Subscribed(Last(), 4, S) by {
      assert UY in Last().clientConns && S in Last().told[UY];
    }
    var E := {LK, LD, LY} - {LK};
    OneEdge(E, LY);
    Symmetric(E, 4, 0);
    assert 4 in Ahead(LiveLinks(Last()), Nodes(Last()), UK);
  }

  /** Nothing is in progress, the links are a tree and there is no stale tag, yet node 1 is not
      tagged with a subject to which a client ahead is subscribed. */
  ghost predicate Missed(net: Net) {
    && Idle(net) && Forest(LiveLinks(net)) && (forall k, s :: !Stale(net, k, s))
    && 1 in net.routers && DK in net.routers[1].conns && Tag(DK, S) !in net.routers[1].tags
    && SubscribedAhead(net, DK.Peer(), S)
  }

  lemma OldDecisionComesLast()
    ensures exists trace, events :: Run(trace, events) && Missed(trace[|events|])
  {
    LastIsReached();
    Star();
    IdleAtLast();
    Subscriber();
    assert forall k, s :: !Stale(Last(), k, s);
    assert Missed(Last());
    var trace, events :| Run(trace, events) && trace[|events|] == Last();
  }
}
