/** Why it matters when a relay loop is cancelled: a run that ends idle with two stale tags, though
    no relay loop ever dropped its own connection.

    Clients 1, 2 and 3 are connected to node 0. A message from 3 finds the queue of 1 full, so the
    relay loop of 3 drops 1, and a first "unsubscribe" for 1 finds the queue of 2 full too. While the
    relay loop of 3 waits for 2 to be closed, the relay loop of 1 reads a "subscribe" that nobody will
    undo. Then 3 is lost, which cancels its relay loop, and what it had still to remove of 1 stays. */
module LateReads {
  import opened Graphs
  import opened Links
  import opened Results
  import opened Subjects
  import opened Routing
  import opened Quiescence
  import opened Reach

  const LD: Link := Edge(0, 1, 0)
  const LE: Link := Edge(1, 2, 0)
  const LX: Link := Edge(2, 3, 0)
  const UD := Conn(LD, true)
  const DD := Conn(LD, false)
  const UE := Conn(LE, true)
  const DE := Conn(LE, false)
  const UX := Conn(LX, true)
  const DX := Conn(LX, false)

  const A: Subject := "a"
  const B: Subject := "b"
  const C: Subject := "c"
  const Z: Subject := "z"
  const SUB_A := Subscription(A, true)
  const SUB_B := Subscription(B, true)
  const SUB_C := Subscription(C, true)
  const SUB_Z := Subscription(Z, true)
  const UNSUB_A := Subscription(A, false)
  const UNSUB_Z := Subscription(Z, false)

  function N0(): Net {
    Net(map[0 := NEW_ROUTER], {1, 2, 3}, {}, map[], map[], map[], [], {}, {}, Leftovers({}, map[]))
  }

  function N1(): Net {
    Net(map[0 := NEW_ROUTER], {1, 2, 3}, {UD}, map[UD := [], DD := []], map[UD := {}, DD := {}], map[UD := {},
        DD := {}], [], {LD}, {}, Leftovers({}, map[]))
  }

  function N2(): Net {
    Net(map[0 := NEW_ROUTER], {1, 2, 3}, {UD, UE}, map[UD := [], DD := [], UE := [], DE := []], map[UD := {},
        DD := {}, UE := {}, DE := {}], map[UD := {}, DD := {}, UE := {}, DE := {}], [], {LD, LE}, {}, Leftovers({},
        map[]))
  }

  function N3(): Net {
    Net(map[0 := NEW_ROUTER], {1, 2, 3}, {UD, UE, UX}, map[UD := [], DD := [], UE := [], DE := [], UX := [],
        DX := []], map[UD := {}, DD := {}, UE := {}, DE := {}, UX := {}, DX := {}], map[UD := {}, DD := {}, UE := {},
        DE := {}, UX := {}, DX := {}], [], {LD, LE, LX}, {}, Leftovers({}, map[]))
  }

  function N4(): Net {
    Net(map[0 := Router({DD}, {}, map[], {})], {1, 2, 3}, {UD, UE, UX}, map[UD := [], DD := [], UE := [], DE := [],
        UX := [], DX := []], map[UD := {}, DD := {}, UE := {}, DE := {}, UX := {}, DX := {}], map[UD := {}, DD := {},
        UE := {}, DE := {}, UX := {}, DX := {}], [], {LD, LE, LX}, {LD}, Leftovers({}, map[]))
  }

  function N5(): Net {
    Net(map[0 := Router({DD, DE}, {}, map[], {})], {1, 2, 3}, {UD, UE, UX}, map[UD := [], DD := [], UE := [],
        DE := [], UX := [], DX := []], map[UD := {}, DD := {}, UE := {}, DE := {}, UX := {}, DX := {}], map[UD := {},
        DD := {}, UE := {}, DE := {}, UX := {}, DX := {}], [], {LD, LE, LX}, {LD, LE}, Leftovers({}, map[]))
  }

  function N6(): Net {
    Net(map[0 := Router({DD, DE, DX}, {}, map[], {})], {1, 2, 3}, {UD, UE, UX}, map[UD := [], DD := [], UE := [],
        DE := [], UX := [], DX := []], map[UD := {}, DD := {}, UE := {}, DE := {}, UX := {}, DX := {}], map[UD := {},
        DD := {}, UE := {}, DE := {}, UX := {}, DX := {}], [], {LD, LE, LX}, {LD, LE, LX}, Leftovers({}, map[]))
  }

  function N7(): Net {
    Net(map[0 := Router({DD, DE, DX}, {}, map[], {})], {1, 2, 3}, {UD, UE, UX}, map[UD := [], DD := [SUB_A],
        UE := [], DE := [], UX := [], DX := []], map[UD := {A}, DD := {}, UE := {}, DE := {}, UX := {}, DX := {}],
        map[UD := {}, DD := {}, UE := {}, DE := {}, UX := {}, DX := {}], [], {LD, LE, LX}, {LD, LE, LX},
        Leftovers({}, map[]))
  }

  function N8(): Net {
    Net(map[0 := Router({DD, DE, DX}, {}, map[], {Tag(DD, A)})], {1, 2, 3}, {UD, UE, UX}, map[UD := [], DD := [],
        UE := [SUB_A], DE := [], UX := [SUB_A], DX := []], map[UD := {A}, DD := {}, UE := {}, DE := {A}, UX := {},
        DX := {A}], map[UD := {}, DD := {}, UE := {}, DE := {A}, UX := {}, DX := {A}], [], {LD, LE, LX}, {LD, LE,
        LX}, Leftovers({}, map[]))
  }

  function N9(): Net {
    Net(map[0 := Router({DD, DE, DX}, {}, map[], {Tag(DD, A)})], {1, 2, 3}, {UD, UE, UX}, map[UD := [],
        DD := [SUB_B], UE := [SUB_A], DE := [], UX := [SUB_A], DX := []], map[UD := {A, B}, DD := {}, UE := {},
        DE := {A}, UX := {}, DX := {A}], map[UD := {}, DD := {}, UE := {}, DE := {A}, UX := {}, DX := {A}], [], {LD,
        LE, LX}, {LD, LE, LX}, Leftovers({}, map[]))
  }

  function N10(): Net {
    Net(map[0 := Router({DD, DE, DX}, {}, map[], {Tag(DD, A), Tag(DD, B)})], {1, 2, 3}, {UD, UE, UX}, map[UD := [],
        DD := [], UE := [SUB_A, SUB_B], DE := [], UX := [SUB_A, SUB_B], DX := []], map[UD := {A, B}, DD := {},
        UE := {}, DE := {A, B}, UX := {}, DX := {A, B}], map[UD := {}, DD := {}, UE := {}, DE := {A, B}, UX := {},
        DX := {A, B}], [], {LD, LE, LX}, {LD, LE, LX}, Leftovers({}, map[]))
  }

  function N11(): Net {
    Net(map[0 := Router({DD, DE, DX}, {}, map[], {Tag(DD, A), Tag(DD, B)})], {1, 2, 3}, {UD, UE, UX}, map[UD := [],
        DD := [SUB_C], UE := [SUB_A, SUB_B], DE := [], UX := [SUB_A, SUB_B], DX := []], map[UD := {A, B, C},
        DD := {}, UE := {}, DE := {A, B}, UX := {}, DX := {A, B}], map[UD := {}, DD := {}, UE := {}, DE := {A, B},
        UX := {}, DX := {A, B}], [], {LD, LE, LX}, {LD, LE, LX}, Leftovers({}, map[]))
  }

  function N12(): Net {
    Net(map[0 := Router({DD, DE, DX}, {}, map[], {Tag(DD, A), Tag(DD, B)})], {1, 2, 3}, {UD, UE, UX}, map[UD := [],
        DD := [SUB_C], UE := [SUB_A, SUB_B], DE := [], UX := [SUB_A, SUB_B], DX := [SUB_Z]], map[UD := {A, B, C},
        DD := {}, UE := {}, DE := {A, B}, UX := {Z}, DX := {A, B}], map[UD := {}, DD := {}, UE := {}, DE := {A, B},
        UX := {}, DX := {A, B}], [], {LD, LE, LX}, {LD, LE, LX}, Leftovers({}, map[]))
  }

  function N13(): Net {
    Net(map[0 := Router({DE, DX}, {}, map[], {Tag(DD, A), Tag(DD, B), Tag(DX, Z)})], {1, 2, 3}, {UD, UE, UX},
        map[UD := [], DD := [SUB_C], UE := [SUB_A, SUB_B, SUB_Z], DE := [], UX := [SUB_A, SUB_B], DX := []],
        map[UD := {A, B, C}, DD := {}, UE := {}, DE := {A, B, Z}, UX := {Z}, DX := {A, B}], map[UD := {}, DD := {Z},
        UE := {}, DE := {A, B, Z}, UX := {}, DX := {A, B}], [], {LD, LE, LX}, {LD, LE, LX}, Leftovers({Tag(DD, A),
        Tag(DD, B)}, map[DD := Loss(Relay(DX), false, [])]))
  }

  function N14(): Net {
    Net(map[0 := Router({DX}, {}, map[], {Tag(DD, B), Tag(DX, Z)})], {1, 2, 3}, {UD, UE, UX}, map[UD := [],
        DD := [SUB_C], UE := [SUB_A, SUB_B, SUB_Z], DE := [], UX := [SUB_A, SUB_B, UNSUB_A], DX := []], map[UD := {A,
        B, C}, DD := {}, UE := {}, DE := {A, B, Z}, UX := {Z}, DX := {B}], map[UD := {}, DD := {Z}, UE := {},
        DE := {B, Z}, UX := {}, DX := {B}], [], {LD, LE, LX}, {LD, LE, LX}, Leftovers({Tag(DD, B)},
        map[DD := Loss(Relay(DX), false, []), DE := Loss(Relay(DX), false, [])]))
  }

  function N15(): Net {
    Net(map[0 := Router({DX}, {}, map[], {Tag(DD, B), Tag(DX, Z), Tag(DD, C)})], {1, 2, 3}, {UD, UE, UX},
        map[UD := [], DD := [], UE := [SUB_A, SUB_B, SUB_Z], DE := [], UX := [SUB_A, SUB_B, UNSUB_A, SUB_C],
        DX := []], map[UD := {A, B, C}, DD := {}, UE := {}, DE := {A, B, Z}, UX := {Z}, DX := {B, C}], map[UD := {},
        DD := {Z}, UE := {}, DE := {B, Z}, UX := {}, DX := {B, C}], [], {LD, LE, LX}, {LD, LE, LX},
        Leftovers({Tag(DD, B)}, map[DD := Loss(Relay(DX), false, []), DE := Loss(Relay(DX), false, [])]))
  }

  function N16(): Net {
    Net(map[0 := Router({}, {}, map[], {Tag(DD, B), Tag(DX, Z), Tag(DD, C)})], {1, 2, 3}, {UD, UE, UX}, map[UD := [],
        DD := [], UE := [SUB_A, SUB_B, SUB_Z], DE := [], UX := [SUB_A, SUB_B, UNSUB_A, SUB_C], DX := []],
        map[UD := {A, B, C}, DD := {}, UE := {}, DE := {A, B, Z}, UX := {Z}, DX := {B, C}], map[UD := {}, DD := {Z},
        UE := {}, DE := {B, Z}, UX := {}, DX := {B, C}], [], {LD, LE, LX}, {LD, LE, LX}, Leftovers({Tag(DD, B),
        Tag(DX, Z)}, map[DD := Loss(Relay(DX), false, []), DE := Loss(Relay(DX), false, []), DX := Loss(Other, false,
        [])]))
  }

  function N17(): Net {
    Net(map[0 := Router({}, {}, map[], {Tag(DD, B), Tag(DX, Z), Tag(DD, C)})], {1, 2, 3}, {UD, UE, UX}, map[UD := [],
        DD := [], UE := [SUB_A, SUB_B, SUB_Z], DE := [], UX := [SUB_A, SUB_B, UNSUB_A, SUB_C], DX := []],
        map[UD := {A, B, C}, DD := {}, UE := {}, DE := {A, B, Z}, UX := {Z}, DX := {B, C}], map[UD := {}, DD := {Z},
        UE := {}, DE := {B, Z}, UX := {}, DX := {B, C}], [], {LD, LE, LX}, {LD, LE, LX}, Leftovers({Tag(DD, B),
        Tag(DX, Z)}, map[DD := Loss(Relay(DX), false, []), DE := Loss(Relay(DX), false, []), DX := Loss(Other, true,
        [])]))
  }

  function N18(): Net {
    Net(map[0 := Router({}, {}, map[], {Tag(DD, B), Tag(DD, C)})], {1, 2, 3}, {UD, UE, UX}, map[UD := [], DD := [],
        UE := [SUB_A, SUB_B, SUB_Z], DE := [], UX := [SUB_A, SUB_B, UNSUB_A, SUB_C], DX := []], map[UD := {A, B, C},
        DD := {}, UE := {}, DE := {A, B, Z}, UX := {Z}, DX := {B, C}], map[UD := {}, DD := {Z}, UE := {}, DE := {B,
        Z}, UX := {}, DX := {B, C}], [], {LD, LE, LX}, {LD, LE, LX}, Leftovers({Tag(DD, B)},
        map[DD := Loss(Relay(DX), false, []), DE := Loss(Relay(DX), false, []), DX := Loss(Other, true, [])]))
  }

  function N19(): Net {
    Net(map[0 := Router({}, {}, map[], {Tag(DD, B), Tag(DD, C)})], {1, 2, 3}, {UD, UE, UX}, map[UD := [], DD := [],
        UE := [SUB_A, SUB_B, SUB_Z], DE := [], UX := [SUB_A, SUB_B, UNSUB_A, SUB_C], DX := []], map[UD := {A, B, C},
        DD := {}, UE := {}, DE := {A, B, Z}, UX := {Z}, DX := {B, C}], map[UD := {}, DD := {Z}, UE := {}, DE := {B,
        Z}, UX := {}, DX := {B, C}], [], {LD, LE, LX}, {LD, LE, LX}, Leftovers({}, map[DD := Loss(Relay(DX), false,
        []), DE := Loss(Relay(DX), false, []), DX := Loss(Other, true, [])]))
  }

  function N20(): Net {
    Net(map[0 := Router({}, {}, map[], {Tag(DD, B), Tag(DD, C)})], {1, 2, 3}, {UD, UE, UX}, map[UD := [], DD := [],
        UE := [SUB_A, SUB_B, SUB_Z], DE := [], UX := [SUB_A, SUB_B, UNSUB_A, SUB_C], DX := []], map[UD := {A, B, C},
        DD := {}, UE := {}, DE := {A, B, Z}, UX := {Z}, DX := {B, C}], map[UD := {}, DD := {Z}, UE := {}, DE := {B,
        Z}, UX := {}, DX := {B, C}], [], {LD, LE, LX}, {LD, LE, LX}, Leftovers({}, map[DD := Loss(Relay(DX), false,
        []), DE := Loss(Relay(DX), true, []), DX := Loss(Other, true, [])]))
  }

  function N21(): Net {
    Net(map[0 := Router({}, {}, map[], {Tag(DD, B), Tag(DD, C)})], {1, 2, 3}, {UD, UE, UX}, map[UD := [], DD := [],
        UE := [SUB_A, SUB_B, SUB_Z], DE := [], UX := [SUB_A, SUB_B, UNSUB_A, SUB_C], DX := []], map[UD := {A, B, C},
        DD := {}, UE := {}, DE := {A, B, Z}, UX := {Z}, DX := {B, C}], map[UD := {}, DD := {Z}, UE := {}, DE := {B,
        Z}, UX := {}, DX := {B, C}], [], {LD, LE, LX}, {LD, LE, LX}, Leftovers({}, map[DD := Loss(Relay(DX), true,
        []), DE := Loss(Relay(DX), true, []), DX := Loss(Other, true, [])]))
  }

  function N22(): Net {
    Net(map[0 := Router({}, {}, map[], {Tag(DD, B), Tag(DD, C)})], {1, 2, 3}, {UE, UX}, map[UD := [], DD := [],
        UE := [SUB_A, SUB_B, SUB_Z], DE := [], UX := [SUB_A, SUB_B, UNSUB_A, SUB_C], DX := []], map[UD := {A, B, C},
        DD := {}, UE := {}, DE := {A, B, Z}, UX := {Z}, DX := {B, C}], map[UD := {}, DD := {Z}, UE := {}, DE := {B,
        Z}, UX := {}, DX := {B, C}], [], {LD, LE, LX}, {LD, LE, LX}, Leftovers({}, map[DD := Loss(Relay(DX), true,
        []), DE := Loss(Relay(DX), true, []), DX := Loss(Other, true, [])]))
  }

  function N23(): Net {
    Net(map[0 := Router({}, {}, map[], {Tag(DD, B), Tag(DD, C)})], {1, 2, 3}, {UX}, map[UD := [], DD := [],
        UE := [SUB_A, SUB_B, SUB_Z], DE := [], UX := [SUB_A, SUB_B, UNSUB_A, SUB_C], DX := []], map[UD := {A, B, C},
        DD := {}, UE := {}, DE := {A, B, Z}, UX := {Z}, DX := {B, C}], map[UD := {}, DD := {Z}, UE := {}, DE := {B,
        Z}, UX := {}, DX := {B, C}], [], {LD, LE, LX}, {LD, LE, LX}, Leftovers({}, map[DD := Loss(Relay(DX), true,
        []), DE := Loss(Relay(DX), true, []), DX := Loss(Other, true, [])]))
  }

  function N24(): Net {
    Net(map[0 := Router({}, {}, map[], {Tag(DD, B), Tag(DD, C)})], {1, 2, 3}, {}, map[UD := [], DD := [],
        UE := [SUB_A, SUB_B, SUB_Z], DE := [], UX := [SUB_A, SUB_B, UNSUB_A, SUB_C], DX := []], map[UD := {A, B, C},
        DD := {}, UE := {}, DE := {A, B, Z}, UX := {Z}, DX := {B, C}], map[UD := {}, DD := {Z}, UE := {}, DE := {B,
        Z}, UX := {}, DX := {B, C}], [], {LD, LE, LX}, {LD, LE, LX}, Leftovers({}, map[DD := Loss(Relay(DX), true,
        []), DE := Loss(Relay(DX), true, []), DX := Loss(Other, true, [])]))
  }


  lemma Step1()
    requires Reached(N0())
    ensures Reached(N1())
  {
    Connects(N0(), LD, N1());
  }

  lemma Step2()
    requires Reached(N1())
    ensures Reached(N2())
  {
    Connects(N1(), LE, N2());
  }

  lemma Step3()
    requires Reached(N2())
    ensures Reached(N3())
  {
    Connects(N2(), LX, N3());
  }

  lemma Step4()
    requires Reached(N3())
    ensures Reached(N4())
  {
    ArrivesAt(N3(), LD, N4().routers[0], N4());
  }

  lemma Step5()
    requires Reached(N4())
    ensures Reached(N5())
  {
    ArrivesAt(N4(), LE, N5().routers[0], N5());
  }

  lemma Step6()
    requires Reached(N5())
    ensures Reached(N6())
  {
    ArrivesAt(N5(), LX, N6().routers[0], N6());
  }

  lemma Step7()
    requires Reached(N6())
    ensures Reached(N7())
  {
    assert Apply({}, SUB_A) == {A};
    assert UD.Peer() == DD && [] + [SUB_A] == [SUB_A];
    ClientSends(N6(), UD, SUB_A, N7());
  }

  lemma Chan8()
    ensures N8().chan == Queued(N7().chan[DD := N7().chan[DD][1..]], {DE, DX}, SUB_A)
  {
    assert N7().chan[DD][1..] == [];
    assert DE.Peer() == UE && DX.Peer() == UX;
    TwoQueued(N7().chan[DD := []], DE, DX, SUB_A);
    assert [] + [SUB_A] == [SUB_A];
    assert N7().chan[DD := []][UE := [SUB_A]][UX := [SUB_A]] == N8().chan;
  }

  lemma Told8()
    ensures N8().told == Noted(N7().told, {DE, DX}, SUB_A)
  {
    TwoNoted(N7().told, DE, DX, SUB_A);
    assert Apply({}, SUB_A) == {A};
    assert N7().told[DE := {A}][DX := {A}] == N8().told;
  }

  lemma Decided8()
    ensures N8().decided == Noted(N7().decided, {DE, DX}, SUB_A)
  {
    TwoNoted(N7().decided, DE, DX, SUB_A);
    assert Apply({}, SUB_A) == {A};
    assert N7().decided[DE := {A}][DX := {A}] == N8().decided;
  }

  lemma Handled8()
    ensures Response(N7(), DD, SUB_A) == (N8().routers[0], Send({DE, DX}, SUB_A))
  {
    assert N7().routers[0].Active() - {DD} == {DE, DX};
    assert N7().routers[0].tags + {Tag(DD, A)} == {Tag(DD, A)};
    assert Open(N7(), DE);
    assert Open(N7(), DX);
    assert OnOpen(N7(), Send({DE, DX}, SUB_A)) == Send({DE, DX}, SUB_A);
  }

  lemma Ready8()
    ensures Enabled(N7(), Receive(DD, None))
  {
    Handled8();
  }

  lemma Sends8()
    ensures Sends(N7(), N7().chan[DD := N7().chan[DD][1..]], DD, N8().routers[0], {DE, DX}, SUB_A, N8())
  {
    Told8();
    Chan8();
    Decided8();
  }

  lemma Step8()
    requires Reached(N7())
    ensures Reached(N8())
  {
    Handled8();
    Ready8();
    Sends8();
    Receives(N7(), DD, SUB_A, N8().routers[0], {DE, DX}, N8());
  }

  lemma Step9()
    requires Reached(N8())
    ensures Reached(N9())
  {
    assert Apply({A}, SUB_B) == {A, B};
    assert UD.Peer() == DD && [] + [SUB_B] == [SUB_B];
    ClientSends(N8(), UD, SUB_B, N9());
  }

  lemma Chan10()
    ensures N10().chan == Queued(N9().chan[DD := N9().chan[DD][1..]], {DE, DX}, SUB_B)
  {
    assert N9().chan[DD][1..] == [];
    assert DE.Peer() == UE && DX.Peer() == UX;
    TwoQueued(N9().chan[DD := []], DE, DX, SUB_B);
    assert [SUB_A] + [SUB_B] == [SUB_A, SUB_B];
    assert N9().chan[DD := []][UE := [SUB_A, SUB_B]][UX := [SUB_A, SUB_B]] == N10().chan;
  }

  lemma Told10()
    ensures N10().told == Noted(N9().told, {DE, DX}, SUB_B)
  {
    TwoNoted(N9().told, DE, DX, SUB_B);
    assert Apply({A}, SUB_B) == {A, B};
    assert N9().told[DE := {A, B}][DX := {A, B}] == N10().told;
  }

  lemma Decided10()
    ensures N10().decided == Noted(N9().decided, {DE, DX}, SUB_B)
  {
    TwoNoted(N9().decided, DE, DX, SUB_B);
    assert Apply({A}, SUB_B) == {A, B};
    assert N9().decided[DE := {A, B}][DX := {A, B}] == N10().decided;
  }

  lemma Handled10()
    ensures Response(N9(), DD, SUB_B) == (N10().routers[0], Send({DE, DX}, SUB_B))
  {
    assert N9().routers[0].Active() - {DD} == {DE, DX};
    assert N9().routers[0].tags + {Tag(DD, B)} == {Tag(DD, A), Tag(DD, B)};
    assert Open(N9(), DE);
    assert Open(N9(), DX);
    assert OnOpen(N9(), Send({DE, DX}, SUB_B)) == Send({DE, DX}, SUB_B);
  }

  lemma Ready10()
    ensures Enabled(N9(), Receive(DD, None))
  {
    Handled10();
  }

  lemma Sends10()
    ensures Sends(N9(), N9().chan[DD := N9().chan[DD][1..]], DD, N10().routers[0], {DE, DX}, SUB_B, N10())
  {
    Told10();
    Chan10();
    Decided10();
  }

  lemma Step10()
    requires Reached(N9())
    ensures Reached(N10())
  {
    Handled10();
    Ready10();
    Sends10();
    Receives(N9(), DD, SUB_B, N10().routers[0], {DE, DX}, N10());
  }

  lemma Step11()
    requires Reached(N10())
    ensures Reached(N11())
  {
    assert Apply({A, B}, SUB_C) == {A, B, C};
    assert UD.Peer() == DD && [] + [SUB_C] == [SUB_C];
    ClientSends(N10(), UD, SUB_C, N11());
  }

  lemma Step12()
    requires Reached(N11())
    ensures Reached(N12())
  {
    assert Apply({}, SUB_Z) == {Z};
    assert UX.Peer() == DX && [] + [SUB_Z] == [SUB_Z];
    ClientSends(N11(), UX, SUB_Z, N12());
  }

  lemma Chan13()
    ensures N13().chan == Queued(N12().chan[DX := N12().chan[DX][1..]], {DE}, SUB_Z)
  {
    assert N12().chan[DX][1..] == [];
    assert DE.Peer() == UE;
    OneQueued(N12().chan[DX := []], DE, SUB_Z);
    assert [SUB_A, SUB_B] + [SUB_Z] == [SUB_A, SUB_B, SUB_Z];
    assert N12().chan[DX := []][UE := [SUB_A, SUB_B, SUB_Z]] == N13().chan;
  }

  lemma Told13()
    ensures N13().told == Noted(N12().told, {DE}, SUB_Z)
  {
    OneNoted(N12().told, DE, SUB_Z);
    assert Apply({A, B}, SUB_Z) == {A, B, Z};
    assert N12().told[DE := {A, B, Z}] == N13().told;
  }

  lemma Decided13()
    ensures N13().decided == Noted(N12().decided, {DD, DE}, SUB_Z)
  {
    TwoNoted(N12().decided, DD, DE, SUB_Z);
    assert Apply({}, SUB_Z) == {Z};
    assert Apply({A, B}, SUB_Z) == {A, B, Z};
    assert N12().decided[DD := {Z}][DE := {A, B, Z}] == N13().decided;
  }

  lemma Handled13()
    ensures Response(N12(), DX, SUB_Z) == (Router({DD, DE, DX}, {}, map[], {Tag(DD, A), Tag(DD, B), Tag(DX, Z)}),
            Send({DD, DE}, SUB_Z))
  {
    assert N12().routers[0].Active() - {DX} == {DD, DE};
    assert N12().routers[0].tags + {Tag(DX, Z)} == {Tag(DD, A), Tag(DD, B), Tag(DX, Z)};
    assert Open(N12(), DD);
    assert Open(N12(), DE);
    assert OnOpen(N12(), Send({DD, DE}, SUB_Z)) == Send({DD, DE}, SUB_Z);
  }

  lemma Ready13()
    ensures Enabled(N12(), Receive(DX, Some(Stop(DD, {}))))
  {
    Handled13();
    assert DD in N12().routers[0].conns;
  }

  lemma Stops13()
    ensures Stops(N12(), N12().chan[DX := N12().chan[DX][1..]], N12().lost, Relay(DX), DX, Router({DD, DE, DX}, {},
            map[], {Tag(DD, A), Tag(DD, B), Tag(DX, Z)}), Send({DD, DE}, SUB_Z), Stop(DD, {}), {DE},
            N13().routers[0], N13())
  {
    Told13();
    Chan13();
    Decided13();
    assert TagsAt(Router({DD, DE, DX}, {}, map[], {Tag(DD, A), Tag(DD, B), Tag(DX, Z)}), DD) == {Tag(DD, A), Tag(DD,
      B)};
  }

  lemma Step13()
    requires Reached(N12())
    ensures Reached(N13())
  {
    Handled13();
    Ready13();
    Stops13();
    ReceiveStops(N12(), DX, Router({DD, DE, DX}, {}, map[], {Tag(DD, A), Tag(DD, B), Tag(DX, Z)}), Send({DD, DE},
      SUB_Z), Stop(DD, {}), {DE}, N13().routers[0], N13());
  }

  lemma Chan14()
    ensures N14().chan == Queued(N13().chan, {DX}, UNSUB_A)
  {
    assert DX.Peer() == UX;
    OneQueued(N13().chan, DX, UNSUB_A);
    assert [SUB_A, SUB_B] + [UNSUB_A] == [SUB_A, SUB_B, UNSUB_A];
    assert N13().chan[UX := [SUB_A, SUB_B, UNSUB_A]] == N14().chan;
  }

  lemma Told14()
    ensures N14().told == Noted(N13().told, {DX}, UNSUB_A)
  {
    OneNoted(N13().told, DX, UNSUB_A);
    assert Apply({A, B}, UNSUB_A) == {B};
    assert N13().told[DX := {B}] == N14().told;
  }

  lemma Decided14()
    ensures N14().decided == Noted(N13().decided, {DE, DX}, UNSUB_A)
  {
    TwoNoted(N13().decided, DE, DX, UNSUB_A);
    assert Apply({A, B, Z}, UNSUB_A) == {B, Z};
    assert Apply({A, B}, UNSUB_A) == {B};
    assert N13().decided[DE := {B, Z}][DX := {B}] == N14().decided;
  }

  lemma Handled14()
    ensures Removal(N13(), DD, A) == (Router({DE, DX}, {}, map[], {Tag(DD, B), Tag(DX, Z)}), Send({DE, DX}, UNSUB_A))
  {
    var r := N13().routers[0].(tags := {Tag(DD, B), Tag(DX, Z)});
    assert N13().routers[0].tags - {Tag(DD, A)} == r.tags && r == Router({DE, DX}, {}, map[], {Tag(DD, B), Tag(DX, Z)});
    assert r.Subscribers(A) == {} && r.Active() - {DD} == {DE, DX};
    assert Open(N13(), DE);
    assert Open(N13(), DX);
    assert OnOpen(N13(), Send({DE, DX}, UNSUB_A)) == Send({DE, DX}, UNSUB_A);
  }

  lemma Ready14()
    ensures Enabled(N13(), Forget(DD, A, Some(Stop(DE, {}))))
  {
    Handled14();
    assert DE in N13().routers[0].conns;
  }

  lemma Stops14()
    ensures Stops(N13(), N13().chan, Leftovers(N13().lost.leaving - {Tag(DD, A)}, N13().lost.loss),
            N13().lost.loss[DD].task, DD, Router({DE, DX}, {}, map[], {Tag(DD, B), Tag(DX, Z)}), Send({DE, DX},
            UNSUB_A), Stop(DE, {}), {DX}, N14().routers[0], N14())
  {
    Told14();
    Chan14();
    Decided14();
    assert TagsAt(Router({DE, DX}, {}, map[], {Tag(DD, B), Tag(DX, Z)}), DE) == {};
  }

  lemma Step14()
    requires Reached(N13())
    ensures Reached(N14())
  {
    Handled14();
    Ready14();
    Stops14();
    ForgetStops(N13(), DD, A, Router({DE, DX}, {}, map[], {Tag(DD, B), Tag(DX, Z)}), Send({DE, DX}, UNSUB_A),
      Stop(DE, {}), {DX}, N14().routers[0], N14());
  }

  lemma Chan15()
    ensures N15().chan == Queued(N14().chan[DD := N14().chan[DD][1..]], {DX}, SUB_C)
  {
    assert N14().chan[DD][1..] == [];
    assert DX.Peer() == UX;
    OneQueued(N14().chan[DD := []], DX, SUB_C);
    assert [SUB_A, SUB_B, UNSUB_A] + [SUB_C] == [SUB_A, SUB_B, UNSUB_A, SUB_C];
    assert N14().chan[DD := []][UX := [SUB_A, SUB_B, UNSUB_A, SUB_C]] == N15().chan;
  }

  lemma Told15()
    ensures N15().told == Noted(N14().told, {DX}, SUB_C)
  {
    OneNoted(N14().told, DX, SUB_C);
    assert Apply({B}, SUB_C) == {B, C};
    assert N14().told[DX := {B, C}] == N15().told;
  }

  lemma Decided15()
    ensures N15().decided == Noted(N14().decided, {DX}, SUB_C)
  {
    OneNoted(N14().decided, DX, SUB_C);
    assert Apply({B}, SUB_C) == {B, C};
    assert N14().decided[DX := {B, C}] == N15().decided;
  }

  lemma Handled15()
    ensures Response(N14(), DD, SUB_C) == (N15().routers[0], Send({DX}, SUB_C))
  {
    assert N14().routers[0].Active() - {DD} == {DX};
    assert N14().routers[0].tags + {Tag(DD, C)} == {Tag(DD, B), Tag(DX, Z), Tag(DD, C)};
    assert Open(N14(), DX);
    assert OnOpen(N14(), Send({DX}, SUB_C)) == Send({DX}, SUB_C);
  }

  lemma Ready15()
    ensures Enabled(N14(), ReadOn(DD, None))
  {
    Handled15();
    assert N14().lost.loss[DE].task == N14().lost.loss[DD].task && DropWaits(N14(), DD);
  }

  lemma Sends15()
    ensures Sends(N14(), Pop(N14(), DD).chan, DD, N15().routers[0], {DX}, SUB_C, N15())
  {
    Told15();
    Chan15();
    Decided15();
  }

  lemma Step15()
    requires Reached(N14())
    ensures Reached(N15())
  {
    Handled15();
    Ready15();
    Sends15();
    ReadsLate(N14(), DD, SUB_C, N15().routers[0], {DX}, Pop(N14(), DD), N15());
  }

  lemma Step16()
    requires Reached(N15())
    ensures Reached(N16())
  {
    assert TagsAt(N15().routers[0], DX) == {Tag(DX, Z)};
    Drops(N15(), Lose(DX), DX, N16().routers[0], N16());
  }

  lemma Step17()
    requires Reached(N16())
    ensures Reached(N17())
  {
    Shuts(N16(), DX, 0, N17().lost.loss[DX], N17());
  }

  lemma Chan18()
    ensures N18().chan == Queued(N17().chan, {}, UNSUB_Z)
  {
    NoneNoted(N17().chan, N17().told, UNSUB_Z);
  }

  lemma Handled18()
    ensures Removal(N17(), DX, Z) == (N18().routers[0], Send({}, UNSUB_Z))
  {
    var r := N17().routers[0].(tags := {Tag(DD, B), Tag(DD, C)});
    assert N17().routers[0].tags - {Tag(DX, Z)} == r.tags && r == N18().routers[0];
    assert r.Subscribers(Z) == {} && r.Active() - {DX} == {};
    assert OnOpen(N17(), Send({}, UNSUB_Z)) == Send({}, UNSUB_Z);
  }

  lemma Ready18()
    ensures Enabled(N17(), Forget(DX, Z, None))
  {
    Handled18();
  }

  lemma Step18()
    requires Reached(N17())
    ensures Reached(N18())
  {
    NoneNoted(N17().chan, N17().told, UNSUB_Z);
    Chan18();
    NoneNoted(N17().chan, N17().decided, UNSUB_Z);
    Handled18();
    Ready18();
    Forgets(N17(), DX, Z, N18().routers[0], {}, N18());
  }

  lemma Step19()
    requires Reached(N18())
    ensures Reached(N19())
  {
    GivesUp(N18(), DD, {Tag(DD, B)}, N19());
  }

  lemma Step20()
    requires Reached(N19())
    ensures Reached(N20())
  {
    Shuts(N19(), DE, 0, N20().lost.loss[DE], N20());
  }

  lemma Step21()
    requires Reached(N20())
    ensures Reached(N21())
  {
    Shuts(N20(), DD, 0, N21().lost.loss[DD], N21());
  }

  lemma Step22()
    requires Reached(N21())
    ensures Reached(N22())
  {
    ClientLeaves(N21(), UD, N22());
  }

  lemma Step23()
    requires Reached(N22())
    ensures Reached(N23())
  {
    ClientLeaves(N22(), UE, N23());
  }

  lemma Step24()
    requires Reached(N23())
    ensures Reached(N24())
  {
    ClientLeaves(N23(), UX, N24());
  }

  lemma LastIsReached()
    ensures Reached(N24())
  {
    Starts(N0());
    Step1();
    Step2();
    Step3();
    Step4();
    Step5();
    Step6();
    Step7();
    Step8();
    Step9();
    Step10();
    Step11();
    Step12();
    Step13();
    Step14();
    Step15();
    Step16();
    Step17();
    Step18();
    Step19();
    Step20();
    Step21();
    Step22();
    Step23();
    Step24();
  }

  function Last(): Net {
    N24()
  }

  lemma IdleAtLast()
    ensures Idle(Last()) && LiveLinks(Last()) == {}
  {
    assert forall c :: !Listed(Last(), c);
  }

  /** Nothing is in progress and no link is left, no relay loop dropped its own connection, yet node
      0 has two tags of a connection that it has lost. */
  ghost predicate LeftBehind(net: Net) {
    && Idle(net) && Forest(LiveLinks(net))
    && (forall c :: c in net.lost.loss ==> net.lost.loss[c].task != Relay(c))
    && Stale(net, 0, B) && Stale(net, 0, C)
  }

  lemma LateTagsStay()
    ensures exists trace, events :: Run(trace, events) && LeftBehind(trace[|events|])
  {
    LastIsReached();
    IdleAtLast();
    assert Tag(DD, B) in Last().routers[0].tags && Tag(DD, C) in Last().routers[0].tags;
    assert LeftBehind(Last());
    var trace, events :| Run(trace, events) && trace[|events|] == Last();
  }
}
