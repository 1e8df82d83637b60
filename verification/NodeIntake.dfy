/** The objects that keep a connection's messages until it is accepted: `_HeldMessages`, and where
    `PubSubNode` keeps them. Each method is the code between two awaits. */
module NodeIntake {
  import opened Links
  import opened Results
  import opened Utf8
  import HM = HeldMessages

  class Held {
    var messages: seq<Bytes>
    var size: int

    constructor ()
      ensures messages == [] && size == 0
    {
      messages, size := [], 0;
    }

    /** `h` keeps exactly this. */
    ghost predicate Keeps(h: HM.Intake)
      reads this
    {
      h.kept == messages && h.size == size
    }
  }

  /** What becomes of a message: handle it, keep it, or fail the connection. */
  datatype Outcome = Handle | Kept | OverLimit

  /** `intakes` is what `HeldMessages` knows about each connection. */
  class IntakeNode {
    var pending: map<Conn, Held>
    var draining: map<Conn, Held>
    ghost var intakes: map<Conn, HM.Intake>

    ghost predicate Valid()
      reads this, pending.Values, draining.Values
    {
      && (forall c :: c in pending ==> c in intakes && intakes[c].phase.Pending? && pending[c].Keeps(intakes[c]))
      && (forall c :: c in draining ==> c in intakes && intakes[c].phase.Draining? && draining[c].Keeps(intakes[c]))
      && (forall c :: c in intakes ==>
            (intakes[c].phase.Pending? <==> c in pending) && (intakes[c].phase.Draining? <==> c in draining))
      && (forall c, d :: c in pending && d in draining ==> pending[c] != draining[d])
      && (forall c, d :: c in pending && d in pending && c != d ==> pending[c] != pending[d])
      && (forall c, d :: c in draining && d in draining && c != d ==> draining[c] != draining[d])
    }

    constructor ()
      ensures Valid() && intakes == map[]
    {
      pending, draining, intakes := map[], map[], map[];
    }

    /** An upstream connection is new: nothing received on it is handled yet. */
    method OnNewConnection(c: Conn)
      requires Valid() && c !in intakes
      modifies this
      ensures Valid() && intakes == old(intakes)[c := HM.NEW_INTAKE]
      ensures pending.Keys == old(pending.Keys) + {c} && draining == old(draining)
    {
      var held := new Held();
      assert c !in pending && c !in draining;
      pending := pending[c := held];
      intakes := intakes[c := HM.NEW_INTAKE];
    }

    /** Where to keep the messages of `source`, if anywhere. */
    function HeldFor(source: Conn): Option<Held>
      reads this
    {
      if source in pending then Some(pending[source])
      else if source in draining then Some(draining[source])
      else None
    }

    /** `messages` has room for the next one, of `size` bytes. */
    method Keep(source: Conn, held: Held, data: Bytes)
      requires Valid() && source in intakes && HM.Enabled(intakes[source], HM.Read) && intakes[source].buffer[0] == data
      requires HeldFor(source) == Some(held) && held.size + |data| <= HM.HELD_MESSAGES_LIMIT
      modifies this`intakes, held
      ensures Valid() && intakes == old(intakes)[source := HM.Step(old(intakes[source]), HM.Read)]
    {
      intakes := intakes[source := HM.Step(intakes[source], HM.Read)];
      held.messages := held.messages + [data];
      held.size := held.size + |data|;
    }

    /** The relay loop has read a subscription or a publish. */
    method OnReceive(source: Conn, data: Bytes) returns (outcome: Outcome)
      requires Valid() && source in intakes && HM.Enabled(intakes[source], HM.Read) && intakes[source].buffer[0] == data
      modifies this, pending.Values, draining.Values
      ensures Valid() && intakes == old(intakes)[source := HM.Step(old(intakes[source]), HM.Read)]
      ensures outcome.Handle? <==> intakes[source].processed == old(intakes[source].processed) + [data]
      ensures outcome.OverLimit? <==> intakes[source].phase.Failed? && !old(intakes[source].phase).Failed?
      ensures outcome == if source !in old(pending) && source !in old(draining) then Handle
                         else if old(intakes[source].size) + |data| <= HM.HELD_MESSAGES_LIMIT then Kept
                         else OverLimit
    {
      var held := HeldFor(source);
      if held.Some? && held.value.size + |data| <= HM.HELD_MESSAGES_LIMIT {
        Keep(source, held.value, data);
        return Kept;
      }
      intakes := intakes[source := HM.Step(intakes[source], HM.Read)];
      if held.None? {
        return Handle;
      }
      Forget(source);
      outcome := OverLimit;
    }

    /** Drop what is kept for a connection that has failed. */
    method Forget(c: Conn)
      modifies this`pending, this`draining
      ensures pending == old(pending) - {c} && draining == old(draining) - {c}
    {
      pending := pending - {c};
      draining := draining - {c};
    }

    /** The connection has failed, or was refused: nothing kept from it will be handled. */
    method OnConnectionError(c: Conn, ghost byRelayLoop: bool)
      requires Valid() && c in intakes && HM.Enabled(intakes[c], HM.Fail(byRelayLoop))
      modifies this
      ensures Valid() && intakes == old(intakes)[c := HM.Step(old(intakes[c]), HM.Fail(byRelayLoop))]
    {
      Forget(c);
      intakes := intakes[c := HM.Step(intakes[c], HM.Fail(byRelayLoop))];
    }

    /** Data arrives on `c`, or it is closed: the base layer's doing. */
    ghost method OnSocket(c: Conn, e: HM.Event)
      requires Valid() && c in intakes && (e.Arrives? || e.Shut?) && HM.Enabled(intakes[c], e)
      modifies this`intakes
      ensures Valid() && intakes == old(intakes)[c := HM.Step(old(intakes[c]), e)]
    {
      intakes := intakes[c := HM.Step(intakes[c], e)];
    }

    /** The check has accepted `c`: from now on what was kept is handled first. */
    method Activate(c: Conn)
      requires Valid() && c in pending
      modifies this
      ensures Valid() && intakes == old(intakes)[c := HM.Step(old(intakes[c]), HM.Accept)]
      ensures pending == old(pending) - {c} && draining == old(draining)[c := old(pending[c])]
    {
      var held := pending[c];
      pending := pending - {c};
      draining := draining[c := held];
      intakes := intakes[c := HM.Step(intakes[c], HM.Accept)];
    }

    /** The next message to handle, or None when there is none left and `c` is active. */
    method DrainNext(c: Conn) returns (message: Option<Bytes>)
      requires Valid() && c in draining
      modifies this, draining[c]
      ensures Valid()
      ensures message.Some? <==> old(intakes[c].kept) != []
      ensures intakes == old(intakes)[c := HM.Step(old(intakes[c]), if message.Some? then HM.Drain else HM.Drained)]
      ensures message.Some? ==> intakes[c].processed == old(intakes[c].processed) + [message.value]
    {
      var held := draining[c];
      if held.messages == [] {
        intakes := intakes[c := HM.Step(intakes[c], HM.Drained)];
        draining := draining - {c};
        return None;
      }
      message := Some(held.messages[0]);
      intakes := intakes[c := HM.Step(intakes[c], HM.Drain)];
      held.size := held.size - |held.messages[0]|;
      held.messages := held.messages[1..];
    }
  }
}
