/** What a publish/subscribe client has registered, and what it has told the node it is connected
    to. Sends may take any time and fail, and connections come and go meanwhile. */
module ClientAgreement {
  import opened Results
  import opened Subjects

  type Callback = nat

  type ConnId = nat

  type SendId = nat

  datatype Told = Told(subject: Subject, subscribe: bool)

  /** On whose behalf something is sent. */
  datatype Sender = Subscriber(subject: Subject, callback: Callback) | Unsubscriber | Reconnecter(conn: ConnId)

  /** A send that has not returned, on the connection it began on. */
  datatype Send = Send(conn: ConnId, sender: Sender)

  type Registrations = map<Subject, seq<Callback>>

  /** `sent[k]` is what was sent on connection `k`, in order. `loops[k]` is what the `connect` that
      made connection `k` has still to send. */
  datatype Client = Client(regs: Registrations, current: Option<ConnId>, sent: seq<seq<Told>>,
                           loops: map<ConnId, seq<Subject>>, sends: map<SendId, Send>)

  const NEW_CLIENT := Client(map[], None, [], map[], map[])

  datatype Event =
    | Connect(order: seq<Subject>)
    | LoopNext(conn: ConnId, id: SendId)
    | LoopDone(conn: ConnId)
    | Subscribe(subject: Subject, callback: Callback, id: SendId)
    | Unsubscribe(subject: Subject, callback: Callback, id: SendId)
    | SendReturns(id: SendId)
    | SendFails(id: SendId)
    | Disconnect

  // --- registrations ----------------------------------------------------------------------------

  function Register(regs: Registrations, s: Subject, cb: Callback): Registrations {
    regs[s := (if s in regs then regs[s] else []) + [cb]]
  }

  function RemoveFirst(cbs: seq<Callback>, cb: Callback): seq<Callback> {
    if cbs == [] then [] else if cbs[0] == cb then cbs[1..] else [cbs[0]] + RemoveFirst(cbs[1..], cb)
  }

  function Remove(regs: Registrations, s: Subject, cb: Callback): Registrations {
    if s !in regs || cb !in regs[s] then regs
    else
      var left := RemoveFirst(regs[s], cb);
      if left == [] then regs - {s} else regs[s := left]
  }

  /** Removing this callback leaves the subject with none. */
  predicate DropsSubject(regs: Registrations, s: Subject, cb: Callback) {
    s in regs && s !in Remove(regs, s, cb)
  }

  // --- the client -------------------------------------------------------------------------------

  ghost predicate Enabled(c: Client, e: Event) {
    match e
    case Connect(order) => c.current.None? && forall s :: s in order <==> s in c.regs
    case LoopNext(k, id) => k in c.loops && c.loops[k] != [] && id !in c.sends && !Waiting(c, k)
    case LoopDone(k) => k in c.loops && c.loops[k] == [] && !Waiting(c, k)
    case Subscribe(_, _, id) => id !in c.sends
    case Unsubscribe(_, _, id) => id !in c.sends
    case SendReturns(id) => id in c.sends
    case SendFails(id) => id in c.sends
    case Disconnect => c.current.Some?
  }

  /** The loop of `k` waits for its own send. */
  ghost predicate Waiting(c: Client, k: ConnId) {
    exists id :: id in c.sends && c.sends[id].sender == Reconnecter(k)
  }

  /** Begin to send on the current connection. */
  function Begin(c: Client, id: SendId, sender: Sender, what: Told): Client
    requires c.current.Some? && c.current.value < |c.sent|
  {
    var k := c.current.value;
    c.(sent := c.sent[k := c.sent[k] + [what]], sends := c.sends[id := Send(k, sender)])
  }

  function Step(c: Client, e: Event): Client {
    match e
    case Connect(order) =>
      c.(current := Some(|c.sent|), sent := c.sent + [[]], loops := c.loops[|c.sent| := order])
    case LoopNext(k, id) =>
      if k !in c.loops || c.loops[k] == [] then c
      else
        var s, rest := c.loops[k][0], c.(loops := c.loops[k := c.loops[k][1..]]);
        if s !in c.regs then rest
        else if !Connected(c) then c.(loops := c.loops - {k})
        else Begin(rest, id, Reconnecter(k), Told(s, true))
    case LoopDone(k) => c.(loops := c.loops - {k})
    case Subscribe(s, cb, id) =>
      if s in c.regs then c.(regs := Register(c.regs, s, cb))
      else if !Connected(c) then c
      else Begin(c.(regs := Register(c.regs, s, cb)), id, Subscriber(s, cb), Told(s, true))
    case Unsubscribe(s, cb, id) =>
      var removed := c.(regs := Remove(c.regs, s, cb));
      if DropsSubject(c.regs, s, cb) && Connected(c) then Begin(removed, id, Unsubscriber, Told(s, false)) else removed
    case SendReturns(id) => c.(sends := c.sends - {id})
    case SendFails(id) =>
      if id !in c.sends then c
      else
        var send := c.sends[id];
        var lost := c.(sends := c.sends - {id}, current := if c.current == Some(send.conn) then None else c.current);
        (match send.sender
         case Subscriber(s, cb) => lost.(regs := Remove(c.regs, s, cb))
         case Unsubscriber => lost
         case Reconnecter(k) => lost.(loops := c.loops - {k}))
    case Disconnect => c.(current := None)
  }

  predicate Connected(c: Client) {
    c.current.Some? && c.current.value < |c.sent|
  }

  /** The subjects a node that was told all this is left with. */
  function Replay(told: seq<Told>): set<Subject> {
    if told == [] then {}
    else
      var before, last := Replay(told[..|told| - 1]), told[|told| - 1];
      if last.subscribe then before + {last.subject} else before - {last.subject}
  }

  lemma ReplayOneMore(told: seq<Told>, t: Told)
    ensures Replay(told + [t]) == if t.subscribe then Replay(told) + {t.subject} else Replay(told) - {t.subject}
  {
    assert (told + [t])[..|told|] == told;
  }

  ghost predicate Run(trace: seq<Client>, events: seq<Event>) {
    && |trace| == |events| + 1
    && trace[0] == NEW_CLIENT
    && forall i :: 0 <= i < |events| ==> Enabled(trace[i], events[i]) && trace[i + 1] == Step(trace[i], events[i])
  }

  // --- agreement --------------------------------------------------------------------------------

  /** What the `connect` of the current connection has still to send. */
  function Todo(c: Client, k: ConnId): seq<Subject> {
    if k in c.loops then c.loops[k] else []
  }

  /** The node the client is connected to believes that it subscribes to `s` exactly if it has a
      callback for it, or will believe so once `connect` has sent what it has to. */
  ghost predicate AgreeOn(c: Client, s: Subject) {
    Connected(c) ==>
      var k := c.current.value;
      && (s in Replay(c.sent[k]) ==> s in c.regs)
      && (s in c.regs ==> s in Replay(c.sent[k]) || s in Todo(c, k))
  }

  ghost predicate Agree(c: Client) {
    forall s :: AgreeOn(c, s)
  }

  ghost predicate Shape(c: Client) {
    && (forall s :: s in c.regs ==> c.regs[s] != [])
    && (c.current.Some? ==> c.current.value == |c.sent| - 1)
    && (forall k :: k in c.loops ==> k < |c.sent|)
    && (forall id :: id in c.sends ==> c.sends[id].conn < |c.sent|)
    && (forall id :: id in c.sends && c.sends[id].sender.Reconnecter? ==> c.sends[id].sender.conn <= c.sends[id].conn)
  }

  /** A subscribe that began on an earlier connection fails, and takes away the last callback of a
      subject the current connection has been told about. */
  ghost predicate StaleDropOf(c: Client, e: Event, s: Subject) {
    && e.SendFails? && e.id in c.sends && c.sends[e.id].sender.Subscriber?
    && Connected(c) && c.sends[e.id].conn != c.current.value
    && c.sends[e.id].sender.subject == s && DropsSubject(c.regs, s, c.sends[e.id].sender.callback)
    && s in Replay(c.sent[c.current.value])
  }

  ghost predicate StaleDrop(c: Client, e: Event) {
    exists s :: StaleDropOf(c, e, s)
  }

  lemma ShapeKept(c: Client, e: Event)
    requires Shape(c) && Enabled(c, e)
    ensures Shape(Step(c, e))
  {
  }

  lemma RemoveOthers(regs: Registrations, s: Subject, cb: Callback, t: Subject)
    ensures t in Remove(regs, s, cb) <==> t in regs && !(t == s && DropsSubject(regs, s, cb))
  {
  }

  lemma AgreeAfterLoop(c: Client, k: ConnId, id: SendId, t: Subject)
    requires Shape(c) && AgreeOn(c, t) && Enabled(c, LoopNext(k, id))
    ensures AgreeOn(Step(c, LoopNext(k, id)), t)
  {
    var s := c.loops[k][0];
    assert c.loops[k] == [s] + c.loops[k][1..];
    if Connected(c) {
      ReplayOneMore(c.sent[c.current.value], Told(s, true));
    }
  }

  lemma AgreeAfterSubscribe(c: Client, s: Subject, cb: Callback, id: SendId, t: Subject)
    requires Shape(c) && AgreeOn(c, t)
    ensures AgreeOn(Step(c, Subscribe(s, cb, id)), t)
  {
    if Connected(c) {
      var k := c.current.value;
      ReplayOneMore(c.sent[k], Told(s, true));
      if s !in c.regs {
        var c' := Step(c, Subscribe(s, cb, id));
        assert c'.sent[k] == c.sent[k] + [Told(s, true)] && c'.regs.Keys == c.regs.Keys + {s};
      }
    }
  }

  /** The callback is removed, and the node is told if it was the subject's last. */
  lemma UnsubscribeIs(c: Client, s: Subject, cb: Callback, id: SendId)
    requires Connected(c)
    ensures var k, c' := c.current.value, Step(c, Unsubscribe(s, cb, id));
            && c'.current == c.current && c'.loops == c.loops && c'.regs == Remove(c.regs, s, cb)
            && |c'.sent| == |c.sent|
            && c'.sent[k] == c.sent[k] + if DropsSubject(c.regs, s, cb) then [Told(s, false)] else []
  {
  }

  lemma AgreeAfterUnsubscribe(c: Client, s: Subject, cb: Callback, id: SendId, t: Subject)
    requires AgreeOn(c, t)
    ensures AgreeOn(Step(c, Unsubscribe(s, cb, id)), t)
  {
    RemoveOthers(c.regs, s, cb, t);
    if Connected(c) {
      UnsubscribeIs(c, s, cb, id);
      if DropsSubject(c.regs, s, cb) {
        ReplayOneMore(c.sent[c.current.value], Told(s, false));
      }
    }
  }

  lemma AgreeAfterFailure(c: Client, id: SendId, t: Subject)
    requires Shape(c) && AgreeOn(c, t) && Enabled(c, SendFails(id))
    ensures AgreeOn(Step(c, SendFails(id)), t) <==> !StaleDropOf(c, SendFails(id), t)
  {
    var send := c.sends[id];
    if send.sender.Subscriber? {
      RemoveOthers(c.regs, send.sender.subject, send.sender.callback, t);
    }
  }

  /** A failed send keeps the agreement unless it is a stale drop, and then it breaks it. */
  lemma FailureKeepsIff(c: Client, id: SendId)
    requires Shape(c) && Agree(c) && Enabled(c, SendFails(id))
    ensures Agree(Step(c, SendFails(id))) <==> !StaleDrop(c, SendFails(id))
  {
    forall t ensures AgreeOn(Step(c, SendFails(id)), t) <==> !StaleDropOf(c, SendFails(id), t) {
      AgreeAfterFailure(c, id, t);
    }
  }

  lemma AgreeKept(c: Client, e: Event, t: Subject)
    requires Shape(c) && AgreeOn(c, t) && Enabled(c, e) && !StaleDropOf(c, e, t)
    ensures AgreeOn(Step(c, e), t)
  {
    match e
    case LoopNext(k, id) => AgreeAfterLoop(c, k, id, t);
    case Subscribe(s, cb, id) => AgreeAfterSubscribe(c, s, cb, id, t);
    case Unsubscribe(s, cb, id) => AgreeAfterUnsubscribe(c, s, cb, id, t);
    case SendFails(id) => AgreeAfterFailure(c, id, t);
    case Connect(order) => ConnectAgrees(c, order);
    case LoopDone(k) =>
    case SendReturns(id) =>
    case Disconnect =>
  }

  /** Whatever happened before, a new connection starts in agreement. */
  lemma ConnectAgrees(c: Client, order: seq<Subject>)
    requires Shape(c) && Enabled(c, Connect(order))
    ensures Agree(Step(c, Connect(order)))
  {
    assert Replay([]) == {};
  }

  /** The node believes in a subscription that is no more. */
  ghost predicate Broken(c: Client, s: Subject) {
    Connected(c) && s in Replay(c.sent[c.current.value]) && s !in c.regs
  }

  /** Every stale drop breaks the agreement on its subject, whatever happened before. */
  lemma StaleDropBreaks(c: Client, e: Event, s: Subject)
    requires Shape(c) && StaleDropOf(c, e, s)
    ensures Broken(Step(c, e), s) && !Agree(Step(c, e))
    ensures Step(c, e).current == c.current && Step(c, e).sent == c.sent
  {
    assert !AgreeOn(Step(c, e), s);
  }

  // --- every run ----------------------------------------------------------------------------------

  lemma {:induction false} ShapeInvariant(trace: seq<Client>, events: seq<Event>, i: nat)
    requires Run(trace, events) && i < |trace|
    ensures Shape(trace[i])
  {
    if i > 0 {
      var j := i - 1;
      ShapeInvariant(trace, events, j);
      assert Enabled(trace[j], events[j]) && trace[j + 1] == Step(trace[j], events[j]);
      ShapeKept(trace[j], events[j]);
    }
  }

  /** Only `connect` makes a connection current. */
  lemma CurrentStays(c: Client, e: Event)
    requires Step(c, e).current.Some? && !e.Connect?
    ensures Step(c, e).current == c.current
  {
  }

  /** The last `n` messages say nothing of `s`. */
  predicate SilentFrom(told: seq<Told>, n: nat, s: Subject) {
    forall i :: n <= i < |told| ==> told[i].subject != s
  }

  /** A stale drop of `s` at step `j` on the connection that is current at `i`, and no message for
      `s` since on that connection. */
  ghost predicate Unrepaired(trace: seq<Client>, events: seq<Event>, j: nat, i: nat, s: Subject)
    requires Run(trace, events) && j < i < |trace|
  {
    && trace[j].current == trace[i].current && StaleDropOf(trace[j], events[j], s)
    && trace[i].current.value < |trace[i].sent|
    && SilentFrom(trace[i].sent[trace[i].current.value], |trace[j].sent[trace[i].current.value]|, s)
  }

  /** What is broken stays so until the subject is subscribed to again, which repairs it. */
  lemma BrokenStays(c: Client, e: Event, s: Subject)
    requires Shape(c) && Broken(c, s) && Enabled(c, e) && Step(c, e).current == c.current
    ensures var k := c.current.value;
            var sent, sent' := c.sent[k], Step(c, e).sent[k];
            if SilentFrom(sent', |sent|, s) then Broken(Step(c, e), s) else AgreeOn(Step(c, e), s)
  {
    var k := c.current.value;
    match e
    case Subscribe(t, cb, id) => ReplayOneMore(c.sent[k], Told(t, true));
    case Unsubscribe(t, cb, id) =>
      RemoveOthers(c.regs, t, cb, s);
      ReplayOneMore(c.sent[k], Told(t, false));
    case LoopNext(l, id) => ReplayOneMore(c.sent[k], Told(c.loops[l][0], true));
    case SendFails(id) =>
      if c.sends[id].sender.Subscriber? {
        RemoveOthers(c.regs, c.sends[id].sender.subject, c.sends[id].sender.callback, s);
      }
    case _ =>
  }

  lemma {:induction false} ConnectionsGrow(trace: seq<Client>, events: seq<Event>, j: nat, i: nat)
    requires Run(trace, events) && j <= i < |trace|
    ensures |trace[j].sent| <= |trace[i].sent|
    decreases i
  {
    if j < i {
      var h := i - 1;
      ConnectionsGrow(trace, events, j, h);
      assert Enabled(trace[h], events[h]) && trace[h + 1] == Step(trace[h], events[h]);
    }
  }

  /** No stale drop can have happened yet on a connection that has just been made. */
  lemma NewlyCurrent(trace: seq<Client>, events: seq<Event>, h: nat, j: nat, s: Subject)
    requires Run(trace, events) && j <= h < |events| && events[h].Connect?
    ensures !Unrepaired(trace, events, j, h + 1, s)
  {
    assert Enabled(trace[h], events[h]) && trace[h + 1] == Step(trace[h], events[h]);
    ConnectionsGrow(trace, events, j, h);
    ShapeInvariant(trace, events, j);
  }

  lemma SilentMore(told: seq<Told>, told': seq<Told>, n: nat, s: Subject)
    requires told <= told' && n <= |told|
    ensures SilentFrom(told', n, s) <==> SilentFrom(told, n, s) && SilentFrom(told', |told|, s)
  {
    assert forall i :: 0 <= i < |told| ==> told'[i] == told[i];
  }

  /** How many messages have been sent on a connection only grows. */
  lemma {:induction false} SentStays(trace: seq<Client>, events: seq<Event>, j: nat, i: nat, k: ConnId)
    requires Run(trace, events) && j <= i < |trace| && k < |trace[j].sent|
    ensures k < |trace[i].sent| && trace[j].sent[k] <= trace[i].sent[k]
    decreases i
  {
    if j < i {
      var h := i - 1;
      SentStays(trace, events, j, h, k);
      assert Enabled(trace[h], events[h]) && trace[h + 1] == Step(trace[h], events[h]);
    }
  }

  /** A drop stays unrepaired exactly as long as nothing is sent for its subject. */
  lemma NextUnrepaired(trace: seq<Client>, events: seq<Event>, j: nat, h: nat, s: Subject)
    requires Run(trace, events) && j < h < |events| && trace[h + 1].current == trace[h].current
    requires Connected(trace[h]) && Connected(trace[h + 1])
    ensures var k := trace[h].current.value;
            Unrepaired(trace, events, j, h + 1, s) <==>
            Unrepaired(trace, events, j, h, s) && SilentFrom(trace[h + 1].sent[k], |trace[h].sent[k]|, s)
  {
    var k := trace[h].current.value;
    SentStays(trace, events, h, h + 1, k);
    if trace[j].current == trace[h].current && StaleDropOf(trace[j], events[j], s) {
      SentStays(trace, events, j, h, k);
      SilentMore(trace[h].sent[k], trace[h + 1].sent[k], |trace[j].sent[k]|, s);
    }
  }

  ghost predicate BrokenBy(trace: seq<Client>, events: seq<Event>, i: nat, s: Subject)
    requires Run(trace, events) && i < |trace|
  {
    exists j :: 0 <= j < i && Unrepaired(trace, events, j, i, s)
  }

  /** In every state: the agreement on a subject is broken by an unrepaired stale drop, and by
      nothing else. */
  lemma {:induction false} BrokenOrAgreed(trace: seq<Client>, events: seq<Event>, i: nat, s: Subject)
    requires Run(trace, events) && i < |trace|
    ensures if BrokenBy(trace, events, i, s) then Broken(trace[i], s) else AgreeOn(trace[i], s)
  {
    if i > 0 && trace[i].current.Some? {
      var h := i - 1;
      assert Enabled(trace[h], events[h]) && trace[h + 1] == Step(trace[h], events[h]);
      ShapeInvariant(trace, events, h);
      if events[h].Connect? {
        ConnectAgrees(trace[h], events[h].order);
        forall j | 0 <= j < i ensures !Unrepaired(trace, events, j, i, s) {
          NewlyCurrent(trace, events, h, j, s);
        }
      } else {
        BrokenOrAgreed(trace, events, h, s);
        NextState(trace, events, h, s);
      }
    }
  }

  lemma NextBrokenBy(trace: seq<Client>, events: seq<Event>, h: nat, i: nat, s: Subject)
    requires Run(trace, events) && h < |events| && i == h + 1 && trace[i].current == trace[h].current
    requires Connected(trace[h]) && Connected(trace[i]) && StaleDropOf(trace[h], events[h], s) ==>
               trace[i].sent == trace[h].sent
    ensures Connected(trace[h]) && Connected(trace[i]) ==>
            var k := trace[h].current.value;
            BrokenBy(trace, events, i, s) <==>
              StaleDropOf(trace[h], events[h], s)
              || (BrokenBy(trace, events, h, s) && SilentFrom(trace[i].sent[k], |trace[h].sent[k]|, s))
  {
    if Connected(trace[h]) && Connected(trace[i]) {
      var k := trace[h].current.value;
      forall j: nat | j < h
        ensures Unrepaired(trace, events, j, i, s) <==>
                Unrepaired(trace, events, j, h, s) && SilentFrom(trace[i].sent[k], |trace[h].sent[k]|, s)
      {
        NextUnrepaired(trace, events, j, h, s);
      }
      assert StaleDropOf(trace[h], events[h], s) ==> Unrepaired(trace, events, h, i, s);
    }
  }

  lemma NextState(trace: seq<Client>, events: seq<Event>, h: nat, s: Subject)
    requires Run(trace, events) && h < |events| && !events[h].Connect? && trace[h + 1].current.Some?
    requires if BrokenBy(trace, events, h, s) then Broken(trace[h], s) else AgreeOn(trace[h], s)
    ensures if BrokenBy(trace, events, h + 1, s) then Broken(trace[h + 1], s) else AgreeOn(trace[h + 1], s)
  {
    var c, e := trace[h], events[h];
    assert Enabled(c, e) && trace[h + 1] == Step(c, e);
    ShapeInvariant(trace, events, h);
    ShapeInvariant(trace, events, h + 1);
    CurrentStays(c, e);
    if StaleDropOf(c, e, s) {
      StaleDropBreaks(c, e, s);
    } else if BrokenBy(trace, events, h, s) {
      BrokenStays(c, e, s);
    } else {
      AgreeKept(c, e, s);
    }
    NextBrokenBy(trace, events, h, h + 1, s);
  }

  /** While the client is connected and `connect` has finished, the node is left with exactly the
      subjects that have a callback if and only if every stale drop on this connection has been
      followed by another message for its subject. */
  lemma ToldIsRegistered(trace: seq<Client>, events: seq<Event>, i: nat)
    requires Run(trace, events) && i < |trace|
    requires trace[i].current.Some? && trace[i].current.value !in trace[i].loops
    ensures trace[i].current.value < |trace[i].sent|
    ensures Replay(trace[i].sent[trace[i].current.value]) == trace[i].regs.Keys <==>
            forall j, s :: 0 <= j < i ==> !Unrepaired(trace, events, j, i, s)
  {
    ShapeInvariant(trace, events, i);
    forall s ensures if BrokenBy(trace, events, i, s) then Broken(trace[i], s) else AgreeOn(trace[i], s) {
      BrokenOrAgreed(trace, events, i, s);
    }
    if forall j, s :: 0 <= j < i ==> !Unrepaired(trace, events, j, i, s) {
      forall s ensures s in Replay(trace[i].sent[trace[i].current.value]) <==> s in trace[i].regs {
        assert !BrokenBy(trace, events, i, s);
      }
    } else {
      var j, s :| 0 <= j < i && Unrepaired(trace, events, j, i, s);
      assert BrokenBy(trace, events, i, s);
    }
  }

  const FIRST_SEND := Send(0, Subscriber("a", 7))

  /** A client subscribes, loses the connection with the send still going on, and connects again,
      which sends the subscription anew. Then the first send fails. */
  const STALE_TRACE := [
    NEW_CLIENT,
    Client(map[], Some(0), [[]], map[0 := []], map[]),
    Client(map[], Some(0), [[]], map[], map[]),
    Client(map["a" := [7]], Some(0), [[Told("a", true)]], map[], map[0 := FIRST_SEND]),
    Client(map["a" := [7]], None, [[Told("a", true)]], map[], map[0 := FIRST_SEND]),
    Client(map["a" := [7]], Some(1), [[Told("a", true)], []], map[1 := ["a"]], map[0 := FIRST_SEND]),
    Client(map["a" := [7]], Some(1), [[Told("a", true)], [Told("a", true)]], map[1 := []],
           map[0 := FIRST_SEND, 1 := Send(1, Reconnecter(1))]),
    Client(map["a" := [7]], Some(1), [[Told("a", true)], [Told("a", true)]], map[1 := []], map[0 := FIRST_SEND]),
    Client(map["a" := [7]], Some(1), [[Told("a", true)], [Told("a", true)]], map[], map[0 := FIRST_SEND]),
    Client(map[], Some(1), [[Told("a", true)], [Told("a", true)]], map[], map[])]

  const STALE_EVENTS := [
    Connect([]), LoopDone(0), Subscribe("a", 7, 0), Disconnect, Connect(["a"]), LoopNext(1, 1),
    SendReturns(1), LoopDone(1), SendFails(0)]

  ghost predicate Happens(c: Client, e: Event, c': Client) {
    Enabled(c, e) && Step(c, e) == c'
  }

  lemma FirstSteps()
    ensures Happens(STALE_TRACE[0], STALE_EVENTS[0], STALE_TRACE[1])
    ensures Happens(STALE_TRACE[1], STALE_EVENTS[1], STALE_TRACE[2])
    ensures Happens(STALE_TRACE[3], STALE_EVENTS[3], STALE_TRACE[4])
  {
  }

  lemma SubscribeStep()
    ensures Happens(STALE_TRACE[2], STALE_EVENTS[2], STALE_TRACE[3])
  {
    var none: seq<Callback> := [];
    assert none + [7] == [7];
    assert STALE_TRACE[2].sent[0] + [Told("a", true)] == [Told("a", true)];
  }

  lemma ReconnectSteps()
    ensures Happens(STALE_TRACE[4], STALE_EVENTS[4], STALE_TRACE[5])
    ensures Happens(STALE_TRACE[5], STALE_EVENTS[5], STALE_TRACE[6])
  {
    assert STALE_TRACE[5].sent[1] + [Told("a", true)] == [Told("a", true)];
  }

  lemma LastSteps()
    ensures Happens(STALE_TRACE[6], STALE_EVENTS[6], STALE_TRACE[7])
    ensures Happens(STALE_TRACE[7], STALE_EVENTS[7], STALE_TRACE[8])
    ensures Happens(STALE_TRACE[8], STALE_EVENTS[8], STALE_TRACE[9])
  {
  }

  /** It does happen: the callback is gone, and the node goes on believing that the client is
      subscribed. */
  lemma StaleDropHappens()
    ensures Run(STALE_TRACE, STALE_EVENTS)
    ensures var c := STALE_TRACE[9];
            c.current == Some(1) && c.loops == map[] && c.regs == map[] && |c.sent| == 2 && "a" in Replay(c.sent[1])
  {
    FirstSteps();
    SubscribeStep();
    ReconnectSteps();
    LastSteps();
    forall i | 0 <= i < |STALE_EVENTS| ensures Happens(STALE_TRACE[i], STALE_EVENTS[i], STALE_TRACE[i + 1]) {
    }
    ReplayOneMore([], Told("a", true));
    assert [] + [Told("a", true)] == [Told("a", true)];
  }

  // --- the registrations themselves ----------------------------------------------------------------

  function CallbacksOf(regs: Registrations, s: Subject): seq<Callback> {
    if s in regs then regs[s] else []
  }

  /** The registrations of all other subjects are as they were. */
  ghost predicate OthersSame(regs: Registrations, regs': Registrations, s: Subject) {
    forall t :: t != s ==> (t in regs' <==> t in regs) && (t in regs ==> regs'[t] == regs[t])
  }

  /** `cbs'` is `cbs` with one more at its end. */
  predicate AddsLast(cbs: seq<Callback>, cbs': seq<Callback>, cb: Callback) {
    |cbs'| == |cbs| + 1 && cbs <= cbs' && cbs'[|cbs|] == cb
  }

  /** `cbs'` is `cbs` without its first `cb`, if it has one. */
  ghost predicate LosesFirst(cbs: seq<Callback>, cbs': seq<Callback>, cb: Callback) {
    if cb !in cbs then cbs' == cbs
    else exists i :: 0 <= i < |cbs| && cbs[i] == cb && cb !in cbs[..i] && cbs' == cbs[..i] + cbs[i + 1..]
  }

  /** Earlier callbacks stay, and the new one comes last. */
  lemma RegisterIs(regs: Registrations, s: Subject, cb: Callback)
    ensures OthersSame(regs, Register(regs, s, cb), s)
    ensures AddsLast(CallbacksOf(regs, s), CallbacksOf(Register(regs, s, cb), s), cb)
  {
  }

  /** One registration goes, the first; the others stay in order, and a subject without any is
      dropped. */
  lemma RemoveIs(regs: Registrations, s: Subject, cb: Callback)
    requires forall t :: t in regs ==> regs[t] != []
    ensures OthersSame(regs, Remove(regs, s, cb), s)
    ensures LosesFirst(CallbacksOf(regs, s), CallbacksOf(Remove(regs, s, cb), s), cb)
    ensures s in Remove(regs, s, cb) <==> CallbacksOf(Remove(regs, s, cb), s) != []
  {
    RemoveFirstIs(CallbacksOf(regs, s), cb);
  }

  /** Deleting at the first index is removing the first. */
  lemma {:induction false} RemovedAt(cbs: seq<Callback>, cb: Callback, index: nat)
    requires index < |cbs| && cbs[index] == cb && cb !in cbs[..index]
    ensures RemoveFirst(cbs, cb) == cbs[..index] + cbs[index + 1..]
  {
    if index > 0 {
      assert cbs[..index][0] == cbs[0];
      assert cbs[1..][..index - 1] == cbs[..index][1..];
      RemovedAt(cbs[1..], cb, index - 1);
    }
  }

  lemma {:induction false} NothingToRemove(cbs: seq<Callback>, cb: Callback)
    requires cb !in cbs
    ensures RemoveFirst(cbs, cb) == cbs
  {
    if cbs != [] {
      NothingToRemove(cbs[1..], cb);
    }
  }

  lemma {:induction false} FirstIndex(cbs: seq<Callback>, cb: Callback, n: nat) returns (i: nat)
    requires n <= |cbs| && cb in cbs[..n]
    ensures i < n && cbs[i] == cb && cb !in cbs[..i]
  {
    if cb in cbs[..n - 1] {
      i := FirstIndex(cbs, cb, n - 1);
    } else {
      i := n - 1;
    }
  }

  lemma RemoveFirstIs(cbs: seq<Callback>, cb: Callback)
    ensures LosesFirst(cbs, RemoveFirst(cbs, cb), cb)
  {
    if cb in cbs {
      assert cbs[..|cbs|] == cbs;
      var i := FirstIndex(cbs, cb, |cbs|);
      RemovedAt(cbs, cb, i);
    } else {
      NothingToRemove(cbs, cb);
    }
  }

  /** The event is a subscribe of `cb` to `s` that is registered: it raises if it is the first of its
      subject and the client is not connected. */
  predicate Registers(c: Client, e: Event, s: Subject, cb: Callback) {
    e.Subscribe? && e.subject == s && e.callback == cb && (s in c.regs || Connected(c))
  }

  /** The event takes a registered `cb` from `s`: an unsubscribe, or the failure of a subscribe. */
  predicate Unregisters(c: Client, e: Event, s: Subject, cb: Callback) {
    && cb in CallbacksOf(c.regs, s)
    && if e.Unsubscribe? then e.subject == s && e.callback == cb
       else e.SendFails? && e.id in c.sends && c.sends[e.id].sender == Subscriber(s, cb)
  }

  /** In one step, callbacks of `s` come and go by those events alone. */
  lemma CallbacksNext(c: Client, e: Event, s: Subject)
    requires Shape(c) && Enabled(c, e)
    ensures var cbs, cbs' := CallbacksOf(c.regs, s), CallbacksOf(Step(c, e).regs, s);
            && (forall cb :: Registers(c, e, s, cb) ==> AddsLast(cbs, cbs', cb))
            && (forall cb :: Unregisters(c, e, s, cb) ==> LosesFirst(cbs, cbs', cb))
            && ((forall cb :: !Registers(c, e, s, cb) && !Unregisters(c, e, s, cb)) ==> cbs' == cbs)
  {
    if e.Subscribe? {
      SubscribeNext(c, e, s);
    } else if e.Unsubscribe? {
      RemovedNext(c, e, s, e.subject, e.callback);
    } else if e.SendFails? && c.sends[e.id].sender.Subscriber? {
      RemovedNext(c, e, s, c.sends[e.id].sender.subject, c.sends[e.id].sender.callback);
    }
  }

  lemma SubscribeNext(c: Client, e: Event, s: Subject)
    requires e.Subscribe?
    ensures var cbs, cbs' := CallbacksOf(c.regs, s), CallbacksOf(Step(c, e).regs, s);
            && (forall cb :: Registers(c, e, s, cb) ==> AddsLast(cbs, cbs', cb))
            && ((forall cb :: !Registers(c, e, s, cb)) ==> cbs' == cbs)
  {
    RegisterIs(c.regs, e.subject, e.callback);
    if s == e.subject && (s in c.regs || Connected(c)) {
      assert Registers(c, e, s, e.callback);
    }
  }

  lemma RemovedNext(c: Client, e: Event, s: Subject, t: Subject, cb: Callback)
    requires Shape(c) && Step(c, e).regs == Remove(c.regs, t, cb)
    requires forall d :: Unregisters(c, e, s, d) <==> s == t && d == cb && cb in CallbacksOf(c.regs, s)
    requires e.Unsubscribe? || e.SendFails?
    ensures var cbs, cbs' := CallbacksOf(c.regs, s), CallbacksOf(Step(c, e).regs, s);
            && (forall d :: Unregisters(c, e, s, d) ==> LosesFirst(cbs, cbs', d))
            && ((forall d :: !Unregisters(c, e, s, d)) ==> cbs' == cbs)
  {
    RemoveIs(c.regs, t, cb);
    assert s == t && cb in CallbacksOf(c.regs, s) ==> Unregisters(c, e, s, cb);
  }

  function CountOf(c: Client, s: Subject, cb: Callback): nat {
    multiset(CallbacksOf(c.regs, s))[cb]
  }

  lemma AddsOne(cbs: seq<Callback>, cbs': seq<Callback>, cb: Callback, d: Callback)
    requires AddsLast(cbs, cbs', cb)
    ensures multiset(cbs')[d] == multiset(cbs)[d] + if d == cb then 1 else 0
  {
    assert cbs' == cbs + [cb];
  }

  lemma LosesOne(cbs: seq<Callback>, cbs': seq<Callback>, cb: Callback, d: Callback)
    requires LosesFirst(cbs, cbs', cb) && cb in cbs
    ensures multiset(cbs')[d] + (if d == cb then 1 else 0) == multiset(cbs)[d]
  {
    var i :| 0 <= i < |cbs| && cbs[i] == cb && cb !in cbs[..i] && cbs' == cbs[..i] + cbs[i + 1..];
    assert cbs == cbs[..i] + [cbs[i]] + cbs[i + 1..];
  }

  /** How often `cb` has been registered for `s` in the first `i` steps. */
  ghost function TimesRegistered(trace: seq<Client>, events: seq<Event>, i: nat, s: Subject, cb: Callback): nat
    requires i <= |events| < |trace|
  {
    if i == 0 then 0
    else TimesRegistered(trace, events, i - 1, s, cb) + if Registers(trace[i - 1], events[i - 1], s, cb) then 1 else 0
  }

  /** How often a registration of it has been removed. */
  ghost function TimesRemoved(trace: seq<Client>, events: seq<Event>, i: nat, s: Subject, cb: Callback): nat
    requires i <= |events| < |trace|
  {
    if i == 0 then 0
    else TimesRemoved(trace, events, i - 1, s, cb) + if Unregisters(trace[i - 1], events[i - 1], s, cb) then 1 else 0
  }

  lemma CountNext(c: Client, e: Event, s: Subject, cb: Callback)
    requires Shape(c) && Enabled(c, e)
    ensures CountOf(Step(c, e), s, cb) + (if Unregisters(c, e, s, cb) then 1 else 0)
            == CountOf(c, s, cb) + if Registers(c, e, s, cb) then 1 else 0
  {
    CallbacksNext(c, e, s);
    var cbs, cbs' := CallbacksOf(c.regs, s), CallbacksOf(Step(c, e).regs, s);
    if d :| Registers(c, e, s, d) {
      AddsOne(cbs, cbs', d, cb);
    } else if d :| Unregisters(c, e, s, d) {
      LosesOne(cbs, cbs', d, cb);
    }
  }

  /** In every run, a callback is registered for a subject as often as it has been subscribed less as
      often as one of its registrations has been removed. */
  lemma {:induction false} RegisteredAsOften(trace: seq<Client>, events: seq<Event>, i: nat, s: Subject, cb: Callback)
    requires Run(trace, events) && i < |trace|
    ensures multiset(CallbacksOf(trace[i].regs, s))[cb] + TimesRemoved(trace, events, i, s, cb)
            == TimesRegistered(trace, events, i, s, cb)
  {
    if i > 0 {
      var j := i - 1;
      RegisteredAsOften(trace, events, j, s, cb);
      ShapeInvariant(trace, events, j);
      assert Enabled(trace[j], events[j]) && trace[j + 1] == Step(trace[j], events[j]);
      CountNext(trace[j], events[j], s, cb);
    }
  }

  // --- connections -----------------------------------------------------------------------------------

  /** Nothing is sent but on the current connection, and there one message at a time. */
  lemma OnlyCurrentSends(c: Client, e: Event, k: ConnId)
    requires Shape(c) && Enabled(c, e) && k < |c.sent|
    ensures k < |Step(c, e).sent|
    ensures Step(c, e).sent[k] == c.sent[k]
            || (c.current == Some(k) && |Step(c, e).sent[k]| == |c.sent[k]| + 1 && c.sent[k] <= Step(c, e).sent[k])
  {
  }

  lemma {:induction false} NotCurrentAgain(trace: seq<Client>, events: seq<Event>, i: nat, j: nat, k: ConnId)
    requires Run(trace, events) && i <= j < |trace|
    requires k < |trace[i].sent| && trace[i].current != Some(k)
    ensures k < |trace[j].sent| && trace[j].current != Some(k) && trace[j].sent[k] == trace[i].sent[k]
    decreases j
  {
    if i < j {
      var h := j - 1;
      NotCurrentAgain(trace, events, i, h, k);
      ShapeInvariant(trace, events, h);
      assert Enabled(trace[h], events[h]) && trace[h + 1] == Step(trace[h], events[h]);
      OnlyCurrentSends(trace[h], events[h], k);
    }
  }

  /** In every run, a connection on which a send has failed is not used again. */
  lemma FailedIsNotUsed(trace: seq<Client>, events: seq<Event>, i: nat, j: nat, id: SendId)
    requires Run(trace, events) && i < j < |trace| && events[i] == SendFails(id) && id in trace[i].sends
    ensures var k := trace[i].sends[id].conn;
            && k < |trace[i].sent| && k < |trace[j].sent|
            && trace[j].current != Some(k) && trace[j].sent[k] == trace[i].sent[k]
  {
    ShapeInvariant(trace, events, i);
    assert Enabled(trace[i], events[i]) && trace[i + 1] == Step(trace[i], events[i]);
    NotCurrentAgain(trace, events, i + 1, j, trace[i].sends[id].conn);
  }

  /** What `connect` has still to send is given up at its first failed send. */
  predicate LoopFails(c: Client, e: Event, k: ConnId) {
    || (e.LoopNext? && e.conn == k && k in c.loops && c.loops[k] != [] && c.loops[k][0] in c.regs && !Connected(c))
    || (e.SendFails? && e.id in c.sends && c.sends[e.id].sender == Reconnecter(k))
  }

  lemma {:induction false} LoopsOnce(trace: seq<Client>, events: seq<Event>, i: nat, j: nat, k: ConnId)
    requires Run(trace, events) && i <= j < |trace| && k < |trace[i].sent| && k !in trace[i].loops
    ensures k < |trace[j].sent| && k !in trace[j].loops
    decreases j
  {
    if i < j {
      LoopsOnce(trace, events, i, j - 1, k);
      assert Enabled(trace[j - 1], events[j - 1]) && trace[j] == Step(trace[j - 1], events[j - 1]);
    }
  }

  /** In every run, a `connect` that has failed to send one of its subjects sends none of the others. */
  lemma FailedConnectStops(trace: seq<Client>, events: seq<Event>, i: nat, j: nat, k: ConnId)
    requires Run(trace, events) && i < j < |trace| && LoopFails(trace[i], events[i], k)
    ensures k !in trace[j].loops
  {
    ShapeInvariant(trace, events, i);
    assert Enabled(trace[i], events[i]) && trace[i + 1] == Step(trace[i], events[i]);
    LoopsOnce(trace, events, i + 1, j, k);
  }
}
