/** What a node keeps of the subscriptions and publishes of a connection it has not accepted. */
module HeldMessages {
  import opened Sequences
  import opened Utf8
  import opened SendQueue
  import opened MessageCodec

  /** The same as the send queue's. */
  const HELD_MESSAGES_LIMIT: nat := SEND_QUEUE_LIMIT

  datatype Phase = Pending | Draining | Active | Failed

  /** `open`: the connection has not been closed. `own`: its relay loop itself has failed it.
      `buffer`: the whole messages that have arrived and the relay loop has not read. `received` is
      every subscription and publish read so far, and `processed` those that were handled, both
      history. */
  datatype Intake = Intake(phase: Phase, open: bool, own: bool, buffer: seq<Bytes>, kept: seq<Bytes>, size: int,
                           received: seq<Bytes>, processed: seq<Bytes>)

  const NEW_INTAKE := Intake(Pending, true, false, [], [], 0, [], [])

  datatype Event =
    | Arrives(data: Bytes)
    | Read
    | Accept
    | Drain
    | Drained
    | Fail(byRelayLoop: bool)
    | Shut

  /** Closing a connection cancels its relay loop, which reads until then. A relay loop that itself
      fails its connection and closes it is not cancelled: it reads again afterwards. */
  predicate Reading(h: Intake) {
    h.open != h.own
  }

  /** Nothing arrives any more once the connection has been closed. */
  predicate Enabled(h: Intake, e: Event) {
    match e
    case Arrives(_) => h.open
    case Read => Reading(h) && h.buffer != []
    case Accept => h.phase.Pending?
    case Drain => h.phase.Draining? && h.kept != []
    case Drained => h.phase.Draining? && h.kept == []
    case Fail(byRelayLoop) => !h.phase.Failed? && (byRelayLoop ==> h.open)
    case Shut => h.open
  }

  predicate IsHeld(h: Intake) {
    h.phase.Pending? || h.phase.Draining?
  }

  /** The next message does not fit. */
  predicate OverLimit(h: Intake)
    requires h.buffer != []
  {
    IsHeld(h) && h.size + |h.buffer[0]| > HELD_MESSAGES_LIMIT
  }

  function Step(h: Intake, e: Event): Intake
    requires Enabled(h, e)
  {
    match e
    case Arrives(data) => h.(buffer := h.buffer + [data])
    case Read =>
      var data := h.buffer[0];
      var h' := h.(buffer := h.buffer[1..], received := h.received + [data]);
      if OverLimit(h) then h'.(phase := Failed, own := true)
      else if IsHeld(h) then h'.(kept := h.kept + [data], size := h.size + |data|)
      else h'.(processed := h.processed + [data])
    case Accept => h.(phase := Draining)
    case Drain => h.(kept := h.kept[1..], size := h.size - |h.kept[0]|, processed := h.processed + [h.kept[0]])
    case Drained => h.(phase := Active)
    case Fail(byRelayLoop) => h.(phase := Failed, own := byRelayLoop)
    case Shut => h.(open := false)
  }

  ghost predicate Run(trace: seq<Intake>, events: seq<Event>) {
    && |trace| == |events| + 1
    && trace[0] == NEW_INTAKE
    && forall i :: 0 <= i < |events| ==> Enabled(trace[i], events[i]) && trace[i + 1] == Step(trace[i], events[i])
  }

  ghost predicate Inv(h: Intake) {
    && h.size == Total(h.kept) <= HELD_MESSAGES_LIMIT
    && (h.phase.Pending? ==> h.processed == [])
    && (!h.phase.Failed? ==> h.processed + h.kept == h.received && !h.own)
    && (h.phase.Active? ==> h.kept == [])
  }

  lemma ReadKeeps(h: Intake)
    requires Inv(h) && Enabled(h, Read)
    ensures Inv(Step(h, Read))
  {
    TotalAppend(h.kept, h.buffer[0]);
    Regroup(h.processed, h.kept, [h.buffer[0]]);
  }

  lemma DrainKeeps(h: Intake)
    requires Inv(h) && Enabled(h, Drain)
    ensures Inv(Step(h, Drain))
  {
    TotalPop(h.kept);
    Regroup(h.processed, [h.kept[0]], h.kept[1..]);
    assert [h.kept[0]] + h.kept[1..] == h.kept;
  }

  lemma StepKeeps(h: Intake, e: Event)
    requires Inv(h) && Enabled(h, e)
    ensures Inv(Step(h, e))
  {
    match e
    case Read => ReadKeeps(h);
    case Drain => DrainKeeps(h);
    case Arrives(_) =>
    case Accept =>
    case Drained =>
    case Fail(_) =>
    case Shut =>
  }

  lemma {:induction false} Invariant(trace: seq<Intake>, events: seq<Event>, i: nat)
    requires Run(trace, events) && i < |trace|
    ensures Inv(trace[i])
  {
    if i > 0 {
      var j := i - 1;
      Invariant(trace, events, j);
      assert Enabled(trace[j], events[j]) && trace[j + 1] == Step(trace[j], events[j]);
      StepKeeps(trace[j], events[j]);
    }
  }

  /** Until the connection fails, what was processed and what is kept is what was received, in
      order; before it is accepted nothing is processed; and the size is exact and limited. */
  lemma HeldInOrder(trace: seq<Intake>, events: seq<Event>, i: nat)
    requires Run(trace, events) && i < |trace|
    ensures var h := trace[i];
            && h.size == Total(h.kept) <= HELD_MESSAGES_LIMIT
            && (h.phase.Pending? ==> h.processed == [])
            && (!h.phase.Failed? ==> h.processed + h.kept == h.received)
            && (h.phase.Active? ==> h.processed == h.received)
  {
    Invariant(trace, events, i);
  }

  /** Reading fails the connection exactly if it is not accepted or not drained yet and keeps too much
      with the message; otherwise the message is kept until then, and handled at once afterwards. */
  lemma ReadOutcome(trace: seq<Intake>, events: seq<Event>, i: nat)
    requires Run(trace, events) && i < |events| && events[i].Read?
    ensures trace[i].buffer != []
    ensures var h, h', data := trace[i], trace[i + 1], trace[i].buffer[0];
            var held, fits := h.phase.Pending? || h.phase.Draining?, Total(h.kept) + |data| <= HELD_MESSAGES_LIMIT;
            && (h'.phase == if held && !fits then Failed else h.phase)
            && (h'.kept == if held && fits then h.kept + [data] else h.kept)
            && (h'.processed == if held then h.processed else h.processed + [data])
            && h'.received == h.received + [data] && h'.buffer == h.buffer[1..]
  {
    Invariant(trace, events, i);
    assert Enabled(trace[i], events[i]) && trace[i + 1] == Step(trace[i], events[i]);
  }

  // --- after a failure -----------------------------------------------------------------------

  /** The relay loop itself fails the connection: what it reads does not fit, or replying to what it
      read overflows the connection's send queue. */
  predicate FailsItself(h: Intake, e: Event)
    requires Enabled(h, e)
  {
    match e
    case Read => OverLimit(h)
    case Fail(byRelayLoop) => byRelayLoop
    case _ => false
  }

  /** The whole messages in the buffer behind the one being read, if one is. */
  function Behind(h: Intake, e: Event): seq<Bytes>
    requires Enabled(h, e)
  {
    if e.Read? then h.buffer[1..] else h.buffer
  }

  /** Event `i` fails the connection. */
  ghost predicate FailsAt(trace: seq<Intake>, events: seq<Event>, i: nat)
    requires Run(trace, events)
  {
    i < |events| && !trace[i].phase.Failed? && trace[i + 1].phase.Failed?
  }

  /** The relay loop has ended: it is cancelled, or it has read all there is. */
  predicate AtRest(h: Intake) {
    !h.open && (h.own ==> h.buffer == [])
  }

  /** What arrives from event `i` up to event `j`. */
  function Arriving(events: seq<Event>, i: nat, j: nat): seq<Bytes>
    requires i <= j <= |events|
    decreases j
  {
    if i == j then []
    else Arriving(events, i, j - 1) + if events[j - 1].Arrives? then [events[j - 1].data] else []
  }

  lemma FailureIs(h: Intake, e: Event)
    requires Inv(h) && Enabled(h, e) && !h.phase.Failed? && Step(h, e).phase.Failed?
    ensures var h' := Step(h, e);
            && h'.processed == h.processed && h'.buffer == Behind(h, e)
            && h'.own == FailsItself(h, e) && h'.open == h.open && (h'.own ==> h.open)
  {
  }

  lemma FailedStep(h: Intake, e: Event)
    requires h.phase.Failed? && Enabled(h, e)
    ensures var h' := Step(h, e);
            && h'.phase.Failed? && h'.own == h.own && h'.open == (h.open && !e.Shut?)
            && h'.processed + h'.buffer == h.processed + h.buffer + (if e.Arrives? then [e.data] else [])
            && (e.Read? ==> Reading(h) && |h'.processed| == |h.processed| + 1)
            && (!e.Read? ==> h'.processed == h.processed)
            && (e.Arrives? ==> h.open)
  {
    if e.Read? {
      Regroup(h.processed, [h.buffer[0]], h.buffer[1..]);
      assert [h.buffer[0]] + h.buffer[1..] == h.buffer;
    } else if e.Arrives? {
      Regroup(h.processed, h.buffer, [e.data]);
    }
  }

  /** From a failure on nothing is lost: what was processed and what is in the buffer is what it was
      then and what has arrived since. */
  lemma {:induction false} AfterFailure(trace: seq<Intake>, events: seq<Event>, i: nat, j: nat)
    requires Run(trace, events) && i <= j < |trace| && trace[i].phase.Failed?
    ensures trace[j].phase.Failed? && trace[j].own == trace[i].own && (trace[j].open ==> trace[i].open)
    ensures trace[j].processed + trace[j].buffer
            == trace[i].processed + trace[i].buffer + Arriving(events, i, j)
    ensures |trace[i].processed| <= |trace[j].processed|
    decreases j
  {
    if i < j {
      var h := j - 1;
      AfterFailure(trace, events, i, h);
      assert Enabled(trace[h], events[h]) && trace[h + 1] == Step(trace[h], events[h]);
      FailedStep(trace[h], events[h]);
      Regroup(trace[i].processed + trace[i].buffer, Arriving(events, i, h),
              if events[h].Arrives? then [events[h].data] else []);
    }
  }

  /** Neither while it is closing its own connection nor when it is cancelled does a relay loop
      read anything. */
  lemma {:induction false} NotReading(trace: seq<Intake>, events: seq<Event>, i: nat, j: nat)
    requires Run(trace, events) && i <= j < |trace| && trace[i].phase.Failed?
    requires forall h :: i <= h < j ==> !events[h].Read?
    ensures trace[j].processed == trace[i].processed
    decreases j
  {
    if i < j {
      var h := j - 1;
      NotReading(trace, events, i, h);
      AfterFailure(trace, events, i, h);
      assert Enabled(trace[h], events[h]) && trace[h + 1] == Step(trace[h], events[h]);
      FailedStep(trace[h], events[h]);
    }
  }

  lemma {:induction false} ClosedForGood(trace: seq<Intake>, events: seq<Event>, i: nat, j: nat)
    requires Run(trace, events) && i <= j < |trace| && !trace[i].open
    ensures !trace[j].open && Arriving(events, i, j) == []
    decreases j
  {
    if i < j {
      ClosedForGood(trace, events, i, j - 1);
      assert Enabled(trace[j - 1], events[j - 1]) && trace[j] == Step(trace[j - 1], events[j - 1]);
    }
  }

  lemma OpenUntil(trace: seq<Intake>, events: seq<Event>, i: nat, k: nat)
    requires Run(trace, events) && i <= k < |trace| && trace[k].open
    ensures trace[i].open
  {
    if !trace[i].open {
      ClosedForGood(trace, events, i, k);
    }
  }

  /** Event `k` closes the connection. */
  ghost predicate ClosesAt(trace: seq<Intake>, events: seq<Event>, k: nat)
    requires Run(trace, events)
  {
    k < |events| && events[k] == Shut
  }

  lemma NoReadBefore(trace: seq<Intake>, events: seq<Event>, i: nat, k: nat)
    requires Run(trace, events) && ClosesAt(trace, events, k) && i <= k
    requires trace[i].phase.Failed? && trace[i].own
    ensures forall h :: i <= h < k ==> !events[h].Read?
  {
    assert Enabled(trace[k], events[k]);
    forall h | i <= h < k ensures !events[h].Read? {
      assert Enabled(trace[h], events[h]);
      AfterFailure(trace, events, i, h);
      OpenUntil(trace, events, h, k);
    }
  }

  lemma NoReadAfter(trace: seq<Intake>, events: seq<Event>, k: nat, i: nat, j: nat)
    requires Run(trace, events) && k <= i <= j < |trace| && !trace[k].open
    requires trace[i].phase.Failed? && !trace[i].own
    ensures forall h :: i <= h < j ==> !events[h].Read?
  {
    forall h | i <= h < j ensures !events[h].Read? {
      assert Enabled(trace[h], events[h]);
      AfterFailure(trace, events, i, h);
      ClosedForGood(trace, events, k, h);
    }
  }

  /** From failing to closing: a relay loop that closes its own connection finds in its buffer all
      that was there and has arrived since; another one has taken some of it from the front. */
  lemma UntilClosed(trace: seq<Intake>, events: seq<Event>, i: nat, k: nat)
    requires Run(trace, events) && FailsAt(trace, events, i) && i < k && ClosesAt(trace, events, k)
    ensures Enabled(trace[i], events[i])
    ensures trace[k].processed + trace[k].buffer
            == trace[i].processed + (Behind(trace[i], events[i]) + Arriving(events, i + 1, k))
    ensures FailsItself(trace[i], events[i]) ==> trace[k].processed == trace[i].processed
  {
    Invariant(trace, events, i);
    assert Enabled(trace[i], events[i]) && trace[i + 1] == Step(trace[i], events[i]);
    FailureIs(trace[i], events[i]);
    AfterFailure(trace, events, i + 1, k);
    Regroup(trace[i].processed, Behind(trace[i], events[i]), Arriving(events, i + 1, k));
    if FailsItself(trace[i], events[i]) {
      NoReadBefore(trace, events, i + 1, k);
      NotReading(trace, events, i + 1, k);
    }
  }

  /** After closing: a relay loop that has closed its own connection processes all that is left,
      another one nothing. */
  lemma OnceClosed(trace: seq<Intake>, events: seq<Event>, i: nat, k: nat, j: nat)
    requires Run(trace, events) && FailsAt(trace, events, i) && i < k < j < |trace| && ClosesAt(trace, events, k)
    requires AtRest(trace[j])
    ensures Enabled(trace[i], events[i])
    ensures trace[j].processed
            == trace[k].processed + if FailsItself(trace[i], events[i]) then trace[k].buffer else []
  {
    Invariant(trace, events, i);
    assert Enabled(trace[i], events[i]) && trace[i + 1] == Step(trace[i], events[i]);
    FailureIs(trace[i], events[i]);
    AfterFailure(trace, events, i + 1, k);
    assert Enabled(trace[k], events[k]) && trace[k + 1] == Step(trace[k], events[k]);
    AfterFailure(trace, events, k + 1, j);
    ClosedForGood(trace, events, k + 1, j);
    if FailsItself(trace[i], events[i]) {
      NothingMore(trace[j].processed, trace[j].buffer, trace[k].processed + trace[k].buffer);
    } else {
      NoReadAfter(trace, events, k + 1, k + 1, j);
      NotReading(trace, events, k + 1, j);
      assert trace[k].processed + [] == trace[k].processed;
    }
  }

  lemma NothingMore(processed: seq<Bytes>, buffer: seq<Bytes>, all: seq<Bytes>)
    requires processed + buffer == all + [] && buffer == []
    ensures processed == all
  {
    assert processed + [] == processed && all + [] == all;
  }

  /** What a connection's messages come to once it has failed, been closed and its relay loop has
      ended. If the relay loop itself failed it, all the whole messages that were in its buffer
      then or have arrived before it was closed are processed as well; if another task failed it,
      those of them that the relay loop has taken before it was closed, and not what was left. */
  lemma ProcessedAfterFailure(trace: seq<Intake>, events: seq<Event>, i: nat, k: nat, j: nat)
    requires Run(trace, events) && FailsAt(trace, events, i) && i < k < j < |trace| && ClosesAt(trace, events, k)
    requires AtRest(trace[j])
    ensures Enabled(trace[i], events[i])
    ensures trace[j].processed + (if FailsItself(trace[i], events[i]) then [] else trace[k].buffer)
            == trace[i].processed + (Behind(trace[i], events[i]) + Arriving(events, i + 1, k))
  {
    UntilClosed(trace, events, i, k);
    OnceClosed(trace, events, i, k, j);
    Unprocessed(trace[j].processed, trace[k].processed, trace[k].buffer, FailsItself(trace[i], events[i]));
  }

  lemma Unprocessed(last: seq<Bytes>, processed: seq<Bytes>, buffer: seq<Bytes>, own: bool)
    requires last == processed + if own then buffer else []
    ensures last + (if own then [] else buffer) == processed + buffer
  {
  }

  /** So something is processed after the failure exactly when the relay loop failed the connection
      itself and a whole message was waiting when it was closed, or another task failed it and the
      relay loop read something before it was closed. */
  lemma ProcessesOnIff(trace: seq<Intake>, events: seq<Event>, i: nat, k: nat, j: nat)
    requires Run(trace, events) && FailsAt(trace, events, i) && i < k < j < |trace| && ClosesAt(trace, events, k)
    requires AtRest(trace[j])
    ensures Enabled(trace[i], events[i])
    ensures trace[j].processed != trace[i].processed <==>
            if FailsItself(trace[i], events[i]) then trace[k].buffer != []
            else exists h :: i < h < k && events[h].Read?
  {
    UntilClosed(trace, events, i, k);
    OnceClosed(trace, events, i, k, j);
    Invariant(trace, events, i);
    FailureIs(trace[i], events[i]);
    if !FailsItself(trace[i], events[i]) {
      if h :| i < h < k && events[h].Read? {
        ReadsMore(trace, events, i + 1, h, k);
      } else {
        NotReading(trace, events, i + 1, k);
      }
    } else {
      assert |trace[k].processed + trace[k].buffer| == |trace[k].processed| + |trace[k].buffer|;
    }
  }

  lemma ReadsMore(trace: seq<Intake>, events: seq<Event>, i: nat, h: nat, k: nat)
    requires Run(trace, events) && i <= h < k < |trace| && trace[i].phase.Failed? && events[h].Read?
    ensures |trace[i].processed| < |trace[k].processed|
  {
    AfterFailure(trace, events, i, h);
    assert Enabled(trace[h], events[h]) && trace[h + 1] == Step(trace[h], events[h]);
    FailedStep(trace[h], events[h]);
    AfterFailure(trace, events, h + 1, k);
  }

  /** A connection that is closed on purpose is closed first: nothing is read once it fails. */
  lemma ClosedOnPurpose(trace: seq<Intake>, events: seq<Event>, k: nat, i: nat, j: nat)
    requires Run(trace, events) && ClosesAt(trace, events, k) && FailsAt(trace, events, i) && k < i < j < |trace|
    ensures trace[j].processed == trace[i].processed
  {
    Invariant(trace, events, i);
    assert Enabled(trace[k], events[k]) && trace[k + 1] == Step(trace[k], events[k]);
    assert Enabled(trace[i], events[i]) && trace[i + 1] == Step(trace[i], events[i]);
    ClosedForGood(trace, events, k + 1, i);
    FailureIs(trace[i], events[i]);
    NoReadAfter(trace, events, k + 1, i + 1, j);
    NotReading(trace, events, i + 1, j);
  }

  /** As long as nothing is read after a failure, what was processed is a prefix of what was
      received. */
  lemma ProcessedIsPrefix(trace: seq<Intake>, events: seq<Event>, j: nat)
    requires Run(trace, events) && j < |trace|
    requires forall i: nat, h :: i < j && FailsAt(trace, events, i) && i < h < j ==> !events[h].Read?
    ensures trace[j].processed <= trace[j].received
  {
    Invariant(trace, events, j);
    if trace[j].phase.Failed? {
      var i := FirstFailure(trace, events, j);
      Invariant(trace, events, i);
      assert Enabled(trace[i], events[i]) && trace[i + 1] == Step(trace[i], events[i]);
      FailureIs(trace[i], events[i]);
      NotReading(trace, events, i + 1, j);
      ReceivedGrows(trace, events, i, j);
    }
  }

  lemma {:induction false} FirstFailure(trace: seq<Intake>, events: seq<Event>, j: nat) returns (i: nat)
    requires Run(trace, events) && j < |trace| && trace[j].phase.Failed?
    ensures i < j && FailsAt(trace, events, i)
  {
    i := j - 1;
    if trace[i].phase.Failed? {
      i := FirstFailure(trace, events, i);
    }
  }

  lemma {:induction false} ReceivedGrows(trace: seq<Intake>, events: seq<Event>, i: nat, j: nat)
    requires Run(trace, events) && i <= j < |trace|
    ensures trace[i].received <= trace[j].received
    decreases j
  {
    if i < j {
      var h := j - 1;
      ReceivedGrows(trace, events, i, h);
      assert Enabled(trace[h], events[h]) && trace[h + 1] == Step(trace[h], events[h]);
    }
  }

  function Loaded(full: Bytes, n: nat): seq<Bytes>
    requires n <= 6
  {
    [full, full, full, full, [1], [2]][..n]
  }

  ghost predicate Happens(h: Intake, e: Event, h': Intake) {
    Enabled(h, e) && Step(h, e) == h'
  }

  lemma Loads(full: Bytes, n: nat)
    requires n < 6
    ensures var h := NEW_INTAKE;
            Happens(h.(buffer := Loaded(full, n)), Arrives(Loaded(full, 6)[n]), h.(buffer := Loaded(full, n + 1)))
  {
  }

  /** The state after `n` of the four full messages have been kept. */
  function Kept(full: Bytes, n: nat): Intake
    requires n <= 4
  {
    Intake(Pending, true, false, Loaded(full, 6)[n..], Loaded(full, n), n * MAX_PAYLOAD_LENGTH, Loaded(full, n), [])
  }

  lemma Keeps(full: Bytes, n: nat)
    requires |full| == MAX_PAYLOAD_LENGTH && n < 4
    ensures Happens(Kept(full, n), Read, Kept(full, n + 1))
  {
    assert Loaded(full, 6)[n..][1..] == Loaded(full, 6)[n + 1..];
    assert Loaded(full, n) + [full] == Loaded(full, n + 1);
  }

  function Failing(full: Bytes): seq<Intake> {
    [Intake(Failed, true, true, [[2]], Loaded(full, 4), 4 * MAX_PAYLOAD_LENGTH, [full, full, full, full, [1]], []),
     Intake(Failed, false, true, [[2]], Loaded(full, 4), 4 * MAX_PAYLOAD_LENGTH, [full, full, full, full, [1]], []),
     Intake(Failed, false, true, [], Loaded(full, 4), 4 * MAX_PAYLOAD_LENGTH,
            [full, full, full, full, [1], [2]], [[2]])]
  }

  lemma OverLimitStep(full: Bytes)
    requires |full| == MAX_PAYLOAD_LENGTH
    ensures Happens(Kept(full, 4), Read, Failing(full)[0])
    ensures FailsItself(Kept(full, 4), Read)
  {
    assert Loaded(full, 6)[4..] == [[1], [2]];
    assert [[1], [2]][1..] == [[2]];
    assert Loaded(full, 4) + [[1]] == [full, full, full, full, [1]];
  }

  lemma ReadsAfterFailure(full: Bytes)
    ensures Happens(Failing(full)[1], Read, Failing(full)[2])
  {
    assert [full, full, full, full, [1]] + [[2]] == [full, full, full, full, [1], [2]];
    assert [[2]][1..] == [] && [] + [[2]] == [[2]];
  }

  function OverLimitTrace(full: Bytes): seq<Intake> {
    seq(6, i requires 0 <= i < 6 => NEW_INTAKE.(buffer := Loaded(full, i)))
    + seq(5, i requires 0 <= i < 5 => Kept(full, i)) + Failing(full)
  }

  function OverLimitEvents(full: Bytes): seq<Event> {
    seq(6, i requires 0 <= i < 6 => Arrives(Loaded(full, 6)[i])) + seq(5, _ => Read) + [Shut, Read]
  }

  lemma OverLimitHappens(full: Bytes, i: nat)
    requires |full| == MAX_PAYLOAD_LENGTH && i < 13
    ensures Happens(OverLimitTrace(full)[i], OverLimitEvents(full)[i], OverLimitTrace(full)[i + 1])
  {
    if i < 6 {
      Loads(full, i);
    } else if i < 10 {
      Keeps(full, i - 6);
    } else if i == 10 {
      OverLimitStep(full);
    } else if i == 12 {
      ReadsAfterFailure(full);
    }
  }

  /** A connection goes over the limit while it is pending: its relay loop fails it, closes it, and
      goes on with the next message in its buffer as if the connection had been accepted. */
  lemma OverLimitReadsOn(full: Bytes) returns (trace: seq<Intake>, events: seq<Event>)
    requires |full| == MAX_PAYLOAD_LENGTH
    ensures Run(trace, events) && |events| == 13
    ensures FailsAt(trace, events, 10) && ClosesAt(trace, events, 11)
    ensures Enabled(trace[10], Read) && FailsItself(trace[10], Read)
    ensures trace[13].processed == [[2]] && AtRest(trace[13])
    ensures trace[13].received == [full, full, full, full, [1], [2]]
  {
    trace, events := OverLimitTrace(full), OverLimitEvents(full);
    forall i | 0 <= i < 13 ensures Happens(trace[i], events[i], trace[i + 1]) {
      OverLimitHappens(full, i);
    }
    OverLimitStep(full);
  }

  /** Another task fails a pending connection. Before it is closed its relay loop reads the second
      of two messages, and that is processed though the first, which was kept, never will be. */
  lemma ReadBeforeClosing() returns (trace: seq<Intake>, events: seq<Event>)
    ensures Run(trace, events) && |events| == 6
    ensures FailsAt(trace, events, 2) && !FailsItself(trace[2], events[2]) && ClosesAt(trace, events, 5)
    ensures AtRest(trace[6]) && trace[6].processed == [[2]] && trace[6].received == [[1], [2]]
  {
    events := [Arrives([1]), Read, Fail(false), Arrives([2]), Read, Shut];
    trace := [NEW_INTAKE, NEW_INTAKE.(buffer := [[1]]),
              Intake(Pending, true, false, [], [[1]], 1, [[1]], []),
              Intake(Failed, true, false, [], [[1]], 1, [[1]], []),
              Intake(Failed, true, false, [[2]], [[1]], 1, [[1]], []),
              Intake(Failed, true, false, [], [[1]], 1, [[1], [2]], [[2]]),
              Intake(Failed, false, false, [], [[1]], 1, [[1], [2]], [[2]])];
    forall i | 0 <= i < 6 ensures Happens(trace[i], events[i], trace[i + 1]) {
      assert [[1]][1..] == [] && [[2]][1..] == [];
      assert [[1]] + [[2]] == [[1], [2]];
    }
  }
}
