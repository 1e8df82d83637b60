/** The send queue of a node's connection: relaying puts data in it, a task sends it in order,
    and a failure or a close can come at any time, also while data is being sent. */
module SendQueue {
  import opened Results
  import opened Utf8
  import opened MessageCodec

  const SEND_QUEUE_LIMIT: nat := 4 * MAX_PAYLOAD_LENGTH

  type TaskId = nat

  /** Where a send task is: about to look at the queue, sending, or reporting a failure, at the end of
      which it closes the connection. */
  datatype Loop = Looking | Sending(data: Bytes) | Reporting

  /** `listed`: in one of the node's lists. `closing`: the writer is closing. `loops` are the send
      tasks that are not done. `popped` is whether one ever popped an empty queue. `accepted` and
      `sent` are history. */
  datatype Queue = Queue(waiting: seq<Bytes>, queuedBytes: int, task: Option<TaskId>, listed: bool, closing: bool,
                         loops: map<TaskId, Loop>, popped: bool, accepted: seq<Bytes>, sent: seq<Bytes>)

  const NEW_QUEUE := Queue([], 0, None, true, false, map[], false, [], [])

  datatype Event =
    | Relay(data: Bytes, next: TaskId)
    | Look(task: TaskId)
    | Sent(task: TaskId)
    | SendFails(task: TaskId)
    | Unlist
    | Break
    | Close
    | Ends(task: TaskId)

  function Total(waiting: seq<Bytes>): nat {
    if waiting == [] then 0 else Total(waiting[..|waiting| - 1]) + |waiting[|waiting| - 1]|
  }

  predicate Enabled(q: Queue, e: Event) {
    match e
    case Relay(_, next) => next !in q.loops
    case Look(t) => t in q.loops && q.loops[t].Looking?
    case Sent(t) => t in q.loops && q.loops[t].Sending?
    case SendFails(t) => t in q.loops && q.loops[t].Sending?
    case Unlist => true
    case Break => true
    case Close => true
    case Ends(t) => t in q.loops && q.closing
  }

  /** Nobody is sending: there never was a task, or the last one is done. */
  predicate Idle(q: Queue) {
    q.task.None? || q.task.value !in q.loops
  }

  /** Too long goes nowhere; too much for the queue fails the connection. */
  function Accept(q: Queue, data: Bytes, next: TaskId): Queue {
    if |data| > MAX_PAYLOAD_LENGTH then q
    else if q.queuedBytes + |data| > SEND_QUEUE_LIMIT then q.(listed := false)
    else
      var more := q.(waiting := q.waiting + [data], queuedBytes := q.queuedBytes + |data|,
                     accepted := q.accepted + [data]);
      if Idle(q) then more.(task := Some(next), loops := q.loops[next := Looking]) else more
  }

  function Step(q: Queue, e: Event): Queue
    requires Enabled(q, e)
  {
    match e
    case Relay(data, next) => Accept(q, data, next)
    case Look(t) =>
      if q.waiting == [] then q.(loops := q.loops - {t}) else q.(loops := q.loops[t := Sending(q.waiting[0])])
    case Sent(t) =>
      if q.closing then q.(loops := q.loops - {t})
      else if q.waiting == [] then q.(popped := true)
      else
        q.(waiting := q.waiting[1..], queuedBytes := q.queuedBytes - |q.loops[t].data|,
           loops := q.loops[t := Looking], sent := q.sent + [q.loops[t].data])
    case SendFails(t) =>
      if q.listed then q.(listed := false, loops := q.loops[t := Reporting]) else q.(loops := q.loops - {t})
    case Unlist => q.(listed := false)
    case Break => q.(closing := true)
    case Close => q.(waiting := [], queuedBytes := 0, closing := true)
    case Ends(t) => q.(loops := q.loops - {t})
  }

  /** At most one task sends; what is in flight is at the head of the queue; nothing is lost,
      repeated or reordered; and while the connection is good, what waits is being sent. */
  ghost predicate Inv(q: Queue) {
    && q.queuedBytes == Total(q.waiting) <= SEND_QUEUE_LIMIT && !q.popped
    && (forall t :: t in q.loops ==> q.task == Some(t))
    && q.sent <= q.accepted
    && (!q.closing ==>
          && q.sent + q.waiting == q.accepted
          && forall t :: t in q.loops && q.loops[t].Sending? ==> q.waiting != [] && q.loops[t].data == q.waiting[0])
    && (q.listed && !q.closing ==>
          && (q.waiting != [] ==> !Idle(q))
          && forall t :: t in q.loops ==> !q.loops[t].Reporting?)
  }

  lemma TotalAppend(waiting: seq<Bytes>, data: Bytes)
    ensures Total(waiting + [data]) == Total(waiting) + |data|
  {
    assert (waiting + [data])[..|waiting|] == waiting;
  }

  lemma {:induction false} TotalPop(waiting: seq<Bytes>)
    requires waiting != []
    ensures Total(waiting) == |waiting[0]| + Total(waiting[1..])
    decreases |waiting|
  {
    var n := |waiting| - 1;
    if n > 0 {
      TotalPop(waiting[..n]);
      assert waiting[..n][1..] == waiting[1..][..n - 1];
    }
  }

  lemma RelayKeeps(q: Queue, data: Bytes, next: TaskId)
    requires Inv(q) && next !in q.loops
    ensures Inv(Accept(q, data, next))
  {
    TotalAppend(q.waiting, data);
    assert q.sent + (q.waiting + [data]) == q.sent + q.waiting + [data];
    assert q.sent <= q.accepted + [data];
  }

  lemma SentKeeps(q: Queue, t: TaskId)
    requires Inv(q) && Enabled(q, Sent(t))
    ensures Inv(Step(q, Sent(t)))
  {
    if !q.closing {
      TotalPop(q.waiting);
      assert q.sent + [q.waiting[0]] + q.waiting[1..] == q.sent + q.waiting;
    }
  }

  lemma StepKeeps(q: Queue, e: Event)
    requires Inv(q) && Enabled(q, e)
    ensures Inv(Step(q, e))
  {
    match e
    case Relay(data, next) => RelayKeeps(q, data, next);
    case Sent(t) => SentKeeps(q, t);
    case Look(t) =>
    case SendFails(t) =>
    case Unlist =>
    case Break =>
    case Close =>
    case Ends(t) =>
  }

  ghost predicate Run(trace: seq<Queue>, events: seq<Event>) {
    && |trace| == |events| + 1
    && trace[0] == NEW_QUEUE
    && forall i :: 0 <= i < |events| ==> Enabled(trace[i], events[i]) && trace[i + 1] == Step(trace[i], events[i])
  }

  lemma {:induction false} Invariant(trace: seq<Queue>, events: seq<Event>, i: nat)
    requires Run(trace, events) && i < |trace|
    ensures Inv(trace[i])
  {
    if i > 0 {
      var j := i - 1;
      Invariant(trace, events, j);
      assert Enabled(trace[j], events[j]) && trace[j + 1] == Step(trace[j], events[j]);
      StepKeeps(trace[j], events[j]);
    }
  }

  /** At every moment: the count is exact and within the limit, at most one task sends, no task
      pops an empty queue, and until the connection fails, what has been sent and what waits is
      what was accepted, in order. Afterwards, what has been sent is still a part from the start. */
  lemma QueueIsExact(trace: seq<Queue>, events: seq<Event>, i: nat)
    requires Run(trace, events) && i < |trace|
    ensures var q := trace[i];
            && q.queuedBytes == Total(q.waiting) <= SEND_QUEUE_LIMIT
            && (forall t, u :: t in q.loops && u in q.loops ==> t == u)
            && !q.popped
            && (!q.closing ==> q.sent + q.waiting == q.accepted)
            && q.sent <= q.accepted
  {
    Invariant(trace, events, i);
  }

  /** As long as the connection is listed and good, whatever waits has a task sending it. */
  lemma NothingIsStuck(trace: seq<Queue>, events: seq<Event>, i: nat)
    requires Run(trace, events) && i < |trace|
    requires trace[i].listed && !trace[i].closing && trace[i].waiting != []
    ensures exists t :: t in trace[i].loops && (Enabled(trace[i], Look(t)) || Enabled(trace[i], Sent(t)))
  {
    Invariant(trace, events, i);
    var t := trace[i].task.value;
    assert t in trace[i].loops;
    assert Enabled(trace[i], Look(t)) || Enabled(trace[i], Sent(t));
  }

  /** Nothing counts as sent once the connection is closing, even if it was being sent then. */
  lemma {:induction false} NothingSentAfterClosing(trace: seq<Queue>, events: seq<Event>, i: nat, j: nat)
    requires Run(trace, events) && i <= j < |trace| && trace[i].closing
    ensures trace[j].closing && trace[j].sent == trace[i].sent
    decreases j
  {
    if i < j {
      var h := j - 1;
      NothingSentAfterClosing(trace, events, i, h);
      assert Enabled(trace[h], events[h]) && trace[h + 1] == Step(trace[h], events[h]);
    }
  }

  /** Data that is not too long is accepted exactly if it fits in the queue, and dropped together with
      the connection exactly if it does not. */
  lemma RelayAcceptsIff(trace: seq<Queue>, events: seq<Event>, i: nat)
    requires Run(trace, events) && i < |events| && events[i].Relay?
    ensures var q, q', data := trace[i], trace[i + 1], events[i].data;
            var tooLong, fits := |data| > MAX_PAYLOAD_LENGTH, Total(q.waiting) + |data| <= SEND_QUEUE_LIMIT;
            && (q'.accepted == q.accepted + [data] <==> !tooLong && fits)
            && (q'.accepted != q.accepted ==> q'.waiting == q.waiting + [data])
            && (q'.accepted == q.accepted ==> q'.waiting == q.waiting)
            && (q'.listed <==> q.listed && (tooLong || fits))
  {
    Invariant(trace, events, i);
    assert Enabled(trace[i], events[i]) && trace[i + 1] == Step(trace[i], events[i]);
    if |events[i].data| <= MAX_PAYLOAD_LENGTH && Total(trace[i].waiting) + |events[i].data| <= SEND_QUEUE_LIMIT {
      assert trace[i + 1].accepted[|trace[i].accepted|] == events[i].data;
    } else {
      assert |trace[i + 1].accepted| == |trace[i].accepted|;
    }
  }

  /** The connection is off its list, and whoever has taken it off has yet to close it, or it is
      closing: its task sends no more. */
  ghost predicate Failed(q: Queue, t: TaskId) {
    !q.listed && (q.closing || (q.task == Some(t) && t in q.loops && q.loops[t].Reporting?))
  }

  lemma FailedStays(q: Queue, e: Event, t: TaskId)
    requires Inv(q) && Failed(q, t) && Enabled(q, e)
    ensures Failed(Step(q, e), t) && Step(q, e).sent == q.sent
  {
  }

  lemma {:induction false} FailedForGood(trace: seq<Queue>, events: seq<Event>, i: nat, j: nat, t: TaskId)
    requires Run(trace, events) && i <= j < |trace| && Failed(trace[i], t)
    ensures Failed(trace[j], t) && trace[j].sent == trace[i].sent
    decreases j
  {
    if i < j {
      var h := j - 1;
      FailedForGood(trace, events, i, h, t);
      Invariant(trace, events, h);
      assert Enabled(trace[h], events[h]) && trace[h + 1] == Step(trace[h], events[h]);
      FailedStays(trace[h], events[h], t);
    }
  }

  /** A failed send takes its connection off the list for good, and nothing is sent on it again. */
  lemma NothingSentAfterFailure(trace: seq<Queue>, events: seq<Event>, i: nat, j: nat, t: TaskId)
    requires Run(trace, events) && i < j < |trace| && events[i] == SendFails(t) && trace[i].listed
    ensures !trace[j].listed && trace[j].sent == trace[i].sent
  {
    Invariant(trace, events, i);
    assert Enabled(trace[i], events[i]) && trace[i + 1] == Step(trace[i], events[i]);
    FailedForGood(trace, events, i + 1, j, t);
  }

  /** A close leaves nothing queued, and the connection stays closing. */
  lemma CloseEmpties(trace: seq<Queue>, events: seq<Event>, i: nat, j: nat)
    requires Run(trace, events) && i < j < |trace| && events[i].Close?
    ensures trace[i + 1].waiting == [] && trace[i + 1].queuedBytes == 0 && trace[j].closing
    ensures trace[j].sent == trace[i].sent
  {
    assert Enabled(trace[i], events[i]) && trace[i + 1] == Step(trace[i], events[i]);
    NothingSentAfterClosing(trace, events, i + 1, j);
  }
}
