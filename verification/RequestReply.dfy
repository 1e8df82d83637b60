/** The wait for the replies to a request: replies, timer, cancel, close, connection loss and
    send failure race at every await, guarded only by the request's flags.

    The code between two awaits that can suspend is one event. */
module RequestReply {
  import opened Results

  type Id = string

  datatype Status = TimedOut | Closed | ConnectionLost

  /** Why a wait ended. Only with a status is the callback told so. */
  datatype Cause = Replied | Cancelled | SendFailed | WithStatus(status: Status)

  /** What the caller of `send_request` gets to see, in order. */
  datatype Entry = ReplyCall | Ended(cause: Cause) | StatusCall(status: Status)

  /** Where `send_request` is. `Failing` and `Closing` end the wait themselves. */
  datatype Stage = Subscribing | Publishing | Failing | Closing | Returned | Raised

  /** Whose task waits for the unsubscribe that follows the end of the wait. */
  datatype Ender = Sender | Visitor(id: nat) | OtherTask

  /** The end of a wait in progress: unsubscribing, then, with a status, `calling` the callback. */
  datatype Ending = Ending(ender: Ender, status: Option<Status>, calling: bool)

  /** `_PendingRequest` and the tasks that work for it. `calls` counts the reply callbacks in
      progress, `timer` says whether the timer runs, `log` is history. */
  datatype Request = Request(stage: Stage, hasTimeout: bool, sending: bool, closedMeanwhile: Option<Status>,
                             timer: bool, ended: bool, calls: nat, ending: Option<Ending>, log: seq<Entry>)

  function NewRequest(hasTimeout: bool): Request {
    Request(Subscribing, hasTimeout, true, None, false, false, 0, None, [])
  }

  datatype Happening =
    | ReplyArrives
    | ReplyReturns(done: bool)
    | Subscribed
    | Published
    | Fails
    | TimerFires
    | Cancel
    | Visit(sweep: nat, status: Status)
    | Unsubscribed
    | StatusReturns

  /** `_end_wait`, up to its await. */
  function EndWait(r: Request, cause: Cause, ender: Ender): Request {
    r.(ended := true, timer := false, log := r.log + [Ended(cause)],
       ending := Some(Ending(ender, if cause.WithStatus? then Some(cause.status) else None, false)))
  }

  /** The task that ended the wait goes on. */
  function Resume(r: Request): Request
    requires r.ending.Some?
  {
    var rest := r.(ending := None);
    if !r.ending.value.ender.Sender? then rest
    else if r.stage.Failing? then rest.(sending := false, stage := Raised)
    else rest.(stage := Returned)
  }

  predicate CanHappen(r: Request, h: Happening) {
    match h
    case ReplyArrives => true
    case ReplyReturns(_) => r.calls > 0
    case Subscribed => r.stage.Subscribing?
    case Published => r.stage.Publishing?
    case Fails => r.stage.Subscribing? || r.stage.Publishing?
    case TimerFires => r.timer
    case Cancel => true
    case Visit(_, _) => true
    case Unsubscribed => r.ending.Some? && !r.ending.value.calling
    case StatusReturns => r.ending.Some? && r.ending.value.calling
  }

  function React(r: Request, h: Happening): Request
    requires CanHappen(r, h)
  {
    match h
    case ReplyArrives => if r.ended then r else r.(calls := r.calls + 1, log := r.log + [ReplyCall])
    case ReplyReturns(done) =>
      var back := r.(calls := r.calls - 1);
      if done && !r.ended then EndWait(back, Replied, OtherTask) else back
    case Subscribed => r.(stage := Publishing, timer := r.hasTimeout || r.timer)
    case Published =>
      var sent := r.(sending := false);
      if r.closedMeanwhile.Some? && !r.ended
      then EndWait(sent, WithStatus(r.closedMeanwhile.value), Sender).(stage := Closing)
      else sent.(stage := Returned)
    case Fails =>
      if r.ended then r.(sending := false, stage := Raised)
      else EndWait(r, SendFailed, Sender).(stage := Failing)
    case TimerFires =>
      var fired := r.(timer := false);
      if r.ended then fired else EndWait(fired, WithStatus(TimedOut), OtherTask)
    case Cancel => if r.ended then r else EndWait(r, Cancelled, OtherTask)
    case Visit(k, status) =>
      if r.ended then r
      else if r.sending then r.(closedMeanwhile := Some(status))
      else EndWait(r, WithStatus(status), Visitor(k))
    case Unsubscribed =>
      var e := r.ending.value;
      if e.status.None? then Resume(r)
      else r.(ending := Some(e.(calling := true)), log := r.log + [StatusCall(e.status.value)])
    case StatusReturns => Resume(r)
  }

  // --- the client ----------------------------------------------------------------------

  /** `_end_all_without_reply`: the requests it has still to visit. `all` is history. */
  datatype Sweep = Sweep(status: Status, todo: seq<Id>, all: set<Id>)

  /** Every request sent so far, the keys of `_requests`, and every close or connection loss. */
  datatype Client = Client(known: map<Id, Request>, requests: set<Id>, sweeps: map<nat, Sweep>)

  datatype Event =
    | Send(id: Id, hasTimeout: bool)
    | Happens(id: Id, what: Happening)
    | EndAll(sweep: nat, status: Status, order: seq<Id>)
    | VisitNext(sweep: nat)

  /** The sweep waits for the wait it has just ended. */
  ghost predicate Busy(c: Client, sweep: nat) {
    exists id :: id in c.known && c.known[id].ending.Some? && c.known[id].ending.value.ender == Visitor(sweep)
  }

  ghost predicate Enabled(c: Client, e: Event) {
    match e
    case Send(id, _) => id !in c.known
    case Happens(id, h) => id in c.known && CanHappen(c.known[id], h) && !h.Visit? && (h.Cancel? ==> id in c.requests)
    case EndAll(k, status, order) =>
      k !in c.sweeps && !status.TimedOut? && forall id :: id in order <==> id in c.requests
    case VisitNext(k) =>
      k in c.sweeps && c.sweeps[k].todo != [] && c.sweeps[k].todo[0] in c.known && !Busy(c, k)
  }

  /** A request leaves `_requests` when its wait ends. */
  function Put(c: Client, id: Id, r: Request): Client {
    c.(known := c.known[id := r], requests := if r.ended then c.requests - {id} else c.requests)
  }

  ghost function Step(c: Client, e: Event): Client
    requires Enabled(c, e)
  {
    match e
    case Send(id, hasTimeout) => c.(known := c.known[id := NewRequest(hasTimeout)], requests := c.requests + {id})
    case Happens(id, h) => Put(c, id, React(c.known[id], h))
    case EndAll(k, status, order) => c.(sweeps := c.sweeps[k := Sweep(status, order, c.requests)])
    case VisitNext(k) =>
      var s := c.sweeps[k];
      Put(c.(sweeps := c.sweeps[k := s.(todo := s.todo[1..])]), s.todo[0],
          React(c.known[s.todo[0]], Visit(k, s.status)))
  }

  const NEW_CLIENT := Client(map[], {}, map[])

  ghost predicate Run(trace: seq<Client>, events: seq<Event>) {
    && |trace| == |events| + 1
    && trace[0] == NEW_CLIENT
    && forall i :: 0 <= i < |events| ==> Enabled(trace[i], events[i]) && trace[i + 1] == Step(trace[i], events[i])
  }

  // --- what the caller sees ----------------------------------------------------------------

  function Calls(n: nat): (log: seq<Entry>)
    ensures |log| == n && forall i :: 0 <= i < n ==> log[i] == ReplyCall
  {
    seq(n, _ => ReplyCall)
  }

  ghost predicate Tells(log: seq<Entry>, ended: bool, told: bool, n: nat, cause: Cause) {
    && (told ==> ended && cause.WithStatus?)
    && log == Calls(n) + (if ended then [Ended(cause)] else []) + (if told then [StatusCall(cause.status)] else [])
  }

  /** Replies, then at most one end, then at most one status call, and that only with the status
      the wait ended with. */
  ghost predicate Story(log: seq<Entry>, ended: bool, told: bool) {
    exists n: nat, cause :: Tells(log, ended, told, n, cause)
  }

  /** Nothing is missing at the end either: the status call has been made if the wait ended with
      a status. */
  ghost predicate WholeStory(log: seq<Entry>) {
    exists n: nat, cause: Cause :: Tells(log, true, cause.WithStatus?, n, cause)
  }

  // --- the invariant ------------------------------------------------------------------------

  /** `n` replies and the end `cause` explain the log. */
  ghost predicate Explains(r: Request, n: nat, cause: Cause) {
    if !r.ended then r.log == Calls(n) && r.ending.None?
    else
      && (r.ending.Some? ==>
            r.ending.value.status == (if cause.WithStatus? then Some(cause.status) else None)
            && (r.ending.value.calling ==> cause.WithStatus?))
      && r.log == Calls(n) + [Ended(cause)]
                  + if cause.WithStatus? && (r.ending.None? || r.ending.value.calling)
                    then [StatusCall(cause.status)] else []
  }

  ghost predicate StageOk(r: Request) {
    && (r.sending <==> r.stage.Subscribing? || r.stage.Publishing? || r.stage.Failing?)
    && (r.stage.Failing? || r.stage.Closing? <==> r.ending.Some? && r.ending.value.ender.Sender?)
    && (r.stage.Raised? ==> r.ended)
    && (!r.sending && r.closedMeanwhile.Some? ==> r.ended)
    && (r.hasTimeout && !r.ended && !r.stage.Subscribing? ==> r.timer)
  }

  ghost predicate RequestOk(r: Request) {
    StageOk(r) && exists n: nat, cause: Cause :: Explains(r, n, cause)
  }

  lemma OneMoreCall(n: nat)
    ensures Calls(n) + [ReplyCall] == Calls(n + 1)
  {
  }

  lemma ReactKeeps(r: Request, h: Happening)
    requires RequestOk(r) && CanHappen(r, h)
    ensures RequestOk(React(r, h))
  {
    var n: nat, cause: Cause :| Explains(r, n, cause);
    var r' := React(r, h);
    if r'.ended && !r.ended {
      var why := r'.log[|r.log|].cause;
      assert Explains(r', n, why);
    } else if h.ReplyArrives? && !r.ended {
      OneMoreCall(n);
      assert Explains(r', n + 1, cause);
    } else {
      assert Explains(r', n, cause);
    }
  }

  // --- every run ------------------------------------------------------------------------------

  /** Every request is fine, `_requests` holds those registered and not ended, and what a sweep
      found is still to be visited, ended, or marked. */
  ghost predicate Inv(c: Client) {
    && (forall id :: id in c.known ==> RequestOk(c.known[id]))
    && (forall id :: id in c.requests <==> id in c.known && !c.known[id].ended)
    && forall k :: k in c.sweeps ==> SweepOk(c, c.sweeps[k])
  }

  predicate Dealt(r: Request) {
    r.ended || r.closedMeanwhile.Some?
  }

  ghost predicate SweepOk(c: Client, s: Sweep) {
    && (forall id :: id in s.todo ==> id in s.all)
    && forall id :: id in s.all ==> id in c.known && (id in s.todo || Dealt(c.known[id]))
  }

  lemma PutKeeps(c: Client, id: Id, r: Request)
    requires Inv(c) && id in c.known && RequestOk(r)
    requires (c.known[id].ended ==> r.ended) && (Dealt(c.known[id]) ==> Dealt(r))
    ensures Inv(Put(c, id, r))
  {
    var c' := Put(c, id, r);
    forall k | k in c'.sweeps ensures SweepOk(c', c'.sweeps[k]) {
      assert SweepOk(c, c.sweeps[k]);
    }
  }

  lemma DealtStays(r: Request, h: Happening)
    requires CanHappen(r, h)
    ensures r.ended ==> React(r, h).ended
    ensures Dealt(r) ==> Dealt(React(r, h))
  {
  }

  lemma StepKeeps(c: Client, e: Event)
    requires Inv(c) && Enabled(c, e)
    ensures Inv(Step(c, e))
  {
    match e
    case Send(id, hasTimeout) =>
      var c' := Step(c, e);
      assert Explains(NewRequest(hasTimeout), 0, Replied);
      forall k | k in c'.sweeps ensures SweepOk(c', c'.sweeps[k]) {
        assert SweepOk(c, c.sweeps[k]);
      }
    case Happens(id, h) =>
      ReactKeeps(c.known[id], h);
      DealtStays(c.known[id], h);
      PutKeeps(c, id, React(c.known[id], h));
    case EndAll(k, status, order) =>
      var c' := Step(c, e);
      forall j | j in c'.sweeps ensures SweepOk(c', c'.sweeps[j]) {
        if j != k {
          assert SweepOk(c, c.sweeps[j]);
        }
      }
    case VisitNext(k) =>
      VisitKeeps(c, k);
  }

  lemma VisitKeeps(c: Client, k: nat)
    requires Inv(c) && Enabled(c, VisitNext(k))
    ensures Inv(Step(c, VisitNext(k)))
  {
    var s := c.sweeps[k];
    var id, rest := s.todo[0], s.(todo := s.todo[1..]);
    var r := React(c.known[id], Visit(k, s.status));
    ReactKeeps(c.known[id], Visit(k, s.status));
    var c' := Step(c, VisitNext(k));
    assert SweepOk(c, s);
    assert s.todo == [id] + rest.todo;
    assert Dealt(r);
    forall j | j in c'.sweeps ensures SweepOk(c', c'.sweeps[j]) {
      assert SweepOk(c, c.sweeps[j]);
    }
  }

  lemma {:induction false} Invariant(trace: seq<Client>, events: seq<Event>, i: nat)
    requires Run(trace, events) && i < |trace|
    ensures Inv(trace[i])
  {
    if i > 0 {
      var j := i - 1;
      Invariant(trace, events, j);
      assert Enabled(trace[j], events[j]) && trace[j + 1] == Step(trace[j], events[j]);
      StepKeeps(trace[j], events[j]);
    }
  }

  // --- the theorems ---------------------------------------------------------------------------

  /** However the tasks of all requests interleave, the log of every request is a story, and it
      is whole once its wait has ended and the task that ended it has gone on. */
  lemma EveryLogIsAStory(trace: seq<Client>, events: seq<Event>, i: nat, id: Id)
    requires Run(trace, events) && i < |trace| && id in trace[i].known
    ensures var r := trace[i].known[id];
            && (exists told :: Story(r.log, r.ended, told))
            && (r.ended && r.ending.None? ==> WholeStory(r.log))
  {
    Invariant(trace, events, i);
    var r := trace[i].known[id];
    assert RequestOk(r);
    var n: nat, cause: Cause :| Explains(r, n, cause);
    var told := r.ended && cause.WithStatus? && (r.ending.None? || r.ending.value.calling);
    assert Tells(r.log, r.ended, told, n, cause);
    assert Story(r.log, r.ended, told);
    assert r.ended && r.ending.None? ==> Tells(r.log, true, cause.WithStatus?, n, cause);
  }

  /** In a story the wait ends at most once, no reply callback starts after the end, and there is
      at most one status call, after the end and with the status of its cause. */
  lemma StoriesAreSafe(log: seq<Entry>, ended: bool, told: bool, i: nat, j: nat)
    requires Story(log, ended, told) && i < j < |log|
    ensures log[i].Ended? ==> log[i].cause.WithStatus? && log[j] == StatusCall(log[i].cause.status)
    ensures !log[i].StatusCall?
    ensures log[j].StatusCall? ==> log[j - 1].Ended? && log[j - 1].cause == WithStatus(log[j].status)
  {
    var n: nat, cause :| Tells(log, ended, told, n, cause);
    assert Tells(log, ended, told, n, cause);
    assert |log| == n + (if ended then 1 else 0) + (if told then 1 else 0);
    assert forall h :: 0 <= h < n ==> log[h] == ReplyCall;
    assert ended ==> log[n] == Ended(cause);
    assert told ==> log[n + 1] == StatusCall(cause.status);
  }

  /** `_requests` holds exactly the requests that are registered and have not ended. */
  lemma RequestsAreThoseWaiting(trace: seq<Client>, events: seq<Event>, i: nat, id: Id)
    requires Run(trace, events) && i < |trace|
    ensures id in trace[i].requests <==> id in trace[i].known && !trace[i].known[id].ended
  {
    Invariant(trace, events, i);
  }

  /** When `send_request` has finished, the wait has ended if it failed, or if a close or a
      connection loss came by while it was sending. Otherwise the timer still runs, if any. */
  lemma SentRequestsAreDealtWith(trace: seq<Client>, events: seq<Event>, i: nat, id: Id)
    requires Run(trace, events) && i < |trace| && id in trace[i].known
    ensures var r := trace[i].known[id];
            && (r.stage.Raised? ==> r.ended)
            && (r.stage.Returned? && r.closedMeanwhile.Some? ==> r.ended)
            && (r.stage.Returned? && r.hasTimeout && !r.ended ==> r.timer)
  {
    Invariant(trace, events, i);
    assert RequestOk(trace[i].known[id]);
  }

  lemma {:induction false} SweepStays(trace: seq<Client>, events: seq<Event>, i: nat, j: nat, k: nat)
    requires Run(trace, events) && i <= j < |trace| && k in trace[i].sweeps
    ensures k in trace[j].sweeps && trace[j].sweeps[k].all == trace[i].sweeps[k].all
    decreases j
  {
    if i < j {
      var h := j - 1;
      SweepStays(trace, events, i, h, k);
      assert Enabled(trace[h], events[h]) && trace[h + 1] == Step(trace[h], events[h]);
    }
  }

  /** Once a close or a connection loss has gone through its list, every request that was
      waiting when it began has ended, unless it is still being sent, and then it ends by the
      time it has been sent. */
  lemma SweepEndsThemAll(trace: seq<Client>, events: seq<Event>, i: nat, j: nat, k: nat, id: Id)
    requires Run(trace, events) && i < j < |trace|
    requires events[i].EndAll? && events[i].sweep == k && trace[j].sweeps.Keys >= {k} && trace[j].sweeps[k].todo == []
    requires id in trace[i].requests
    ensures id in trace[j].known
    ensures trace[j].known[id].ended || (trace[j].known[id].sending && trace[j].known[id].closedMeanwhile.Some?)
  {
    assert Enabled(trace[i], events[i]) && trace[i + 1] == Step(trace[i], events[i]);
    SweepStays(trace, events, i + 1, j, k);
    Invariant(trace, events, j);
    assert SweepOk(trace[j], trace[j].sweeps[k]);
    assert RequestOk(trace[j].known[id]);
  }

  /** A sweep deals with the requests that were waiting when it began and with no other: one that
      is sent while the sweep waits for a callback is not on its list. */
  lemma SweepListIsASnapshot(trace: seq<Client>, events: seq<Event>, i: nat, j: nat, k: nat, id: Id)
    requires Run(trace, events) && i < j < |trace| && events[i].EndAll? && events[i].sweep == k
    ensures k in trace[j].sweeps
    ensures id in trace[j].sweeps[k].all <==> id in trace[i].requests
    ensures id in trace[j].sweeps[k].todo ==> id in trace[i].requests
  {
    assert Enabled(trace[i], events[i]) && trace[i + 1] == Step(trace[i], events[i]);
    SweepStays(trace, events, i + 1, j, k);
    Invariant(trace, events, j);
    assert SweepOk(trace[j], trace[j].sweeps[k]);
  }

  // a run in which a request outlives the close that it was sent during

  ghost predicate Reached(c: Client) {
    exists trace, events :: Run(trace, events) && trace[|events|] == c
  }

  lemma ReachedOn(c: Client, e: Event, c': Client)
    requires Reached(c) && Enabled(c, e) && c' == Step(c, e)
    ensures Reached(c')
  {
    var trace, events :| Run(trace, events) && trace[|events|] == c;
    var trace', events' := trace + [c'], events + [e];
    forall i | 0 <= i < |events'|
      ensures Enabled(trace'[i], events'[i]) && trace'[i + 1] == Step(trace'[i], events'[i])
    {
      if i < |events| {
        assert trace'[i] == trace[i] && trace'[i + 1] == trace[i + 1] && events'[i] == events[i];
      }
    }
    assert Run(trace', events') && trace'[|events'|] == c';
  }

  /** A request that has been sent, with no timeout. */
  const WAITING := Request(Returned, false, false, None, false, false, 0, None, [])
  const SUBSCRIBED := Request(Publishing, false, true, None, false, false, 0, None, [])

  /** A request that a sweep has ended, at each of its awaits. */
  function EndedBySweep(ending: Option<Ending>, log: seq<Entry>): Request {
    Request(Returned, false, false, None, false, true, 0, ending, log)
  }

  const UNSUBSCRIBING := EndedBySweep(Some(Ending(Visitor(0), Some(Closed), false)), [Ended(WithStatus(Closed))])
  const CALLING := EndedBySweep(Some(Ending(Visitor(0), Some(Closed), true)),
                                [Ended(WithStatus(Closed)), StatusCall(Closed)])
  const CLOSED := EndedBySweep(None, [Ended(WithStatus(Closed)), StatusCall(Closed)])
  const SWEEPING := map[0 := Sweep(Closed, ["a"], {"a"})]
  const SWEPT := map[0 := Sweep(Closed, [], {"a"})]

  lemma UntilSweeping()
    ensures Reached(Client(map["a" := WAITING], {"a"}, SWEEPING))
  {
    assert Run([NEW_CLIENT], []) && [NEW_CLIENT][0] == NEW_CLIENT;
    ReachedOn(NEW_CLIENT, Send("a", false), Client(map["a" := NewRequest(false)], {"a"}, map[]));
    ReachedOn(Client(map["a" := NewRequest(false)], {"a"}, map[]), Happens("a", Subscribed),
              Client(map["a" := SUBSCRIBED], {"a"}, map[]));
    ReachedOn(Client(map["a" := SUBSCRIBED], {"a"}, map[]), Happens("a", Published),
              Client(map["a" := WAITING], {"a"}, map[]));
    ReachedOn(Client(map["a" := WAITING], {"a"}, map[]), EndAll(0, Closed, ["a"]),
              Client(map["a" := WAITING], {"a"}, SWEEPING));
  }

  lemma UntilCalling()
    ensures Reached(Client(map["a" := CALLING], {}, SWEPT))
  {
    UntilSweeping();
    assert ["a"][0] == "a" && ["a"][1..] == [];
    assert WAITING.log + [Ended(WithStatus(Closed))] == UNSUBSCRIBING.log;
    assert SWEEPING[0 := Sweep(Closed, ["a"][1..], {"a"})] == SWEPT;
    ReachedOn(Client(map["a" := WAITING], {"a"}, SWEEPING), VisitNext(0),
              Client(map["a" := UNSUBSCRIBING], {}, SWEPT));
    assert UNSUBSCRIBING.log + [StatusCall(Closed)] == CALLING.log;
    ReachedOn(Client(map["a" := UNSUBSCRIBING], {}, SWEPT), Happens("a", Unsubscribed),
              Client(map["a" := CALLING], {}, SWEPT));
  }

  lemma UntilClosed()
    ensures Reached(Client(map["a" := CLOSED, "b" := WAITING], {"b"}, SWEPT))
  {
    UntilCalling();
    ReachedOn(Client(map["a" := CALLING], {}, SWEPT), Send("b", false),
              Client(map["a" := CALLING, "b" := NewRequest(false)], {"b"}, SWEPT));
    ReachedOn(Client(map["a" := CALLING, "b" := NewRequest(false)], {"b"}, SWEPT), Happens("b", Subscribed),
              Client(map["a" := CALLING, "b" := SUBSCRIBED], {"b"}, SWEPT));
    ReachedOn(Client(map["a" := CALLING, "b" := SUBSCRIBED], {"b"}, SWEPT), Happens("b", Published),
              Client(map["a" := CALLING, "b" := WAITING], {"b"}, SWEPT));
    ReachedOn(Client(map["a" := CALLING, "b" := WAITING], {"b"}, SWEPT), Happens("a", StatusReturns),
              Client(map["a" := CLOSED, "b" := WAITING], {"b"}, SWEPT));
  }

  /** The sweep is over; the request has been sent and goes on waiting, with nothing to end it. */
  ghost predicate Outlives(c: Client, k: nat, id: Id) {
    && k in c.sweeps && c.sweeps[k].status == Closed && c.sweeps[k].todo == [] && !Busy(c, k)
    && id in c.requests && id in c.known
    && var r := c.known[id]; !r.ended && r.stage.Returned? && r.closedMeanwhile.None? && !r.timer
  }

  lemma LaterRequestOutlivesClose()
    ensures exists trace, events :: Run(trace, events) && Outlives(trace[|events|], 0, "b")
  {
    UntilClosed();
    var last := Client(map["a" := CLOSED, "b" := WAITING], {"b"}, SWEPT);
    assert Outlives(last, 0, "b");
    var trace, events :| Run(trace, events) && trace[|events|] == last;
  }
}
