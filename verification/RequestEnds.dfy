/** What ends the wait for replies, and what its caller is told: which event adds which entry to the
    log of a request, in every run. */
module RequestEnds {
  import opened Results
  import opened RequestReply

  // --- one happening ------------------------------------------------------------------------

  /** The log gets this entry and no other. */
  predicate Gains(r: Request, r': Request, entry: Entry) {
    r'.log == r.log + [entry]
  }

  /** A close or connection loss with this status ends the wait: at once, or, if it found the request
      being sent, when that is done. */
  predicate EndedAs(r: Request, h: Happening, status: Status) {
    || (h.Visit? && h.status == status && !r.sending)
    || (h.Published? && r.closedMeanwhile == Some(status))
  }

  ghost predicate EndNext(r: Request, h: Happening, r': Request) {
    && (Gains(r, r', Ended(Replied)) <==> h == ReplyReturns(true) && !r.ended)
    && (Gains(r, r', Ended(Cancelled)) <==> h == Cancel && !r.ended)
    && (Gains(r, r', Ended(SendFailed)) <==> h == Fails && !r.ended)
    && forall s :: Gains(r, r', Ended(WithStatus(s))) <==>
                   !r.ended && ((h == TimerFires && s == TimedOut) || EndedAs(r, h, s))
  }

  ghost predicate CallNext(r: Request, h: Happening, r': Request) {
    && (Gains(r, r', ReplyCall) <==> h == ReplyArrives && !r.ended)
    && (forall s :: Gains(r, r', StatusCall(s)) <==>
                    h == Unsubscribed && r.ending.Some? && r.ending.value.status == Some(s))
    && (r'.log == r.log || exists entry :: Gains(r, r', entry))
    && r'.calls == r.calls + (if Gains(r, r', ReplyCall) then 1 else 0) - (if h.ReplyReturns? then 1 else 0)
  }

  /** The entry that a happening adds to the log. */
  function NewEntry(r: Request, h: Happening): Option<Entry> {
    match h
    case ReplyArrives => if r.ended then None else Some(ReplyCall)
    case ReplyReturns(done) => if done && !r.ended then Some(Ended(Replied)) else None
    case Published =>
      if r.closedMeanwhile.Some? && !r.ended then Some(Ended(WithStatus(r.closedMeanwhile.value))) else None
    case Fails => if r.ended then None else Some(Ended(SendFailed))
    case TimerFires => if r.ended then None else Some(Ended(WithStatus(TimedOut)))
    case Cancel => if r.ended then None else Some(Ended(Cancelled))
    case Visit(_, status) => if r.ended || r.sending then None else Some(Ended(WithStatus(status)))
    case Unsubscribed =>
      if r.ending.Some? && r.ending.value.status.Some? then Some(StatusCall(r.ending.value.status.value)) else None
    case _ => None
  }

  lemma LogIs(r: Request, h: Happening)
    requires CanHappen(r, h)
    ensures React(r, h).log == r.log + if NewEntry(r, h).Some? then [NewEntry(r, h).value] else []
  {
  }

  lemma GainsIs(r: Request, r': Request, h: Happening, entry: Entry)
    requires CanHappen(r, h) && r' == React(r, h)
    ensures Gains(r, r', entry) <==> NewEntry(r, h) == Some(entry)
  {
    LogIs(r, h);
    if Gains(r, r', entry) {
      assert r'.log[|r.log|] == entry;
    }
  }

  lemma EndStep(r: Request, h: Happening)
    requires CanHappen(r, h)
    ensures EndNext(r, h, React(r, h))
  {
    var r' := React(r, h);
    forall entry ensures Gains(r, r', entry) <==> NewEntry(r, h) == Some(entry) {
      GainsIs(r, r', h, entry);
    }
    EndEntries(r, h, r');
  }

  lemma EndEntries(r: Request, h: Happening, r': Request)
    requires forall entry :: Gains(r, r', entry) <==> NewEntry(r, h) == Some(entry)
    ensures EndNext(r, h, r')
  {
  }

  lemma CallStep(r: Request, h: Happening)
    requires CanHappen(r, h)
    ensures CallNext(r, h, React(r, h))
  {
    var r' := React(r, h);
    forall entry ensures Gains(r, r', entry) <==> NewEntry(r, h) == Some(entry) {
      GainsIs(r, r', h, entry);
    }
    LogIs(r, h);
    CallsStep(r, h);
    CallEntries(r, h, r');
  }

  lemma CallsStep(r: Request, h: Happening)
    requires CanHappen(r, h)
    ensures React(r, h).calls == r.calls + (if NewEntry(r, h) == Some(ReplyCall) then 1 else 0)
                                 - (if h.ReplyReturns? then 1 else 0)
  {
  }

  lemma CallEntries(r: Request, h: Happening, r': Request)
    requires forall entry :: Gains(r, r', entry) <==> NewEntry(r, h) == Some(entry)
    requires r'.log == r.log + if NewEntry(r, h).Some? then [NewEntry(r, h).value] else []
    requires r'.calls == r.calls + (if NewEntry(r, h) == Some(ReplyCall) then 1 else 0)
                         - (if h.ReplyReturns? then 1 else 0)
    ensures CallNext(r, h, r')
  {
  }

  // --- every run ------------------------------------------------------------------------------

  /** The event is that a close or connection loss with this status gets to the request. */
  predicate VisitedAs(c: Client, e: Event, id: Id, status: Status) {
    && e.VisitNext? && e.sweep in c.sweeps && c.sweeps[e.sweep].status == status
    && c.sweeps[e.sweep].todo != [] && c.sweeps[e.sweep].todo[0] == id
  }

  /** It finds the request waiting and still being sent. */
  predicate Marks(c: Client, e: Event, id: Id, status: Status) {
    VisitedAs(c, e, id, status) && id in c.known && c.known[id].sending && !c.known[id].ended
  }

  /** What the event is for the request. */
  function What(c: Client, e: Event, id: Id): Option<Happening> {
    if e.Happens? && e.id == id then Some(e.what)
    else if e.VisitNext? && e.sweep in c.sweeps && c.sweeps[e.sweep].todo != [] && c.sweeps[e.sweep].todo[0] == id
    then Some(Visit(e.sweep, c.sweeps[e.sweep].status))
    else None
  }

  lemma NextIs(c: Client, e: Event, id: Id)
    requires Enabled(c, e) && id in c.known
    ensures id in Step(c, e).known
    ensures match What(c, e, id)
            case None => Step(c, e).known[id] == c.known[id]
            case Some(h) => CanHappen(c.known[id], h) && Step(c, e).known[id] == React(c.known[id], h)
  {
  }

  lemma AtStep(trace: seq<Client>, events: seq<Event>, i: nat)
    requires Run(trace, events) && i < |events|
    ensures Enabled(trace[i], events[i]) && trace[i + 1] == Step(trace[i], events[i])
  {
  }

  /** A sweep has the status of its close or connection loss, never that of a timeout. */
  lemma {:induction false} SweepHasStatus(trace: seq<Client>, events: seq<Event>, i: nat, k: nat) returns (j: nat)
    requires Run(trace, events) && i < |trace| && k in trace[i].sweeps
    ensures j < i && events[j].EndAll? && events[j].sweep == k && events[j].status == trace[i].sweeps[k].status
    ensures !trace[i].sweeps[k].status.TimedOut?
    ensures forall id :: id in trace[i].sweeps[k].todo ==> id in trace[j].requests
  {
    AtStep(trace, events, i - 1);
    var e := events[i - 1];
    if e.EndAll? && e.sweep == k {
      j := i - 1;
    } else {
      j := SweepHasStatus(trace, events, i - 1, k);
    }
  }

  /** A mark is that of the last close or connection loss that found the request being sent. */
  ghost predicate LastMark(trace: seq<Client>, events: seq<Event>, i: nat, id: Id, status: Status, j: nat)
    requires i <= |events| < |trace|
  {
    && j < i && Marks(trace[j], events[j], id, status)
    && forall h, s :: j < h < i ==> !Marks(trace[h], events[h], id, s)
  }

  lemma MarkedBy(r: Request, h: Happening)
    requires CanHappen(r, h)
    ensures React(r, h).closedMeanwhile
            == if h.Visit? && r.sending && !r.ended then Some(h.status) else r.closedMeanwhile
  {
  }

  lemma MarkStep(c: Client, e: Event, id: Id, status: Status)
    requires Enabled(c, e) && id in c.known
    ensures id in Step(c, e).known
    ensures Step(c, e).known[id].closedMeanwhile == Some(status) <==>
            || Marks(c, e, id, status)
            || (c.known[id].closedMeanwhile == Some(status) && forall s :: !Marks(c, e, id, s))
  {
    NextIs(c, e, id);
    match What(c, e, id)
    case None =>
    case Some(h) =>
      MarkedBy(c.known[id], h);
      if h.Visit? && c.known[id].sending && !c.known[id].ended {
        assert Marks(c, e, id, h.status);
      }
  }

  lemma NoMarkYet(trace: seq<Client>, events: seq<Event>, i: nat, id: Id)
    requires Run(trace, events) && i < |trace| && id !in trace[i].known
    ensures forall j, s :: 0 <= j < i ==> !Marks(trace[j], events[j], id, s)
  {
    forall j, s | 0 <= j < i ensures !Marks(trace[j], events[j], id, s) {
      if id in trace[j].known {
        KnownStays(trace, events, j, i, id);
      }
    }
  }

  lemma {:induction false} KnownStays(trace: seq<Client>, events: seq<Event>, j: nat, i: nat, id: Id)
    requires Run(trace, events) && j <= i < |trace| && id in trace[j].known
    ensures id in trace[i].known
    decreases i
  {
    if j < i {
      KnownStays(trace, events, j, i - 1, id);
      AtStep(trace, events, i - 1);
      NextIs(trace[i - 1], events[i - 1], id);
    }
  }

  /** In every run, a request is marked with a status exactly if the last close or connection loss
      that found it being sent has that status. */
  lemma {:induction false} MarkIsLast(trace: seq<Client>, events: seq<Event>, i: nat, id: Id, status: Status)
    requires Run(trace, events) && i < |trace| && id in trace[i].known
    ensures trace[i].known[id].closedMeanwhile == Some(status) <==>
            exists j: nat :: LastMark(trace, events, i, id, status, j)
  {
    var i' := i - 1;
    AtStep(trace, events, i');
    if id !in trace[i'].known {
      NoMarkYet(trace, events, i', id);
    } else {
      MarkIsLast(trace, events, i', id, status);
      MarkStep(trace[i'], events[i'], id, status);
      if Marks(trace[i'], events[i'], id, status) {
        assert LastMark(trace, events, i, id, status, i');
      } else if forall s :: !Marks(trace[i'], events[i'], id, s) {
        if j: nat :| LastMark(trace, events, i', id, status, j) {
          assert LastMark(trace, events, i, id, status, j);
        }
      }
      if j: nat :| LastMark(trace, events, i, id, status, j) {
        assert j < i' ==> LastMark(trace, events, i', id, status, j);
      }
    }
  }

  lemma NotTimedOut(trace: seq<Client>, events: seq<Event>, i: nat, id: Id)
    requires Run(trace, events) && i < |events| && id in trace[i].known
    ensures !VisitedAs(trace[i], events[i], id, TimedOut) && trace[i].known[id].closedMeanwhile != Some(TimedOut)
  {
    if VisitedAs(trace[i], events[i], id, TimedOut) {
      var j := SweepHasStatus(trace, events, i, events[i].sweep);
    }
    MarkIsLast(trace, events, i, id, TimedOut);
    if j: nat :| LastMark(trace, events, i, id, TimedOut, j) {
      var j' := SweepHasStatus(trace, events, j, events[j].sweep);
    }
  }

  /** In every run, every end of a wait has its one cause: a reply callback that returned true, the
      timer, a cancel, a failed send, or a close or connection loss that found the request, which
      ends one that is still being sent once it has been sent. Nothing else ends a wait, and nothing
      ends it twice. */
  lemma EndsHaveOneCause(trace: seq<Client>, events: seq<Event>, i: nat, id: Id)
    requires Run(trace, events) && i < |events| && id in trace[i].known
    ensures id in trace[i + 1].known
    ensures var r, r', e := trace[i].known[id], trace[i + 1].known[id], events[i];
            && (Gains(r, r', Ended(Replied)) <==> e == Happens(id, ReplyReturns(true)) && !r.ended)
            && (Gains(r, r', Ended(WithStatus(TimedOut))) <==> e == Happens(id, TimerFires) && !r.ended)
            && (Gains(r, r', Ended(Cancelled)) <==> e == Happens(id, Cancel) && !r.ended)
            && (Gains(r, r', Ended(SendFailed)) <==> e == Happens(id, Fails) && !r.ended)
            && forall s: Status :: !s.TimedOut? ==>
                 (Gains(r, r', Ended(WithStatus(s))) <==>
                    !r.ended && (|| (VisitedAs(trace[i], e, id, s) && !r.sending)
                                 || (e == Happens(id, Published)
                                     && exists j: nat :: LastMark(trace, events, i, id, s, j))))
    ensures var r, r' := trace[i].known[id], trace[i + 1].known[id];
            r'.ended <==> r.ended || exists cause :: Gains(r, r', Ended(cause))
  {
    var c, e := trace[i], events[i];
    AtStep(trace, events, i);
    NextIs(c, e, id);
    NotTimedOut(trace, events, i, id);
    forall s ensures c.known[id].closedMeanwhile == Some(s) <==> exists j: nat :: LastMark(trace, events, i, id, s, j) {
      MarkIsLast(trace, events, i, id, s);
    }
    EndsInStep(c, e, id);
  }

  lemma EndsInStep(c: Client, e: Event, id: Id)
    requires Enabled(c, e) && id in c.known && id in Step(c, e).known
    ensures var r, r' := c.known[id], Step(c, e).known[id];
            && (Gains(r, r', Ended(Replied)) <==> e == Happens(id, ReplyReturns(true)) && !r.ended)
            && (Gains(r, r', Ended(Cancelled)) <==> e == Happens(id, Cancel) && !r.ended)
            && (Gains(r, r', Ended(SendFailed)) <==> e == Happens(id, Fails) && !r.ended)
            && (forall s :: Gains(r, r', Ended(WithStatus(s))) <==>
                    !r.ended && (|| (e == Happens(id, TimerFires) && s == TimedOut)
                                 || (VisitedAs(c, e, id, s) && !r.sending)
                                 || (e == Happens(id, Published) && r.closedMeanwhile == Some(s))))
            && (r'.ended <==> r.ended || exists cause :: Gains(r, r', Ended(cause)))
  {
    NextIs(c, e, id);
    match What(c, e, id)
    case None =>
    case Some(h) =>
      EndStep(c.known[id], h);
      OnlyEnds(c.known[id], h);
  }

  lemma OnlyEnds(r: Request, h: Happening)
    requires CanHappen(r, h)
    ensures React(r, h).ended <==> r.ended || exists cause :: Gains(r, React(r, h), Ended(cause))
  {
    var r' := React(r, h);
    if r'.ended && !r.ended {
      assert Gains(r, r', Ended(r'.log[|r.log|].cause));
    }
    if cause :| Gains(r, r', Ended(cause)) {
      assert r'.log[|r.log|] == Ended(cause);
    }
  }

  /** In every run, the callback is called with every reply that arrives while the wait goes on, and
      once with the status when the client has unsubscribed; it is called for nothing else, and the
      calls in progress are those that have not returned. */
  lemma CallsHaveOneCause(trace: seq<Client>, events: seq<Event>, i: nat, id: Id)
    requires Run(trace, events) && i < |events| && id in trace[i].known
    ensures id in trace[i + 1].known
    ensures var r, r', e := trace[i].known[id], trace[i + 1].known[id], events[i];
            && (Gains(r, r', ReplyCall) <==> e == Happens(id, ReplyArrives) && !r.ended)
            && (forall s :: Gains(r, r', StatusCall(s)) <==>
                  e == Happens(id, Unsubscribed) && r.ending.Some? && r.ending.value.status == Some(s))
            && (r'.log == r.log || exists entry :: Gains(r, r', entry))
            && r'.calls == r.calls + (if Gains(r, r', ReplyCall) then 1 else 0)
                           - (if e.Happens? && e.id == id && e.what.ReplyReturns? then 1 else 0)
  {
    var c, e := trace[i], events[i];
    AtStep(trace, events, i);
    NextIs(c, e, id);
    match What(c, e, id)
    case None =>
    case Some(h) => CallStep(c.known[id], h);
  }

  // --- the sender, the timer and the sweeps ------------------------------------------------------

  ghost predicate Happened(events: seq<Event>, i: nat, e: Event)
    requires i <= |events|
  {
    e in events[..i]
  }

  lemma HappenedNext(events: seq<Event>, i: nat, e: Event)
    requires i < |events|
    ensures Happened(events, i + 1, e) <==> Happened(events, i, e) || events[i] == e
  {
    assert events[..i + 1] == events[..i] + [events[i]];
  }

  /** Where `send_request` is, by what has happened. */
  ghost predicate SenderOk(events: seq<Event>, i: nat, id: Id, r: Request)
    requires i <= |events|
  {
    var subscribed := Happened(events, i, Happens(id, Subscribed));
    var published := Happened(events, i, Happens(id, Published));
    var failed := Happened(events, i, Happens(id, Fails));
    && (r.stage.Subscribing? <==> !subscribed && !failed)
    && (r.stage.Publishing? <==> subscribed && !published && !failed)
    && (r.stage.Closing? || r.stage.Returned? <==> published)
    && (r.stage.Failing? || r.stage.Raised? <==> failed)
    && (r.hasTimeout <==> Happened(events, i, RequestReply.Send(id, true)))
    && (r.timer ==> r.hasTimeout && subscribed)
    && (r.stage.Closing? || r.stage.Failing? <==> r.ending.Some? && r.ending.value.ender.Sender?)
  }

  /** Nothing has happened to a request that has not been sent. */
  ghost predicate Unheard(events: seq<Event>, i: nat, id: Id)
    requires i <= |events|
  {
    forall h :: 0 <= h < i ==> (events[h].Happens? || events[h].Send?) ==> events[h].id != id
  }

  lemma UnheardUntilSent(trace: seq<Client>, events: seq<Event>, i: nat, id: Id)
    requires Run(trace, events) && i < |trace| && id !in trace[i].known
    ensures Unheard(events, i, id)
  {
    forall h | 0 <= h < i && (events[h].Happens? || events[h].Send?) ensures events[h].id != id {
      AtStep(trace, events, h);
      if events[h].id == id {
        KnownStays(trace, events, h + 1, i, id);
      }
    }
  }

  lemma SentFirst(events: seq<Event>, i: nat, id: Id, hasTimeout: bool)
    requires i < |events| && Unheard(events, i, id) && events[i] == RequestReply.Send(id, hasTimeout)
    ensures SenderOk(events, i + 1, id, NewRequest(hasTimeout))
  {
    assert forall h :: Happens(id, h) !in events[..i];
    assert forall b :: RequestReply.Send(id, b) !in events[..i];
    assert events[..i + 1] == events[..i] + [events[i]];
  }

  lemma SenderNext(events: seq<Event>, i: nat, id: Id, r: Request, h: Happening)
    requires i < |events| && SenderOk(events, i, id, r) && CanHappen(r, h)
    requires (events[i] == Happens(id, h) && !h.Visit?) || (h.Visit? && events[i].VisitNext?)
    requires StageOk(r) && StageOk(React(r, h))
    ensures SenderOk(events, i + 1, id, React(r, h))
  {
    HappenedNext(events, i, Happens(id, Subscribed));
    HappenedNext(events, i, Happens(id, Published));
    HappenedNext(events, i, Happens(id, Fails));
    HappenedNext(events, i, RequestReply.Send(id, true));
  }

  lemma SenderSame(events: seq<Event>, i: nat, id: Id, r: Request)
    requires i < |events| && SenderOk(events, i, id, r)
    requires !(events[i].Happens? && events[i].id == id) && !(events[i].Send? && events[i].id == id)
    ensures SenderOk(events, i + 1, id, r)
  {
    HappenedNext(events, i, Happens(id, Subscribed));
    HappenedNext(events, i, Happens(id, Published));
    HappenedNext(events, i, Happens(id, Fails));
    HappenedNext(events, i, RequestReply.Send(id, true));
  }

  /** In every run: the sending of a request goes from subscribing to publishing to its end, it raises
      exactly if subscribing or publishing has failed, it waits for the end of the wait that it has
      itself brought about, and a timer runs only for a request that was sent with a timeout and has
      been subscribed for. */
  lemma {:induction false} SenderFollows(trace: seq<Client>, events: seq<Event>, i: nat, id: Id)
    requires Run(trace, events) && i < |trace| && id in trace[i].known
    ensures SenderOk(events, i, id, trace[i].known[id])
  {
    var j := i - 1;
    AtStep(trace, events, j);
    if id !in trace[j].known {
      UnheardUntilSent(trace, events, j, id);
      SentFirst(events, j, id, events[j].hasTimeout);
    } else {
      SenderFollows(trace, events, j, id);
      NextIs(trace[j], events[j], id);
      Invariant(trace, events, j);
      assert RequestOk(trace[j].known[id]);
      match What(trace[j], events[j], id)
      case None => SenderSame(events, j, id, trace[j].known[id]);
      case Some(h) =>
        ReactKeeps(trace[j].known[id], h);
        SenderNext(events, j, id, trace[j].known[id], h);
    }
  }

  /** The sweep waits for the end of this wait. */
  predicate WaitedFor(r: Request, k: nat) {
    r.ended && r.ending.Some? && r.ending.value.ender == Visitor(k) && r.ending.value.status.Some?
  }

  lemma WaitedForOn(r: Request, h: Happening, k: nat)
    requires CanHappen(r, h) && WaitedFor(r, k) && !h.StatusReturns?
    ensures WaitedFor(React(r, h), k)
  {
  }

  lemma {:induction false} WaitsUntilReturned(trace: seq<Client>, events: seq<Event>, i: nat, j: nat, k: nat, id: Id)
    requires Run(trace, events) && i < j < |trace| && id in trace[i].known
    requires events[i] == VisitNext(k) && VisitedAs(trace[i], events[i], id, trace[i].sweeps[k].status)
    requires !trace[i].known[id].ended && !trace[i].known[id].sending
    requires forall h :: i < h < j ==> events[h] != Happens(id, StatusReturns)
    ensures id in trace[j].known && WaitedFor(trace[j].known[id], k)
    decreases j
  {
    AtStep(trace, events, j - 1);
    if j - 1 > i {
      WaitsUntilReturned(trace, events, i, j - 1, k, id);
    }
    NextIs(trace[j - 1], events[j - 1], id);
    if j - 1 > i {
      match What(trace[j - 1], events[j - 1], id)
      case None =>
      case Some(h) => WaitedForOn(trace[j - 1].known[id], h, k);
    }
  }

  /** In every run, a sweep that has ended a wait goes on to its next request only after the callback
      of the ended one, told the status, has returned. */
  lemma SweepWaitsForCallback(trace: seq<Client>, events: seq<Event>, i: nat, j: nat, k: nat, id: Id)
    requires Run(trace, events) && i < j < |events| && id in trace[i].known
    requires events[i] == VisitNext(k) && events[j] == VisitNext(k)
    requires VisitedAs(trace[i], events[i], id, trace[i].sweeps[k].status)
    requires !trace[i].known[id].ended && !trace[i].known[id].sending
    ensures exists h :: i < h < j && events[h] == Happens(id, StatusReturns)
  {
    if forall h :: i < h < j ==> events[h] != Happens(id, StatusReturns) {
      WaitsUntilReturned(trace, events, i, j, k, id);
      AtStep(trace, events, j);
      assert Busy(trace[j], k);
    }
  }

  /** Whoever ends a wait waits for what is left to do: the sender if its send has failed or found the
      request marked, the sweep that got to the request, or another task. */
  lemma EnderIs(trace: seq<Client>, events: seq<Event>, i: nat, id: Id)
    requires Run(trace, events) && i < |events| && id in trace[i].known && !trace[i].known[id].ended
    ensures id in trace[i + 1].known
    ensures trace[i + 1].known[id].ended ==> events[i].VisitNext? || events[i].Happens?
    ensures var r', e := trace[i + 1].known[id], events[i];
            r'.ended ==> r'.ending.Some? && !r'.ending.value.calling
                         && r'.ending.value.ender == if e.VisitNext? then Visitor(e.sweep)
                                                     else if e.what.Fails? || e.what.Published? then Sender
                                                     else OtherTask
  {
    AtStep(trace, events, i);
    NextIs(trace[i], events[i], id);
    match What(trace[i], events[i], id)
    case None =>
    case Some(h) => EnderOf(trace[i].known[id], h);
  }

  lemma EnderOf(r: Request, h: Happening)
    requires CanHappen(r, h) && !r.ended
    ensures var r' := React(r, h);
            r'.ended ==> r'.ending.Some? && !r'.ending.value.calling
                         && r'.ending.value.ender == if h.Visit? then Visitor(h.sweep)
                                                     else if h.Fails? || h.Published? then Sender else OtherTask
  {
  }

  /** The task that has ended a wait goes on when it has unsubscribed, if there is no status to tell,
      and else when the callback has returned; no other event frees it. */
  lemma EnderGoesOn(trace: seq<Client>, events: seq<Event>, i: nat, id: Id)
    requires Run(trace, events) && i < |events| && id in trace[i].known && trace[i].known[id].ending.Some?
    ensures id in trace[i + 1].known
    ensures var r, r', e := trace[i].known[id], trace[i + 1].known[id], events[i];
            r'.ending.None? <==>
              || (e == Happens(id, Unsubscribed) && r.ending.value.status.None?)
              || e == Happens(id, StatusReturns)
  {
    AtStep(trace, events, i);
    Invariant(trace, events, i);
    NextIs(trace[i], events[i], id);
    assert RequestOk(trace[i].known[id]);
    match What(trace[i], events[i], id)
    case None =>
    case Some(h) => EnderNext(trace[i].known[id], h);
  }

  lemma EnderNext(r: Request, h: Happening)
    requires RequestOk(r) && CanHappen(r, h) && r.ending.Some?
    ensures React(r, h).ending.None? <==> (h == Unsubscribed && r.ending.value.status.None?) || h == StatusReturns
  {
    var n: nat, cause: Cause :| Explains(r, n, cause);
  }
}
