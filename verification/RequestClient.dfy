/** The request/reply client itself: the objects whose flags guard the races that `RequestReply`
    is about. Each method is the code between two awaits, and does what its event says. */
module RequestClient {
  import opened Results
  import RR = RequestReply

  /** `_PendingRequest`. `model` is what `RequestReply` knows about it. */
  class PendingRequest {
    const replySubject: RR.Id
    var timer: bool
    var sending: bool
    var closedMeanwhile: Option<RR.Status>
    var ended: bool
    ghost var model: RR.Request

    ghost predicate Valid()
      reads this
    {
      && timer == model.timer && sending == model.sending
      && closedMeanwhile == model.closedMeanwhile && ended == model.ended
    }

    constructor (subject: RR.Id, hasTimeout: bool)
      ensures Valid() && replySubject == subject && model == RR.NewRequest(hasTimeout)
    {
      replySubject := subject;
      timer, sending, closedMeanwhile, ended := false, true, None, false;
      model := RR.NewRequest(hasTimeout);
    }

    /** A reply arrives: whether to call the callback with it. */
    method OnReply() returns (call: bool)
      requires Valid()
      modifies this`model
      ensures Valid() && model == RR.React(old(model), RR.ReplyArrives)
      ensures call <==> model.log == old(model.log) + [RR.ReplyCall]
    {
      call := !ended;
      model := RR.React(model, RR.ReplyArrives);
    }

    /** The subscription has been sent: start the timer, before publishing. */
    method OnSubscribed(hasTimeout: bool)
      requires Valid() && RR.CanHappen(model, RR.Subscribed) && hasTimeout == model.hasTimeout
      modifies this
      ensures Valid() && model == RR.React(old(model), RR.Subscribed)
    {
      if hasTimeout {
        timer := true;
      }
      model := RR.React(model, RR.Subscribed);
    }
  }

  class RequestReplyClient {
    var requests: map<RR.Id, PendingRequest>

    /** Every registered request waits, under its own reply subject. */
    ghost predicate Valid()
      reads this, requests.Values
    {
      forall id :: id in requests ==>
        requests[id].replySubject == id && requests[id].Valid() && !requests[id].ended
    }

    constructor ()
      ensures Valid() && requests == map[]
    {
      requests := map[];
    }

    /** `id` has not been used before. */
    method Register(id: RR.Id, hasTimeout: bool) returns (request: PendingRequest)
      requires Valid() && id !in requests
      modifies this
      ensures Valid() && fresh(request) && request.Valid() && request.model == RR.NewRequest(hasTimeout)
      ensures requests == old(requests)[id := request]
    {
      request := new PendingRequest(id, hasTimeout);
      requests := requests[id := request];
    }

    /** Done exactly once per request. */
    method EndWait(request: PendingRequest, ghost cause: RR.Cause, ghost ender: RR.Ender)
      requires Valid() && request.Valid() && !request.ended
      modifies this, request
      ensures Valid() && request.Valid() && request.model == RR.EndWait(old(request.model), cause, ender)
      ensures requests == old(requests) - {request.replySubject}
    {
      request.ended := true;
      requests := requests - {request.replySubject};
      request.timer := false;
      request.model := RR.EndWait(request.model, cause, ender);
    }

    /** The callback has returned from a reply; `done` is false too if it raised. */
    method OnReplyReturned(request: PendingRequest, done: bool)
      requires Valid() && request.Valid() && RR.CanHappen(request.model, RR.ReplyReturns(done))
      modifies this, request
      ensures Valid() && request.Valid() && request.model == RR.React(old(request.model), RR.ReplyReturns(done))
      ensures requests == old(requests) - if request.ended && !old(request.ended) then {request.replySubject} else {}
    {
      request.model := request.model.(calls := request.model.calls - 1);
      if done && !request.ended {
        EndWait(request, RR.Replied, RR.OtherTask);
      }
    }

    method OnTimerFires(request: PendingRequest)
      requires Valid() && request.Valid() && RR.CanHappen(request.model, RR.TimerFires)
      modifies this, request
      ensures Valid() && request.Valid() && request.model == RR.React(old(request.model), RR.TimerFires)
      ensures requests == old(requests) - if request.ended && !old(request.ended) then {request.replySubject} else {}
    {
      request.timer := false;
      request.model := request.model.(timer := false);
      if !request.ended {
        EndWait(request, RR.WithStatus(RR.TimedOut), RR.OtherTask);
      }
    }

    method CancelRequest(id: RR.Id)
      requires Valid()
      modifies this, requests.Values
      ensures Valid() && requests == old(requests) - {id}
      ensures forall k :: k in old(requests) ==>
                var request := old(requests)[k];
                request.model == if k == id then RR.React(old(request.model), RR.Cancel) else old(request.model)
    {
      if id in requests && !requests[id].ended {
        EndWait(requests[id], RR.Cancelled, RR.OtherTask);
      }
    }

    /** A close or a connection loss gets to `request`, which it found waiting earlier on. */
    method Visit(request: PendingRequest, status: RR.Status, ghost sweep: nat)
      requires Valid() && request.Valid()
      modifies this, request
      ensures Valid() && request.Valid() && request.model == RR.React(old(request.model), RR.Visit(sweep, status))
      ensures requests == old(requests) - if request.ended && !old(request.ended) then {request.replySubject} else {}
    {
      if !request.ended {
        if request.sending {
          request.closedMeanwhile := Some(status);
          request.model := RR.React(request.model, RR.Visit(sweep, status));
        } else {
          EndWait(request, RR.WithStatus(status), RR.Visitor(sweep));
        }
      }
    }

    /** The request has been published: what is left of `send_request`. */
    method OnPublished(request: PendingRequest)
      requires Valid() && request.Valid() && RR.CanHappen(request.model, RR.Published)
      modifies this, request
      ensures Valid() && request.Valid() && request.model == RR.React(old(request.model), RR.Published)
      ensures requests == old(requests) - if request.ended && !old(request.ended) then {request.replySubject} else {}
    {
      request.sending := false;
      request.model := request.model.(sending := false);
      if request.closedMeanwhile.Some? && !request.ended {
        EndWait(request, RR.WithStatus(request.closedMeanwhile.value), RR.Sender);
        request.model := request.model.(stage := RR.Closing);
      } else {
        request.model := request.model.(stage := RR.Returned);
      }
    }

    /** Subscribing or publishing failed. `raised`: nothing to wait for, the error goes out. */
    method OnFails(request: PendingRequest) returns (raised: bool)
      requires Valid() && request.Valid() && RR.CanHappen(request.model, RR.Fails)
      modifies this, request
      ensures Valid() && request.Valid() && request.model == RR.React(old(request.model), RR.Fails)
      ensures requests == old(requests) - if request.ended && !old(request.ended) then {request.replySubject} else {}
      ensures raised <==> request.model.stage.Raised?
    {
      raised := request.ended;
      if !request.ended {
        EndWait(request, RR.SendFailed, RR.Sender);
        request.model := request.model.(stage := RR.Failing);
      } else {
        request.sending := false;
        request.model := request.model.(sending := false, stage := RR.Raised);
      }
    }
  }
}
