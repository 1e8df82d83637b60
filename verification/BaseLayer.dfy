/** The base layer's objects: connections with their send queues, and a node's lists of them. */
module BaseLayer {
  import opened Results
  import opened Utf8
  import opened MessageCodec
  import opened Sequences
  import SQ = SendQueue

  /** `tasks` are the send tasks of the event loop that are not done, `closing` the writer's state.
      `model` is what `SendQueue` knows about the queue. */
  class Connection {
    var sendQueue: seq<Bytes>
    var queuedBytes: int
    var sendTask: Option<SQ.TaskId>
    var tasks: map<SQ.TaskId, SQ.Loop>
    var closing: bool
    ghost var model: SQ.Queue

    ghost predicate Valid()
      reads this
    {
      && sendQueue == model.waiting && queuedBytes == model.queuedBytes && sendTask == model.task
      && tasks == model.loops && closing == model.closing
    }

    constructor ()
      ensures Valid() && model == SQ.NEW_QUEUE
    {
      sendQueue, queuedBytes, sendTask, tasks, closing := [], 0, None, map[], false;
      model := SQ.NEW_QUEUE;
    }

    /** Queue `data`, and start sending unless that is going on. False if there is no room. */
    method Enqueue(data: Bytes, next: SQ.TaskId) returns (ok: bool)
      requires Valid() && next !in tasks && |data| <= MAX_PAYLOAD_LENGTH
      modifies this
      ensures Valid() && ok == (old(queuedBytes) + |data| <= SQ.SEND_QUEUE_LIMIT)
      ensures model == if ok then SQ.Step(old(model), SQ.Relay(data, next)) else old(model)
    {
      if queuedBytes + |data| > SQ.SEND_QUEUE_LIMIT {
        return false;
      }
      model := SQ.Step(model, SQ.Relay(data, next));
      sendQueue := sendQueue + [data];
      queuedBytes := queuedBytes + |data|;
      if sendTask.None? || sendTask.value !in tasks {
        sendTask := Some(next);
        tasks := tasks[next := SQ.Looking];
      }
      ok := true;
    }

    /** The send loop's test, and what it starts to send. */
    method Look(task: SQ.TaskId) returns (data: Option<Bytes>)
      requires Valid() && SQ.Enabled(model, SQ.Look(task))
      modifies this
      ensures Valid() && model == SQ.Step(old(model), SQ.Look(task))
      ensures data == if task in tasks then Some(tasks[task].data) else None
      ensures task in tasks ==> tasks[task].Sending?
    {
      model := SQ.Step(model, SQ.Look(task));
      if sendQueue == [] {
        tasks := tasks - {task};
        return None;
      }
      data := Some(sendQueue[0]);
      tasks := tasks[task := SQ.Sending(sendQueue[0])];
    }

    /** `data` has been sent. The loop goes on, unless the connection was closed meanwhile. */
    method OnSent(task: SQ.TaskId, data: Bytes) returns (goOn: bool)
      requires Valid() && SQ.Inv(model) && SQ.Enabled(model, SQ.Sent(task)) && tasks[task] == SQ.Sending(data)
      modifies this
      ensures Valid() && model == SQ.Step(old(model), SQ.Sent(task)) && goOn == (task in tasks)
    {
      model := SQ.Step(model, SQ.Sent(task));
      if closing {
        tasks := tasks - {task};
        return false;
      }
      sendQueue := sendQueue[1..];
      queuedBytes := queuedBytes - |data|;
      tasks := tasks[task := SQ.Looking];
      goOn := true;
    }

    method Close()
      requires Valid()
      modifies this
      ensures Valid() && model == SQ.Step(old(model), SQ.Close)
      ensures sendQueue == [] && queuedBytes == 0 && closing && sendTask == old(sendTask)
    {
      sendQueue := [];
      queuedBytes := 0;
      closing := true;
      model := SQ.Step(model, SQ.Close);
    }

    ghost method Unlist()
      requires Valid()
      modifies this`model
      ensures Valid() && model == SQ.Step(old(model), SQ.Unlist)
    {
      model := SQ.Step(model, SQ.Unlist);
    }
  }

  function Without(cs: seq<Connection>, c: Connection): seq<Connection> {
    if cs == [] then []
    else if cs[0] == c then cs[1..]
    else [cs[0]] + Without(cs[1..], c)
  }

  lemma {:induction false} WithoutIs(cs: seq<Connection>, c: Connection)
    requires Distinct(cs)
    ensures Distinct(Without(cs, c)) && forall d :: d in Without(cs, c) <==> d in cs && d != c
  {
    if cs != [] {
      WithoutIs(cs[1..], c);
      if cs[0] != c {
        DistinctConcat([cs[0]], Without(cs[1..], c));
      }
    }
  }

  function Except(cs: seq<Connection>, source: Connection): seq<Connection> {
    if cs == [] then []
    else (if cs[0] == source then [] else [cs[0]]) + Except(cs[1..], source)
  }

  lemma {:induction false} ExceptIs(cs: seq<Connection>, source: Connection)
    requires Distinct(cs)
    ensures Distinct(Except(cs, source))
    ensures forall i :: 0 <= i < |Except(cs, source)| ==> Except(cs, source)[i] in cs && Except(cs, source)[i] != source
    ensures forall d :: d in cs && d != source ==> d in Except(cs, source)
  {
    if cs != [] {
      var rest := Except(cs[1..], source);
      ExceptIs(cs[1..], source);
      if cs[0] != source {
        assert forall x :: x in rest ==> x in cs[1..];
        DistinctConcat([cs[0]], rest);
        assert Except(cs, source) == [cs[0]] + rest;
      } else {
        assert Except(cs, source) == rest;
      }
    }
  }

  class BaseLayerNode {
    var upstream: seq<Connection>
    var downstream: seq<Connection>

    /** Every listed connection is in one list, once, and knows that it is listed. */
    ghost predicate Valid()
      reads this, upstream, downstream
    {
      && Distinct(downstream + upstream)
      && forall c :: c in downstream + upstream ==> c.Valid() && c.model.listed
    }

    constructor ()
      ensures Valid() && upstream == [] && downstream == []
    {
      upstream, downstream := [], [];
    }

    /** Every connection but `source`. */
    function PeersExcept(source: Connection): seq<Connection>
      reads this
    {
      Except(downstream + upstream, source)
    }

    /** Drop a failed connection, once, and close it. */
    method HandleConnectionError(c: Connection)
      requires Valid() && c.Valid() && (c.model.listed ==> c in downstream + upstream)
      modifies this, c
      ensures Valid() && c.Valid()
      ensures forall d :: d in downstream + upstream <==> d in old(downstream + upstream) && d != c
      ensures c.model == if old(c.model.listed) then SQ.Step(SQ.Step(old(c.model), SQ.Unlist), SQ.Close)
                         else old(c.model)
    {
      if c in upstream || c in downstream {
        DistinctParts(downstream, upstream);
        WithoutIs(upstream, c);
        WithoutIs(downstream, c);
        if c in upstream {
          upstream := Without(upstream, c);
        } else {
          downstream := Without(downstream, c);
        }
        DistinctConcat(downstream, upstream);
        c.Unlist();
        c.Close();
      }
    }

    /** What `data` does to a target: it is queued, or there is no room and the target is dropped. */
    static ghost function Relayed(q: SQ.Queue, data: Bytes, next: SQ.TaskId): SQ.Queue
      requires SQ.Enabled(q, SQ.Relay(data, next))
    {
      if q.queuedBytes + |data| > SQ.SEND_QUEUE_LIMIT && |data| <= MAX_PAYLOAD_LENGTH && q.listed
      then SQ.Step(SQ.Step(q, SQ.Relay(data, next)), SQ.Close)
      else SQ.Step(q, SQ.Relay(data, next))
    }

    ghost predicate KnowsListed(targets: seq<Connection>)
      reads this, targets
    {
      forall c :: c in targets ==> c.Valid() && (c.model.listed ==> c in downstream + upstream)
    }

    /** Queue `data` on `target`, or drop it if it has no room. */
    method RelayOne(target: Connection, data: Bytes, next: SQ.TaskId)
      requires Valid() && target.Valid() && (target.model.listed ==> target in downstream + upstream)
      requires |data| <= MAX_PAYLOAD_LENGTH && next !in target.tasks
      modifies this, target
      ensures Valid() && target.Valid() && target.model == Relayed(old(target.model), data, next)
      ensures forall d :: d in downstream + upstream <==>
                d in old(downstream + upstream) && (d == target ==> target.model.listed)
    {
      var ok := target.Enqueue(data, next);
      if !ok {
        HandleConnectionError(target);
      }
    }

    /** Queue `data` on every target, without waiting. Too long goes nowhere, and a target without
        room is dropped; the others get it all the same. */
    method RelayTo(targets: seq<Connection>, data: Bytes, next: SQ.TaskId)
      requires Valid() && Distinct(targets) && KnowsListed(targets)
      requires forall c :: c in targets ==> next !in c.tasks
      modifies this, targets
      ensures Valid() && KnowsListed(targets)
      ensures forall c :: c in targets ==> c.model == Relayed(old(c.model), data, next)
      ensures forall d :: d in downstream + upstream <==>
                d in old(downstream + upstream) && (d in targets ==> Relayed(old(d.model), data, next).listed)
    {
      if |data| > MAX_PAYLOAD_LENGTH {
        return;
      }
      for i := 0 to |targets|
        invariant Valid() && KnowsListed(targets)
        invariant forall j :: 0 <= j < i ==> targets[j].model == Relayed(old(targets[j].model), data, next)
        invariant forall j :: i <= j < |targets| ==>
                    targets[j].model == old(targets[j].model) && next !in targets[j].tasks
        invariant forall d :: d in downstream + upstream <==>
                    d in old(downstream + upstream) && (d in targets[..i] ==> Relayed(old(d.model), data, next).listed)
      {
        RelayOne(targets[i], data, next);
      }
      assert targets[..|targets|] == targets;
    }

    /** What a node does by default with data from `source`: every other connection gets it or, if
        it has no room, is dropped, and `source` gets nothing. */
    method RelayToOthers(source: Connection, data: Bytes, next: SQ.TaskId)
      requires Valid() && forall c :: c in downstream + upstream ==> next !in c.tasks
      modifies this, PeersExcept(source)
      ensures Valid()
      ensures forall c :: c in old(downstream + upstream) ==>
                c.model == if c == source then old(c.model) else Relayed(old(c.model), data, next)
      ensures forall c :: c in downstream + upstream <==>
                c in old(downstream + upstream) && (c == source || c.model.listed)
    {
      ExceptIs(downstream + upstream, source);
      RelayTo(PeersExcept(source), data, next);
    }
  }
}
