/** Which tags of lost connections stay: over every run, the account of what is read late and what
    is no longer removed. */
module StaleAccount {
  import opened Links
  import opened Subjects
  import opened Routing
  import opened RoutingInvariant
  import opened RoutingRuns
  import opened LostTags

  /** The step leaves `c` tagged with `s`: a "subscribe" is read late, or the tag was to be removed
      and the task that would remove it is cancelled. */
  ghost predicate Keeps(net: Net, e: Event, c: Conn, s: Subject) {
    || (e.ReadOn? && e.conn == c && HasNext(net, c) && NextOf(net, c) == Subscription(s, true))
    || (e.GiveUp? && e.conn == c && s in LeavingOf(net, c) && s in NodeTags(net, c))
  }

  /** The step removes the tag: an "unsubscribe" is read late, or the task gets round to it. */
  ghost predicate Clears(net: Net, e: Event, c: Conn, s: Subject) {
    || (e.ReadOn? && e.conn == c && HasNext(net, c) && NextOf(net, c) == Subscription(s, false))
    || (e.Forget? && e.conn == c && e.subject == s)
  }

  ghost predicate KeptSince(trace: seq<Net>, events: seq<Event>, j: nat, i: nat, c: Conn, s: Subject)
    requires Run(trace, events) && i < |trace|
  {
    j < i && Keeps(trace[j], events[j], c, s) && forall h :: j < h < i ==> !Clears(trace[h], events[h], c, s)
  }

  /** By state `i`, some step has left the lost connection `c` tagged with `s`, and none since has
      removed the tag. */
  ghost predicate Kept(trace: seq<Net>, events: seq<Event>, i: nat, c: Conn, s: Subject)
    requires Run(trace, events) && i < |trace|
  {
    exists j: nat :: KeptSince(trace, events, j, i, c, s)
  }

  lemma KeptNext(trace: seq<Net>, events: seq<Event>, i: nat, c: Conn, s: Subject)
    requires Run(trace, events) && i + 1 < |trace|
    ensures Kept(trace, events, i + 1, c, s) <==>
            Keeps(trace[i], events[i], c, s)
            || (Kept(trace, events, i, c, s) && !Clears(trace[i], events[i], c, s))
  {
    if Keeps(trace[i], events[i], c, s) {
      assert KeptSince(trace, events, i, i + 1, c, s);
    }
    if j: nat :| KeptSince(trace, events, j, i, c, s) && !Clears(trace[i], events[i], c, s) {
      assert KeptSince(trace, events, j, i + 1, c, s);
    }
    if Kept(trace, events, i + 1, c, s) {
      var j: nat :| KeptSince(trace, events, j, i + 1, c, s);
      assert j < i ==> KeptSince(trace, events, j, i, c, s);
    }
  }

  /** A tag of a lost connection is still to be removed or has been kept; one that has been kept
      is there. */
  ghost predicate Accounted(net: Net, c: Conn, s: Subject, kept: bool) {
    && (kept ==> s in NodeTags(net, c))
    && (s in NodeTags(net, c) ==> s in LeavingOf(net, c) || kept)
  }

  lemma AccountStep(net: Net, e: Event, net': Net, c: Conn, s: Subject, kept: bool)
    requires Accounted(net, c, s, kept) && TagsNext(net, e, net', c)
    requires Enabled(net, e)
    ensures Accounted(net', c, s, Keeps(net, e, c, s) || (kept && !Clears(net, e, c, s)))
  {
  }

  lemma KeepsIsLost(net: Net, e: Event, c: Conn, s: Subject)
    requires Enabled(net, e) && Keeps(net, e, c, s)
    ensures c in net.lost.loss
  {
  }

  lemma {:induction false} Account(trace: seq<Net>, events: seq<Event>, i: nat, c: Conn, s: Subject)
    requires Run(trace, events) && i < |trace|
    ensures if c in trace[i].lost.loss then Accounted(trace[i], c, s, Kept(trace, events, i, c, s))
            else !Kept(trace, events, i, c, s)
  {
    if i > 0 {
      var j := i - 1;
      Account(trace, events, j, c, s);
      Invariant(trace, events, j);
      KeptNext(trace, events, j, c, s);
      assert Enabled(trace[j], events[j]) && trace[j + 1] == Step(trace[j], events[j]);
      if Keeps(trace[j], events[j], c, s) {
        KeepsIsLost(trace[j], events[j], c, s);
      }
      if c in trace[j].lost.loss {
        StepNext(trace[j], events[j], c);
        AccountStep(trace[j], events[j], trace[i], c, s, Kept(trace, events, j, c, s));
      } else if c in trace[i].lost.loss {
        StepLoses(trace[j], events[j], c);
      }
    }
  }

  /** Once no tag of it is to be removed any more, a lost connection has exactly the tags that have
      been kept. */
  lemma TagsAreKept(trace: seq<Net>, events: seq<Event>, i: nat, c: Conn, s: Subject)
    requires Run(trace, events) && i < |trace| && c in trace[i].lost.loss
    requires forall t :: t in trace[i].lost.leaving ==> t.conn != c
    ensures s in NodeTags(trace[i], c) <==> Kept(trace, events, i, c, s)
  {
    Account(trace, events, i, c, s);
    LeavingIs(trace[i], c, s);
  }

  // --- a relay loop that drops its own connection -----------------------------------------------------

  /** Until it has closed its connection, it reads nothing. */
  ghost predicate OwnOpen(net: Net, c: Conn) {
    c in net.lost.loss && net.lost.loss[c].task == Relay(c) && !net.lost.loss[c].closed ==>
      NodeTags(net, c) <= LeavingOf(net, c)
  }

  lemma OwnOpenStep(net: Net, e: Event, net': Net, c: Conn)
    requires Enabled(net, e) && c in net.lost.loss && OwnOpen(net, c)
    requires TagsNext(net, e, net', c) && LossNext(net, e, net', c)
    ensures OwnOpen(net', c)
  {
  }

  lemma {:induction false} OwnOpenRuns(trace: seq<Net>, events: seq<Event>, i: nat, c: Conn)
    requires Run(trace, events) && i < |trace|
    ensures OwnOpen(trace[i], c)
  {
    if i > 0 {
      var j := i - 1;
      OwnOpenRuns(trace, events, j, c);
      Invariant(trace, events, j);
      assert Enabled(trace[j], events[j]) && trace[j + 1] == Step(trace[j], events[j]);
      if c in trace[j].lost.loss {
        StepNext(trace[j], events[j], c);
        OwnOpenStep(trace[j], events[j], trace[i], c);
      } else if c in trace[i].lost.loss {
        StepLoses(trace[j], events[j], c);
      }
    }
  }

  /** First the tags go. Then the tags are what the messages read since have made of none, and
      those still to be read will make of them what all together make of none. */
  ghost predicate OwnRead(net: Net, c: Conn, buffer: seq<Message>) {
    && c in net.lost.loss && net.lost.loss[c].closed && net.lost.loss[c].task == Relay(c)
    && var T, L, unread := NodeTags(net, c), LeavingOf(net, c), net.lost.loss[c].unread;
       && (L != {} ==> T <= L && unread == buffer)
       && (L == {} ==> Replay(T, unread) == Replay({}, buffer))
  }

  lemma OwnReadStarts(net: Net, c: Conn, n: nat, net': Net)
    requires Enabled(net, Shut(c, n)) && net.lost.loss[c].task == Relay(c) && OwnOpen(net, c)
    requires TagsNext(net, Shut(c, n), net', c) && LossNext(net, Shut(c, n), net', c)
    ensures OwnRead(net', c, net.chan[c][..n])
  {
    assert LeavingOf(net', c) == {} ==> NodeTags(net', c) == {};
  }

  lemma LeavingNone(net: Net, c: Conn)
    requires forall t :: t in net.lost.leaving ==> t.conn != c
    ensures LeavingOf(net, c) == {}
  {
  }

  lemma OwnReadStep(net: Net, e: Event, net': Net, c: Conn, buffer: seq<Message>)
    requires Enabled(net, e) && OwnRead(net, c, buffer)
    requires TagsNext(net, e, net', c) && LossNext(net, e, net', c)
    ensures OwnRead(net', c, buffer)
  {
    if e.ReadOn? && e.conn == c {
      LeavingNone(net, c);
    } else if e.Forget? && e.conn == c {
      LeavingIs(net, c, e.subject);
      assert LeavingOf(net', c) == {} ==> NodeTags(net', c) == {};
    }
  }

  lemma {:induction false} OwnReadRuns(trace: seq<Net>, events: seq<Event>, j: nat, i: nat, c: Conn, n: nat)
    requires Run(trace, events) && j < i < |trace| && events[j] == Shut(c, n)
    requires Enabled(trace[j], events[j]) && trace[j].lost.loss[c].task == Relay(c)
    ensures OwnRead(trace[i], c, trace[j].chan[c][..n])
    decreases i
  {
    var h := i - 1;
    Invariant(trace, events, h);
    assert Enabled(trace[h], events[h]) && trace[h + 1] == Step(trace[h], events[h]);
    if h > j {
      OwnReadRuns(trace, events, j, h, c, n);
      StepNext(trace[h], events[h], c);
      OwnReadStep(trace[h], events[h], trace[i], c, trace[j].chan[c][..n]);
    } else {
      OwnOpenRuns(trace, events, j, c);
      StepNext(trace[j], events[j], c);
      OwnReadStarts(trace[j], c, n, trace[i]);
    }
  }

  /** The last message for `s` in the queue that changes anything is a "subscribe". */
  ghost predicate EndsSubscribed(queue: seq<Message>, s: Subject) {
    exists i :: 0 <= i < |queue| && queue[i] == Subscription(s, true)
                && forall j :: i < j < |queue| ==> queue[j] != Subscription(s, false)
  }

  lemma {:induction false} ReplayIff(tags: set<Subject>, queue: seq<Message>, s: Subject)
    ensures s in Replay(tags, queue) <==>
            EndsSubscribed(queue, s) || (s in tags && Subscription(s, false) !in queue)
    decreases |queue|
  {
    if queue != [] {
      ReplayIff(Apply(tags, queue[0]), queue[1..], s);
      EndsOf(queue, s);
    }
  }

  lemma EndsOf(queue: seq<Message>, s: Subject)
    requires queue != []
    ensures EndsSubscribed(queue, s) <==>
            || EndsSubscribed(queue[1..], s)
            || (queue[0] == Subscription(s, true) && Subscription(s, false) !in queue[1..])
  {
    var rest := queue[1..];
    if EndsSubscribed(queue, s) {
      var i :| 0 <= i < |queue| && queue[i] == Subscription(s, true)
               && forall j :: i < j < |queue| ==> queue[j] != Subscription(s, false);
      if i > 0 {
        assert rest[i - 1] == Subscription(s, true);
        assert forall j :: i - 1 < j < |rest| ==> rest[j] == queue[j + 1];
      } else {
        assert forall j :: 0 <= j < |rest| ==> rest[j] == queue[j + 1];
      }
    }
    if i :| 0 <= i < |rest| && rest[i] == Subscription(s, true)
            && forall j :: i < j < |rest| ==> rest[j] != Subscription(s, false) {
      assert queue[i + 1] == Subscription(s, true);
      assert forall j :: i + 1 < j < |queue| ==> queue[j] == rest[j - 1];
    }
  }

  /** A relay loop that has closed its own connection with `n` messages buffered, and is done,
      has left the connection tagged with exactly the subjects that those end subscribed. */
  lemma OwnFailureLeaves(trace: seq<Net>, events: seq<Event>, j: nat, i: nat, c: Conn, n: nat, s: Subject)
    requires Run(trace, events) && j < i < |trace| && events[j] == Shut(c, n)
    requires c in trace[j].lost.loss && trace[j].lost.loss[c].task == Relay(c) && c in trace[i].lost.loss
    requires trace[i].lost.loss[c].unread == [] && forall t :: t in trace[i].lost.leaving ==> t.conn != c
    ensures c in trace[j].chan && n <= |trace[j].chan[c]|
    ensures s in NodeTags(trace[i], c) <==> EndsSubscribed(trace[j].chan[c][..n], s)
  {
    assert Enabled(trace[j], events[j]);
    OwnReadRuns(trace, events, j, i, c, n);
    LeavingNone(trace[i], c);
    ReplayIff({}, trace[j].chan[c][..n], s);
  }
}
