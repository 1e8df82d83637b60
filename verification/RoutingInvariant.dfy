/** What every step of subscription routing keeps, on any topology: what a node last decided to tell
    a neighbour is what that needs to know, and it will know what it was told once its channel has
    drained. */
module RoutingInvariant {
  import opened Links
  import opened Results
  import opened Subjects
  import opened Routing

  // --- the invariant ----------------------------------------------------------

  /** Some connection other than `c` subscribes, so messages for `s` are wanted from `c`. */
  ghost predicate Wanted(r: Router, c: Conn, s: Subject) {
    exists d :: d != c && Tag(d, s) in r.tags
  }

  /** What was last decided to tell an active neighbour is "subscribed" exactly when it is wanted; a
      pending one was told nothing. */
  ghost predicate ToldOk(net: Net, r: Router, c: Conn) {
    && c in net.told && c in net.decided && c.Peer() in net.chan
    && if c in r.pending then net.told[c] == {} && net.decided[c] == {} && net.chan[c.Peer()] == []
       else forall s :: s in net.decided[c] <==> Wanted(r, c, s)
  }

  /** The tags left by processing `queue` after `tags`. */
  ghost function Replay(tags: set<Subject>, queue: seq<Message>): set<Subject>
    decreases |queue|
  {
    if queue == [] then tags else Replay(Apply(tags, queue[0]), queue[1..])
  }

  ghost function TagsOf(r: Router, c: Conn): set<Subject> {
    set t | t in r.tags && t.conn == c :: t.subject
  }

  ghost function HeldAt(r: Router, c: Conn): seq<Message> {
    if c in r.held then r.held[c] else []
  }

  /** Processing what is held and on its way to `c` ends with the tags its sender told. */
  ghost predicate ReplayOk(net: Net, c: Conn) {
    && AtRouter(net, c) && c in net.chan && c.Peer() in net.told
    && var r := net.routers[c.Node()];
       Replay(TagsOf(r, c), HeldAt(r, c) + net.chan[c]) == net.told[c.Peer()]
  }

  ghost predicate RouterOk(net: Net, n: NodeId, r: Router) {
    && (forall c :: c in r.conns ==> c.Node() == n && c.link in net.made)
    && (forall c :: c in r.conns && c.link !in net.arrived ==> c in r.pending && HeldAt(r, c) == [])
    && r.pending <= r.conns && r.pending <= r.held.Keys <= r.conns
    && (forall c :: c in r.pending ==> c.up)
    && (forall t :: t in r.tags ==> t.conn.Node() == n && t.conn !in r.pending && t.conn.link in net.arrived)
  }

  ghost predicate LinkOk(net: Net, l: Link) {
    && Conn(l, true) in net.chan && Conn(l, true) in net.told
    && Conn(l, false) in net.chan && Conn(l, false) in net.told
    && Conn(l, true) in net.decided && Conn(l, false) in net.decided
    && l.b in net.routers && (l.a in net.clients || l.a in net.routers)
    && (l !in net.arrived ==>
          net.told[Conn(l, false)] == {} && net.decided[Conn(l, false)] == {} && net.chan[Conn(l, true)] == [])
  }

  /** The ends of `c`'s link still exchange messages, or will when it arrives. */
  ghost predicate Joined(net: Net, c: Conn) {
    && c.link in net.made && AtRouter(net, c) && Listed(net, c.Peer())
    && (Listed(net, c) || c.link !in net.arrived)
  }

  ghost predicate RoutersOk(net: Net) {
    forall n :: n in net.routers ==> n !in net.clients && RouterOk(net, n, net.routers[n])
  }

  ghost predicate LinksOk(net: Net) {
    && net.arrived <= net.made
    && (forall l :: l in net.made ==> LinkOk(net, l))
    && (forall c :: c in net.chan || c in net.told || c in net.decided ==> c.link in net.made)
  }

  /** A client has one connection at a time. */
  ghost predicate ClientsOk(net: Net) {
    && (forall c :: c in net.clientConns ==> c.up && c.link in net.made && c.Node() in net.clients)
    && (forall c, d :: c in net.clientConns && d in net.clientConns && c.Node() == d.Node() ==> c == d)
  }

  ghost predicate Shape(net: Net) {
    RoutersOk(net) && LinksOk(net) && ClientsOk(net)
  }

  ghost predicate ToldInv(net: Net) {
    forall n, c :: n in net.routers && c in net.routers[n].conns ==> ToldOk(net, net.routers[n], c)
  }

  ghost predicate ReplayInv(net: Net, except: set<Conn>) {
    forall c :: Joined(net, c) && c !in except ==> ReplayOk(net, c)
  }

  /** A fan-out waits to go on to connections that have been accepted. */
  ghost predicate StalledOk(net: Net, d: Conn) {
    AtRouter(net, d) && d.link in net.arrived && d !in net.routers[d.Node()].pending
  }

  ghost predicate StalledInv(net: Net) {
    forall f, d :: f in net.stalled && d in f.rest.to ==> StalledOk(net, d)
  }

  ghost predicate Inv(net: Net) {
    Shape(net) && ToldInv(net) && ReplayInv(net, {}) && StalledInv(net)
  }

  // --- queueing a message -------------------------------------------------------------

  lemma {:induction false} ReplayAppend(tags: set<Subject>, queue: seq<Message>, m: Message)
    ensures Replay(tags, queue + [m]) == Apply(Replay(tags, queue), m)
    decreases |queue|
  {
    if queue == [] {
      assert queue + [m] == [m];
      assert Replay(Apply(tags, m), []) == Apply(tags, m);
    } else {
      ReplayAppend(Apply(tags, queue[0]), queue[1..], m);
      assert (queue + [m])[1..] == queue[1..] + [m];
    }
  }

  /** Whatever a node sends, its receivers' queues replay to what they were told. */
  lemma QueueKeepsReplay(net: Net, send: Send, c: Conn)
    requires ReplayOk(net, c)
    ensures ReplayOk(Queue(net, send), c)
  {
    var r := net.routers[c.Node()];
    if c.Peer() in send.to {
      var q := HeldAt(r, c) + net.chan[c];
      ReplayAppend(TagsOf(r, c), q, send.message);
      assert q + [send.message] == HeldAt(r, c) + Queue(net, send).chan[c];
    }
  }

  lemma PostKeepsLink(net: Net, send: Send, now: set<Conn>, l: Link)
    requires LinkOk(net, l) && now <= send.to && (Conn(l, false) in send.to ==> l in net.arrived)
    ensures LinkOk(Post(net, send, now), l)
  {
    assert Conn(l, true).Peer() == Conn(l, false);
  }

  lemma PostKeepsRouters(net: Net, send: Send, now: set<Conn>)
    requires RoutersOk(net)
    ensures RoutersOk(Post(net, send, now))
  {
    SameRoutersOk(net, Post(net, send, now));
  }

  lemma PostKeepsShape(net: Net, send: Send, now: set<Conn>)
    requires Shape(net) && now <= send.to
    requires forall c :: c in send.to && !c.up ==> c.link in net.arrived
    ensures Shape(Post(net, send, now))
  {
    PostKeepsRouters(net, send, now);
    PostKeepsLinks(net, send, now);
  }

  lemma PostKeepsLinks(net: Net, send: Send, now: set<Conn>)
    requires LinksOk(net) && now <= send.to
    requires forall c :: c in send.to && !c.up ==> c.link in net.arrived
    ensures LinksOk(Post(net, send, now))
  {
    forall l | l in net.made ensures LinkOk(Post(net, send, now), l) {
      PostKeepsLink(net, send, now, l);
    }
  }

  lemma QueueKeepsShape(net: Net, send: Send)
    requires Shape(net)
    requires forall c :: c in send.to && !c.up ==> c.link in net.arrived
    ensures Shape(Queue(net, send))
  {
    SameRoutersOk(net, Queue(net, send));
    QueueKeepsLinks(net, send);
  }

  lemma QueueKeepsLinks(net: Net, send: Send)
    requires LinksOk(net) && forall c :: c in send.to && !c.up ==> c.link in net.arrived
    ensures LinksOk(Queue(net, send))
  {
    forall l | l in net.made ensures LinkOk(Queue(net, send), l) {
      assert LinkOk(net, l) && Conn(l, true).Peer() == Conn(l, false);
    }
  }

  /** A subscription message keeps a neighbour's told-state right if it says what is wanted. */
  lemma PostToldOk(net: Net, send: Send, now: set<Conn>, r: Router, r': Router, c: Conn)
    requires ToldOk(net, r, c) && now <= send.to
    requires r'.pending == r.pending && (c in send.to ==> c !in r.pending)
    requires c !in r.pending ==>
             match send.message
             case Subscription(s, b) =>
               && (forall k :: k != s ==> (Wanted(r', c, k) <==> Wanted(r, c, k)))
               && (if c in send.to then Wanted(r', c, s) <==> b else Wanted(r', c, s) <==> Wanted(r, c, s))
             case Publish(_, _) => forall k :: Wanted(r', c, k) <==> Wanted(r, c, k)
    ensures ToldOk(Post(net, send, now), r', c)
  {
    assert c.Peer().Peer() == c;
  }

  // --- handling one message -------------------------------------------------------------

  /** The unsubscribe rule: exactly those told "unsubscribe" are no longer wanted from. */
  lemma UnsubscribeWanted(r: Router, source: Conn, s: Subject, c: Conn)
    requires c in r.Active()
    ensures var (r', send) := Unsubscribe(r, source, s);
            if c in send.to then !Wanted(r', c, s) else Wanted(r', c, s) <==> Wanted(r, c, s)
  {
    var (r', send) := Unsubscribe(r, source, s);
    var left := r'.Subscribers(s);
    assert forall d :: d in left <==> Tag(d, s) in r'.tags;
    if Tag(source, s) in r.tags {
      if left != {} && |left| != 1 {
        assert |left - {c}| >= |left| - 1;
        var d :| d in left - {c};
        assert Tag(d, s) in r'.tags && Tag(d, s) in r.tags;
      } else if left != {} {
        var x :| x in left;
        assert |left - {x}| == 0;
        assert left == {x};
        assert Tag(x, s) in r'.tags && Tag(x, s) in r.tags;
      }
    } else {
      assert r'.tags == r.tags;
    }
  }

  /** The targets `to` are those of the rule as far as `c` is concerned. */
  lemma HandleTold(net: Net, r: Router, source: Conn, m: Message, to: set<Conn>, now: set<Conn>, c: Conn)
    requires ToldOk(net, r, c) && c in r.conns
    requires forall t :: t in r.tags ==> t.conn !in r.pending
    requires source !in r.pending && now <= to && (c in to <==> c in Handle(r, source, m).1.to)
    ensures var (r', send) := Handle(r, source, m); ToldOk(Post(net, Send(to, send.message), now), r', c)
  {
    var (r', send) := Handle(r, source, m);
    match m
    case Subscription(s, true) =>
      assert forall d, k :: k != s ==> (Tag(d, k) in r'.tags <==> Tag(d, k) in r.tags);
      if c in send.to {
        assert Tag(source, s) in r'.tags && source != c;
      }
      PostToldOk(net, Send(to, send.message), now, r, r', c);
    case Subscription(s, false) =>
      UnsubscribeTold(net, r, source, s, to, now, c);
    case Publish(_, _) =>
      PostToldOk(net, Send(to, send.message), now, r, r', c);
  }

  lemma UnsubscribeTold(net: Net, r: Router, source: Conn, s: Subject, to: set<Conn>, now: set<Conn>, c: Conn)
    requires ToldOk(net, r, c) && c in r.conns
    requires forall t :: t in r.tags ==> t.conn !in r.pending
    requires now <= to && (c in to <==> c in Unsubscribe(r, source, s).1.to)
    ensures var (r', send) := Unsubscribe(r, source, s); ToldOk(Post(net, Send(to, send.message), now), r', c)
  {
    var (r', send) := Unsubscribe(r, source, s);
    assert forall d, k :: k != s ==> (Tag(d, k) in r'.tags <==> Tag(d, k) in r.tags);
    if c !in r.pending {
      UnsubscribeWanted(r, source, s, c);
    }
    PostToldOk(net, Send(to, send.message), now, r, r', c);
  }

  /** All but the replay of the connections in `except`. */
  ghost predicate InvBut(net: Net, except: set<Conn>) {
    Shape(net) && ToldInv(net) && ReplayInv(net, except) && StalledInv(net)
  }

  lemma SetRouterShape(net: Net, n: NodeId, r: Router)
    requires Shape(net) && n in net.routers && RouterOk(net, n, r)
    ensures Shape(SetRouter(net, n, r))
  {
    var net' := SetRouter(net, n, r);
    forall l | l in net'.made ensures LinkOk(net', l) {
      assert LinkOk(net, l);
    }
    forall m | m in net'.routers ensures m !in net'.clients && RouterOk(net', m, net'.routers[m]) {
      assert m != n ==> RouterOk(net, m, net.routers[m]);
    }
  }

  /** A node's sends do not touch what the other nodes' connections were told. */
  lemma OtherToldOk(net: Net, send: Send, now: set<Conn>, n: NodeId, m: NodeId, d: Conn)
    requires Shape(net) && m in net.routers && d in net.routers[m].conns && m != n
    requires ToldOk(net, net.routers[m], d) && now <= send.to
    requires forall c :: c in send.to ==> c.Node() == n
    ensures ToldOk(Post(net, send, now), net.routers[m], d)
  {
    assert RouterOk(net, m, net.routers[m]);
    assert d !in send.to && d.Peer().Peer() == d;
  }

  /** What a router change followed by a send has to keep. */
  ghost predicate GoodChange(net: Net, n: NodeId, r': Router, send: Send, now: set<Conn>, c: Conn) {
    && n in net.routers && c.Node() == n && now <= send.to
    && var r := net.routers[n];
       && r'.conns == r.conns && r'.held == r.held && r'.pending == r.pending && RouterOk(net, n, r')
       && (forall d :: d in send.to ==> d.Node() == n && d !in r.pending && d.link in net.arrived)
       && (forall d :: d in r'.conns ==> ToldOk(Post(net, send, now), r', d))
       && (forall d :: d != c ==> TagsOf(r', d) == TagsOf(r, d))
       && (Joined(net, c) ==> ReplayOk(SetRouter(net, n, r'), c))
  }

  lemma SameChannels(net: Net, net': Net, r: Router, d: Conn)
    requires ToldOk(net, r, d) && net'.chan == net.chan && net'.told == net.told && net'.decided == net.decided
    ensures ToldOk(net', r, d)
  {
  }

  lemma RouterStepTold(net: Net, n: NodeId, r': Router, send: Send, now: set<Conn>, c: Conn)
    requires InvBut(net, {c}) && GoodChange(net, n, r', send, now, c)
    ensures ToldInv(Post(SetRouter(net, n, r'), send, now))
  {
    var net' := Post(SetRouter(net, n, r'), send, now);
    forall m, d | m in net'.routers && d in net'.routers[m].conns ensures ToldOk(net', net'.routers[m], d) {
      RouterStepToldAt(net, n, r', send, now, c, m, d);
    }
  }

  lemma RouterStepToldAt(net: Net, n: NodeId, r': Router, send: Send, now: set<Conn>, c: Conn, m: NodeId, d: Conn)
    requires Shape(net) && ToldInv(net) && GoodChange(net, n, r', send, now, c)
    requires m in net.routers && d in SetRouter(net, n, r').routers[m].conns
    ensures ToldOk(Post(SetRouter(net, n, r'), send, now), SetRouter(net, n, r').routers[m], d)
  {
    if m != n {
      assert ToldOk(net, net.routers[m], d);
      OtherToldOk(net, send, now, n, m, d);
      SameChannels(Post(net, send, now), Post(SetRouter(net, n, r'), send, now), net.routers[m], d);
    } else {
      SameChannels(Post(net, send, now), Post(SetRouter(net, n, r'), send, now), r', d);
    }
  }

  lemma RouterStepShape(net: Net, n: NodeId, r': Router, send: Send, now: set<Conn>, c: Conn)
    requires Shape(net) && GoodChange(net, n, r', send, now, c)
    ensures Shape(Post(SetRouter(net, n, r'), send, now))
  {
    SetRouterShape(net, n, r');
    PostKeepsShape(SetRouter(net, n, r'), send, now);
  }

  lemma RouterStepReplay(net: Net, n: NodeId, r': Router, send: Send, now: set<Conn>, c: Conn, d: Conn)
    requires InvBut(net, {c}) && GoodChange(net, n, r', send, now, c)
    requires Joined(Post(SetRouter(net, n, r'), send, now), d)
    ensures ReplayOk(Post(SetRouter(net, n, r'), send, now), d)
  {
    var net1 := SetRouter(net, n, r');
    SameReplay(net, n, r', c, d);
    DecidedReplay(net1, send, d);
    QueueKeepsReplay(Decide(net1, send), Send(now, send.message), d);
  }

  /** What is decided is not yet on its way. */
  lemma DecidedReplay(net: Net, send: Send, d: Conn)
    requires ReplayOk(net, d)
    ensures ReplayOk(Decide(net, send), d)
  {
  }

  lemma RouterStepStalled(net: Net, n: NodeId, r': Router, send: Send, now: set<Conn>)
    requires StalledInv(net) && n in net.routers && r'.pending == net.routers[n].pending
    ensures StalledInv(Post(SetRouter(net, n, r'), send, now))
  {
    forall f, d | f in net.stalled && d in f.rest.to ensures StalledOk(Post(SetRouter(net, n, r'), send, now), d) {
      assert StalledOk(net, d);
    }
  }

  lemma RouterStep(net: Net, n: NodeId, r': Router, send: Send, now: set<Conn>, c: Conn)
    requires InvBut(net, {c}) && GoodChange(net, n, r', send, now, c)
    ensures Inv(Post(SetRouter(net, n, r'), send, now))
  {
    var net' := Post(SetRouter(net, n, r'), send, now);
    RouterStepShape(net, n, r', send, now, c);
    RouterStepTold(net, n, r', send, now, c);
    RouterStepStalled(net, n, r', send, now);
    forall d | Joined(net', d) ensures ReplayOk(net', d) {
      RouterStepReplay(net, n, r', send, now, c, d);
    }
  }

  lemma SameReplay(net: Net, n: NodeId, r': Router, c: Conn, d: Conn)
    requires ReplayInv(net, {c}) && n in net.routers && Joined(SetRouter(net, n, r'), d)
    requires r'.conns == net.routers[n].conns && r'.held == net.routers[n].held
    requires forall d :: d != c ==> TagsOf(r', d) == TagsOf(net.routers[n], d)
    requires Joined(net, c) ==> ReplayOk(SetRouter(net, n, r'), c)
    ensures ReplayOk(SetRouter(net, n, r'), d)
  {
    assert Joined(net, d);
    if d != c {
      assert ReplayOk(net, d);
    }
  }

  lemma TagsAre(r: Router, c: Conn)
    ensures forall s :: s in TagsOf(r, c) <==> Tag(c, s) in r.tags
  {
  }

  lemma UnsubscribeShape(net: Net, n: NodeId, r: Router, source: Conn, s: Subject)
    requires RouterOk(net, n, r)
    ensures var (r', send) := Unsubscribe(r, source, s);
            && RouterOk(net, n, r')
            && (forall d :: d in send.to ==> d.Node() == n && d !in r.pending && d.link in net.arrived)
            && (forall d :: d != source ==> TagsOf(r', d) == TagsOf(r, d))
            && TagsOf(r', source) == TagsOf(r, source) - {s}
            && r'.conns == r.conns && r'.held == r.held && r'.pending == r.pending
  {
    var (r', send) := Unsubscribe(r, source, s);
    forall d ensures TagsOf(r', d) == if d == source then TagsOf(r, d) - {s} else TagsOf(r, d) {
      TagsAre(r, d);
      TagsAre(r', d);
    }
  }

  lemma HandleShape(net: Net, n: NodeId, r: Router, source: Conn, m: Message)
    requires RouterOk(net, n, r) && source.Node() == n && source.link in net.arrived && source !in r.pending
    ensures var (r', send) := Handle(r, source, m);
            && RouterOk(net, n, r')
            && (forall d :: d in send.to ==> d.Node() == n && d !in r.pending && d.link in net.arrived)
            && (forall d :: d != source ==> TagsOf(r', d) == TagsOf(r, d))
            && TagsOf(r', source) == Apply(TagsOf(r, source), m)
            && r'.conns == r.conns && r'.held == r.held && r'.pending == r.pending
  {
    var (r', send) := Handle(r, source, m);
    match m
    case Subscription(s, true) =>
      forall d ensures TagsOf(r', d) == if d == source then TagsOf(r, d) + {s} else TagsOf(r, d) {
        TagsAre(r, d);
        TagsAre(r', d);
      }
    case Subscription(s, false) => UnsubscribeShape(net, n, r, source, s);
    case Publish(_, _) =>
  }

  lemma ProcessReplay(net: Net, c: Conn, m: Message, r': Router)
    requires AtRouter(net, c) && c in net.chan && c.Peer() in net.told
    requires var r := net.routers[c.Node()];
             && Replay(TagsOf(r, c), [m] + (HeldAt(r, c) + net.chan[c])) == net.told[c.Peer()]
             && TagsOf(r', c) == Apply(TagsOf(r, c), m) && r'.held == r.held
    ensures ReplayOk(SetRouter(net, c.Node(), r'), c)
  {
    var q := HeldAt(net.routers[c.Node()], c) + net.chan[c];
    assert ([m] + q)[1..] == q;
  }

  /** Who is listed gets what the rule sends it. */
  lemma ListedIsOpen(net: Net, send: Send, d: Conn)
    requires Listed(net, d)
    ensures d in OnOpen(net, send).to <==> d in send.to
  {
  }

  /** `net` has taken `m` off the queue of `c`, and now handles it. */
  ghost predicate Taken(net: Net, c: Conn, m: Message) {
    && AtRouter(net, c) && c.link in net.arrived && c !in net.routers[c.Node()].pending
    && (Joined(net, c) ==>
          && c in net.chan && c.Peer() in net.told
          && var r := net.routers[c.Node()];
             Replay(TagsOf(r, c), [m] + (HeldAt(r, c) + net.chan[c])) == net.told[c.Peer()])
  }

  lemma ProcessGood(net: Net, c: Conn, m: Message, now: set<Conn>)
    requires InvBut(net, {c}) && Taken(net, c, m) && now <= Response(net, c, m).1.to
    ensures var (r', send) := Response(net, c, m); GoodChange(net, c.Node(), r', send, now, c)
  {
    var n, r := c.Node(), net.routers[c.Node()];
    var (r', send) := Handle(r, c, m);
    assert RouterOk(net, n, r);
    HandleShape(net, n, r, c, m);
    forall d | d in r'.conns ensures ToldOk(Post(net, OnOpen(net, send), now), r', d) {
      ListedIsOpen(net, send, d);
      HandleTold(net, r, c, m, OnOpen(net, send).to, now, d);
    }
    if Joined(net, c) {
      ProcessReplay(net, c, m, r');
    }
  }

  /** Where a fan-out stops: it waits to go on to the late targets, and the full one is dropped. */
  lemma StopKeeps(net: Net, task: Task, at: Conn, late: set<Conn>, m: Message)
    requires Inv(net) && AtRouter(net, at) && at in net.routers[at.Node()].conns
    requires forall d :: d in late ==> StalledOk(net, d)
    ensures Inv(Unlist(net.(stalled := if late == {} then net.stalled
                                       else net.stalled + [Fanout(task, at, Send(late, m))]), at, task))
  {
    var net1 := net.(stalled := if late == {} then net.stalled
                                else net.stalled + [Fanout(task, at, Send(late, m))]);
    OnlyStalled(net, net1);
    UnlistKeeps(net1, at, task);
  }

  lemma OnlyStalled(net: Net, net': Net)
    requires Inv(net) && net' == net.(stalled := net'.stalled)
    requires forall f, d :: f in net'.stalled && d in f.rest.to ==> StalledOk(net, d)
    ensures Inv(net')
  {
    OnlyHistory(net, net');
    forall f, d | f in net'.stalled && d in f.rest.to ensures StalledOk(net', d) {
      assert StalledOk(net, d);
    }
  }

  lemma CarryKeeps(net: Net, task: Task, c: Conn, r': Router, send: Send, stop: Option<Stop>)
    requires InvBut(net, {c}) && StopOk(net, send, stop)
    requires forall now :: now <= send.to ==> GoodChange(net, c.Node(), r', send, now, c)
    ensures Inv(Carry(net, task, c, r', send, stop))
  {
    if stop.None? {
      assert GoodChange(net, c.Node(), r', send, send.to, c);
      RouterStep(net, c.Node(), r', send, send.to, c);
    } else {
      var now := send.to - stop.value.late - {stop.value.at};
      assert GoodChange(net, c.Node(), r', send, now, c);
      StoppedKeeps(net, task, c, r', send, stop.value, now);
    }
  }

  lemma StoppedKeeps(net: Net, task: Task, c: Conn, r': Router, send: Send, stop: Stop, now: set<Conn>)
    requires InvBut(net, {c}) && StopOk(net, send, Some(stop)) && now == send.to - stop.late - {stop.at}
    requires GoodChange(net, c.Node(), r', send, now, c)
    ensures Inv(Carry(net, task, c, r', send, Some(stop)))
  {
    RouterStep(net, c.Node(), r', send, now, c);
    GoodTargets(net, c.Node(), r', send, now, c, stop);
    CarryStopKeeps(net, Post(SetRouter(net, c.Node(), r'), send, now), task, c, r', send, stop, now);
  }

  lemma GoodTargets(net: Net, n: NodeId, r': Router, send: Send, now: set<Conn>, c: Conn, stop: Stop)
    requires GoodChange(net, n, r', send, now, c) && StopOk(net, send, Some(stop))
    ensures var net1 := Post(SetRouter(net, n, r'), send, now);
            && AtRouter(net1, stop.at) && stop.at in net1.routers[stop.at.Node()].conns
            && forall d :: d in stop.late ==> StalledOk(net1, d)
  {
  }

  lemma CarryStopKeeps(net: Net, net1: Net, task: Task, c: Conn, r': Router, send: Send, stop: Stop, now: set<Conn>)
    requires AtRouter(net, c) && AtRouter(net, stop.at) && now == send.to - stop.late - {stop.at}
    requires net1 == Post(SetRouter(net, c.Node(), r'), send, now) && Inv(net1)
    requires AtRouter(net1, stop.at) && stop.at in net1.routers[stop.at.Node()].conns
    requires forall d :: d in stop.late ==> StalledOk(net1, d)
    ensures Inv(Carry(net, task, c, r', send, Some(stop)))
  {
    StopKeeps(net1, task, stop.at, stop.late, send.message);
  }

  lemma ProcessKeeps(net: Net, task: Task, c: Conn, m: Message, stop: Option<Stop>)
    requires InvBut(net, {c}) && Taken(net, c, m) && StopOk(net, Response(net, c, m).1, stop)
    ensures Inv(Process(net, task, c, m, stop))
  {
    var (r', send) := Response(net, c, m);
    forall now | now <= send.to ensures GoodChange(net, c.Node(), r', send, now, c) {
      ProcessGood(net, c, m, now);
    }
    CarryKeeps(net, task, c, r', send, stop);
  }

  /** The connection is lost, so nothing that arrives on it counts any more. */
  ghost predicate Gone(net: Net, c: Conn) {
    && AtRouter(net, c) && c !in net.routers[c.Node()].conns && c !in net.routers[c.Node()].pending
    && c.link in net.arrived && c !in net.clientConns
  }

  lemma RemovalGood(net: Net, c: Conn, s: Subject, now: set<Conn>)
    requires Inv(net) && Gone(net, c) && now <= Removal(net, c, s).1.to
    ensures var (r', send) := Removal(net, c, s); GoodChange(net, c.Node(), r', send, now, c)
  {
    var n, r := c.Node(), net.routers[c.Node()];
    var (r', send) := Unsubscribe(r, c, s);
    assert RouterOk(net, n, r);
    UnsubscribeShape(net, n, r, c, s);
    forall d | d in r'.conns ensures ToldOk(Post(net, OnOpen(net, send), now), r', d) {
      ListedIsOpen(net, send, d);
      UnsubscribeTold(net, r, c, s, OnOpen(net, send).to, now, d);
    }
    assert !Joined(net, c);
  }

  lemma ForgetKeeps(net: Net, task: Task, c: Conn, s: Subject, stop: Option<Stop>)
    requires Inv(net) && Gone(net, c) && StopOk(net, Removal(net, c, s).1, stop)
    ensures var (r', send) := Removal(net, c, s); Inv(Carry(net, task, c, r', send, stop))
  {
    var (r', send) := Removal(net, c, s);
    forall now | now <= send.to ensures GoodChange(net, c.Node(), r', send, now, c) {
      RemovalGood(net, c, s, now);
    }
    CarryKeeps(net, task, c, r', send, stop);
  }

  /** A message read after its connection has been lost is handled like any other. */
  lemma ReadOnKeeps(net: Net, task: Task, c: Conn, m: Message, stop: Option<Stop>)
    requires InvBut(net, {c}) && Gone(net, c) && StopOk(net, Response(net, c, m).1, stop)
    ensures Inv(Process(net, task, c, m, stop))
  {
    assert !Joined(net, c);
    ProcessKeeps(net, task, c, m, stop);
  }

  /** A fan-out goes on. What it sends was decided when it began. */
  lemma SpreadKeeps(net: Net, task: Task, send: Send, stop: Option<Stop>)
    requires Inv(net) && StopOk(net, send, stop) && forall d :: d in send.to ==> StalledOk(net, d)
    ensures Inv(Spread(net, task, send, stop))
  {
    match stop
    case None => QueueKeeps(net, send);
    case Some(Stop(at, late)) =>
      var now := Send(send.to - late - {at}, send.message);
      QueueKeeps(net, now);
      forall d | d in late ensures StalledOk(Queue(net, now), d) {
        assert StalledOk(net, d);
      }
      StopKeeps(Queue(net, now), task, at, late, send.message);
  }

  lemma QueueTold(net: Net, send: Send)
    requires RoutersOk(net) && ToldInv(net) && forall d :: d in send.to ==> StalledOk(net, d)
    ensures ToldInv(Queue(net, send))
  {
    var net' := Queue(net, send);
    forall n, d | n in net.routers && d in net.routers[n].conns ensures ToldOk(net', net.routers[n], d) {
      assert ToldOk(net, net.routers[n], d) && RouterOk(net, n, net.routers[n]);
      assert d.Peer().Peer() == d;
    }
  }

  lemma QueueKeeps(net: Net, send: Send)
    requires Inv(net) && forall d :: d in send.to ==> StalledOk(net, d)
    ensures Inv(Queue(net, send))
  {
    QueueKeepsShape(net, send);
    QueueTold(net, send);
    QueueReplayInv(net, send);
    forall f, d | f in net.stalled && d in f.rest.to ensures StalledOk(Queue(net, send), d) {
      assert StalledOk(net, d);
    }
  }

  // --- one lemma per event ------------------------------------------------------------------

  lemma PopShape(net: Net, c: Conn)
    requires Shape(net) && c in net.chan && net.chan[c] != []
    ensures Shape(Pop(net, c))
  {
    var net' := Pop(net, c);
    forall l | l in net'.made ensures LinkOk(net', l) {
      assert LinkOk(net, l);
    }
    forall n | n in net'.routers ensures n !in net'.clients && RouterOk(net', n, net'.routers[n]) {
      assert RouterOk(net, n, net.routers[n]);
    }
  }

  lemma PopTold(net: Net, c: Conn)
    requires ToldInv(net) && c in net.chan && net.chan[c] != []
    ensures ToldInv(Pop(net, c))
  {
    var net' := Pop(net, c);
    forall n, d | n in net'.routers && d in net'.routers[n].conns ensures ToldOk(net', net'.routers[n], d) {
      assert ToldOk(net, net.routers[n], d);
    }
  }

  lemma PopReplay(net: Net, c: Conn)
    requires ReplayInv(net, {}) && c in net.chan && net.chan[c] != []
    ensures ReplayInv(Pop(net, c), {c})
  {
    var net' := Pop(net, c);
    forall d | Joined(net', d) && d != c ensures ReplayOk(net', d) {
      assert Joined(net, d);
      assert ReplayOk(net, d);
    }
  }

  lemma HeldChangeTold(net: Net, n: NodeId, r': Router)
    requires ToldInv(net) && n in net.routers && r' == net.routers[n].(held := r'.held)
    ensures ToldInv(SetRouter(net, n, r'))
  {
    var net' := SetRouter(net, n, r');
    forall m, d | m in net'.routers && d in net'.routers[m].conns ensures ToldOk(net', net'.routers[m], d) {
      assert ToldOk(net, net.routers[m], d);
      assert forall s :: Wanted(net'.routers[m], d, s) == Wanted(net.routers[m], d, s);
    }
  }

  lemma HeldChangeReplay(net: Net, n: NodeId, r': Router, c: Conn)
    requires ReplayInv(net, {c}) && n in net.routers && SameBut(net.routers[n], r', c)
    ensures ReplayInv(SetRouter(net, n, r'), {c})
  {
    var net' := SetRouter(net, n, r');
    forall d | Joined(net', d) && d != c ensures ReplayOk(net', d) {
      assert Joined(net, d);
      assert ReplayOk(net, d);
    }
  }

  /** Only what is held from `c` differs. */
  ghost predicate SameBut(r: Router, r': Router, c: Conn) {
    && r' == r.(held := r'.held)
    && forall d :: d != c ==> HeldAt(r', d) == HeldAt(r, d)
  }

  lemma SetHeld(net: Net, n: NodeId, r: Router, c: Conn, q: seq<Message>)
    requires RouterOk(net, n, r) && c in r.held && c.link in net.arrived
    ensures SameBut(r, r.(held := r.held[c := q]), c)
    ensures RouterOk(net, n, r.(held := r.held[c := q]))
  {
    assert r.held[c := q].Keys == r.held.Keys;
  }

  lemma RemoveHeld(net: Net, n: NodeId, r: Router, c: Conn)
    requires RouterOk(net, n, r) && c !in r.pending
    ensures SameBut(r, r.(held := r.held - {c}), c)
    ensures RouterOk(net, n, r.(held := r.held - {c}))
  {
  }

  /** No connection becomes pending that a fan-out waits for. */
  lemma StalledSame(net: Net, net': Net)
    requires StalledInv(net) && net'.stalled == net.stalled && net.arrived <= net'.arrived
    requires net'.routers.Keys == net.routers.Keys
    requires forall n, d :: n in net.routers && d in net'.routers[n].pending ==>
               d in net.routers[n].pending || d.link !in net.arrived
    ensures StalledInv(net')
  {
    forall f, d | f in net'.stalled && d in f.rest.to ensures StalledOk(net', d) {
      assert StalledOk(net, d);
    }
  }

  lemma JoinedSame(net: Net, n: NodeId, r': Router, c: Conn)
    requires n in net.routers && r'.conns == net.routers[n].conns
    ensures Joined(SetRouter(net, n, r'), c) <==> Joined(net, c)
  {
  }

  /** Moving messages between a connection's channel and its held queue. */
  lemma HeldChange(net: Net, n: NodeId, r': Router, c: Conn)
    requires InvBut(net, {c}) && n in net.routers && SameBut(net.routers[n], r', c)
    requires RouterOk(net, n, r')
    requires Joined(SetRouter(net, n, r'), c) ==> ReplayOk(SetRouter(net, n, r'), c)
    ensures Inv(SetRouter(net, n, r'))
  {
    DrainFrame(net, n, r', c);
    HeldReplayInv(SetRouter(net, n, r'), c);
  }

  lemma HeldReplayInv(net: Net, c: Conn)
    requires ReplayInv(net, {c}) && (Joined(net, c) ==> ReplayOk(net, c))
    ensures ReplayInv(net, {})
  {
  }

  lemma DrainFrame(net: Net, n: NodeId, r': Router, c: Conn)
    requires InvBut(net, {c}) && n in net.routers && SameBut(net.routers[n], r', c) && RouterOk(net, n, r')
    ensures InvBut(SetRouter(net, n, r'), {c})
  {
    SetRouterShape(net, n, r');
    HeldChangeTold(net, n, r');
    HeldChangeReplay(net, n, r', c);
    HeldChangeStalled(net, n, r');
  }

  lemma HeldChangeStalled(net: Net, n: NodeId, r': Router)
    requires StalledInv(net) && n in net.routers && r' == net.routers[n].(held := r'.held)
    ensures StalledInv(SetRouter(net, n, r'))
  {
    StalledSame(net, SetRouter(net, n, r'));
  }

  lemma PopKeeps(net: Net, c: Conn)
    requires Inv(net) && c in net.chan && net.chan[c] != []
    ensures InvBut(Pop(net, c), {c})
  {
    PopShape(net, c);
    PopTold(net, c);
    PopReplay(net, c);
    StalledSame(net, Pop(net, c));
  }

  lemma InvAt(net: Net, c: Conn)
    requires Inv(net) && AtRouter(net, c) && c in net.routers[c.Node()].conns
    ensures RouterOk(net, c.Node(), net.routers[c.Node()]) && LinkOk(net, c.link)
    ensures c in net.chan && c.Peer() in net.told
    ensures c in net.routers[c.Node()].pending ==> c in net.routers[c.Node()].held
    ensures c !in net.routers[c.Node()].pending ==> c.link in net.arrived
    ensures Joined(net, c) ==> ReplayOk(net, c)
  {
    assert c == Conn(c.link, c.up);
  }

  lemma HeldReplay(net: Net, c: Conn, r': Router)
    requires c in net.chan && net.chan[c] != [] && ReplayOk(net, c)
    requires var r := net.routers[c.Node()];
             c in r.held && r' == r.(held := r.held[c := r.held[c] + [net.chan[c][0]]])
    ensures ReplayOk(SetRouter(Pop(net, c), c.Node(), r'), c)
  {
    var r := net.routers[c.Node()];
    assert r'.held[c] + Pop(net, c).chan[c] == r.held[c] + net.chan[c];
    assert TagsOf(r', c) == TagsOf(r, c);
  }

  lemma ReceiveHeld(net: Net, c: Conn)
    requires Inv(net) && Enabled(net, Receive(c, None)) && AtRouter(net, c) && c in net.routers[c.Node()].held
    requires c in net.routers[c.Node()].conns
    ensures Inv(Step(net, Receive(c, None)))
  {
    var n, r := c.Node(), net.routers[c.Node()];
    var r' := r.(held := r.held[c := r.held[c] + [net.chan[c][0]]]);
    PopKeeps(net, c);
    InvAt(net, c);
    SetHeld(Pop(net, c), n, r, c, r.held[c] + [net.chan[c][0]]);
    if Joined(net, c) {
      HeldReplay(net, c, r');
    }
    JoinedSame(Pop(net, c), n, r', c);
    HeldChange(Pop(net, c), n, r', c);
  }

  lemma JoinedPop(net: Net, c: Conn)
    requires c in net.chan && net.chan[c] != []
    ensures Joined(Pop(net, c), c) <==> Joined(net, c)
  {
  }

  lemma PopReplays(net: Net, c: Conn)
    requires ReplayOk(net, c) && net.chan[c] != [] && c !in net.routers[c.Node()].held
    ensures var r := net.routers[c.Node()];
            Replay(TagsOf(r, c), [net.chan[c][0]] + (HeldAt(r, c) + Pop(net, c).chan[c])) == net.told[c.Peer()]
  {
    assert [net.chan[c][0]] + ([] + Pop(net, c).chan[c]) == [] + net.chan[c];
  }

  /** Taking a message from a channel does not change what its handler does. */
  lemma PopResponse(net: Net, c: Conn, m: Message, stop: Option<Stop>)
    requires AtRouter(net, c) && c in net.chan && net.chan[c] != []
    requires StopOk(net, Response(net, c, m).1, stop)
    ensures Response(Pop(net, c), c, m) == Response(net, c, m)
    ensures StopOk(Pop(net, c), Response(Pop(net, c), c, m).1, stop)
  {
    SameOpen(net, Pop(net, c), Handle(net.routers[c.Node()], c, m).1);
  }

  lemma SameOpen(net: Net, net': Net, send: Send)
    requires forall d :: Open(net', d) == Open(net, d)
    ensures OnOpen(net', send) == OnOpen(net, send)
  {
  }

  lemma ReceiveHandled(net: Net, c: Conn, stop: Option<Stop>)
    requires Inv(net) && Enabled(net, Receive(c, stop)) && AtRouter(net, c) && c !in net.routers[c.Node()].held
    requires c in net.routers[c.Node()].conns
    ensures Inv(Step(net, Receive(c, stop)))
  {
    PopKeeps(net, c);
    InvAt(net, c);
    JoinedPop(net, c);
    if Joined(net, c) {
      PopReplays(net, c);
    }
    PopResponse(net, c, net.chan[c][0], stop);
    ProcessKeeps(Pop(net, c), Relay(c), c, net.chan[c][0], stop);
  }

  lemma ListedAtRouter(net: Net, c: Conn)
    requires Shape(net) && Listed(net, c) && AtRouter(net, c)
    ensures c in net.routers[c.Node()].conns
  {
  }

  lemma ReceiveKeeps(net: Net, c: Conn, stop: Option<Stop>)
    requires Inv(net) && Enabled(net, Receive(c, stop))
    ensures Inv(Step(net, Receive(c, stop)))
  {
    if !AtRouter(net, c) {
      PopKeeps(net, c);
      assert !Joined(Pop(net, c), c);
    } else {
      ListedAtRouter(net, c);
      if c in net.routers[c.Node()].held {
        ReceiveHeld(net, c);
      } else {
        ReceiveHandled(net, c, stop);
      }
    }
  }

  lemma HeldConn(net: Net, c: Conn)
    requires Shape(net) && AtRouter(net, c) && c in net.routers[c.Node()].held
    ensures c in net.routers[c.Node()].conns
  {
    assert RouterOk(net, c.Node(), net.routers[c.Node()]);
  }

  lemma DrainReplay(net: Net, c: Conn, r': Router)
    requires ReplayOk(net, c)
    requires var r := net.routers[c.Node()];
             c in r.held && r.held[c] != [] && r' == r.(held := r.held[c := r.held[c][1..]])
    ensures Replay(TagsOf(r', c), [net.routers[c.Node()].held[c][0]] + (HeldAt(r', c) + net.chan[c]))
            == net.told[c.Peer()]
  {
    var r := net.routers[c.Node()];
    assert [r.held[c][0]] + (r'.held[c] + net.chan[c]) == r.held[c] + net.chan[c];
    assert TagsOf(r', c) == TagsOf(r, c);
  }

  /** What is held does not matter for handling a message. */
  lemma UnheldResponse(net: Net, c: Conn, m: Message, stop: Option<Stop>)
    requires AtRouter(net, c) && c in net.routers[c.Node()].held && net.routers[c.Node()].held[c] != []
    requires StopOk(net, Response(net, c, m).1, stop)
    ensures Response(Unheld(net, c), c, m).1 == Response(net, c, m).1
    ensures StopOk(Unheld(net, c), Response(Unheld(net, c), c, m).1, stop)
  {
    var r, r' := net.routers[c.Node()], Unheld(net, c).routers[c.Node()];
    assert Handle(r', c, m).1 == Handle(r, c, m).1 by {
      UnheldHandle(r, r.held[c := r.held[c][1..]], c, m);
    }
    assert forall d :: Open(Unheld(net, c), d) == Open(net, d);
  }

  lemma UnheldHandle(r: Router, held: map<Conn, seq<Message>>, c: Conn, m: Message)
    ensures Handle(r.(held := held), c, m).1 == Handle(r, c, m).1
    ensures Handle(r.(held := held), c, m).0 == Handle(r, c, m).0.(held := held)
  {
    var r' := r.(held := held);
    assert r'.Active() == r.Active();
    match m
    case Subscription(s, true) =>
    case Subscription(s, false) =>
      assert Unsubscribe(r', c, s).0.Subscribers(s) == Unsubscribe(r, c, s).0.Subscribers(s);
    case Publish(s, _) =>
      assert r'.Matching(s) == r.Matching(s);
  }

  lemma DrainTaken(net: Net, c: Conn)
    requires Inv(net) && AtRouter(net, c) && c in net.routers[c.Node()].conns && c !in net.routers[c.Node()].pending
    requires c in net.routers[c.Node()].held && net.routers[c.Node()].held[c] != []
    ensures Taken(Unheld(net, c), c, net.routers[c.Node()].held[c][0])
  {
    var n, r := c.Node(), net.routers[c.Node()];
    var r' := r.(held := r.held[c := r.held[c][1..]]);
    InvAt(net, c);
    JoinedSame(net, n, r', c);
    if Joined(net, c) {
      DrainReplay(net, c, r');
    }
  }

  lemma DrainKeeps(net: Net, c: Conn, stop: Option<Stop>)
    requires Inv(net) && Enabled(net, Drain(c, stop))
    ensures Inv(Step(net, Drain(c, stop)))
  {
    var n, r := c.Node(), net.routers[c.Node()];
    HeldConn(net, c);
    InvAt(net, c);
    SetHeld(net, n, r, c, r.held[c][1..]);
    DrainFrame(net, n, r.(held := r.held[c := r.held[c][1..]]), c);
    DrainTaken(net, c);
    UnheldResponse(net, c, r.held[c][0], stop);
    ProcessKeeps(Unheld(net, c), Checker(c), c, r.held[c][0], stop);
  }

  lemma DrainedReplay(net: Net, c: Conn, r': Router)
    requires ReplayOk(net, c)
    requires var r := net.routers[c.Node()]; c in r.held && r.held[c] == [] && r' == r.(held := r.held - {c})
    ensures ReplayOk(SetRouter(net, c.Node(), r'), c)
  {
    assert TagsOf(r', c) == TagsOf(net.routers[c.Node()], c);
  }

  lemma DrainedKeeps(net: Net, c: Conn)
    requires Inv(net) && Enabled(net, Drained(c))
    ensures Inv(Step(net, Drained(c)))
  {
    var n, r := c.Node(), net.routers[c.Node()];
    var r' := r.(held := r.held - {c});
    HeldConn(net, c);
    InvAt(net, c);
    RemoveHeld(net, n, r, c);
    JoinedSame(net, n, r', c);
    if Joined(net, c) {
      DrainedReplay(net, c, r');
    }
    HeldChange(net, n, r', c);
  }

  // --- links made, accepted and lost ----------------------------------------------------------

  /** Only `c` was told something: that the subjects in `S` are subscribed. */
  ghost predicate Tells(net: Net, net': Net, c: Conn, S: set<Subject>) {
    && net' == net.(chan := net'.chan, told := net'.told, decided := net'.decided)
    && net'.chan.Keys == net.chan.Keys && net'.told.Keys == net.told.Keys && net'.decided.Keys == net.decided.Keys
    && (forall d :: d in net.told ==> net'.told[d] == if d == c then net.told[c] + S else net.told[d])
    && (forall d :: d in net.decided ==> net'.decided[d] == if d == c then net.decided[c] + S else net.decided[d])
    && (forall d :: d in net.chan && d != c.Peer() ==> net'.chan[d] == net.chan[d])
  }

  lemma TellOneIs(net: Net, c: Conn, s: Subject)
    requires c in net.told && c in net.decided && c.Peer() in net.chan
    ensures Tells(net, Post(net, Send({c}, Subscription(s, true)), {c}), c, {s})
  {
    assert forall d: Conn :: d.Peer().Peer() == d;
  }

  lemma TellsMore(net: Net, net1: Net, net2: Net, c: Conn, S: set<Subject>, T: set<Subject>)
    requires Tells(net, net1, c, S) && Tells(net1, net2, c, T)
    ensures Tells(net, net2, c, S + T)
  {
  }

  lemma FirstOf(order: seq<Subject>)
    requires order != []
    ensures (set s | s in order) == {order[0]} + set s | s in order[1..]
  {
  }

  lemma {:induction false} TellAllIs(net: Net, c: Conn, order: seq<Subject>)
    requires c in net.told && c in net.decided && c.Peer() in net.chan
    ensures Tells(net, TellAll(net, c, order), c, set s | s in order)
    decreases |order|
  {
    if order != [] {
      var net1 := Post(net, Send({c}, Subscription(order[0], true)), {c});
      TellOneIs(net, c, order[0]);
      TellAllIs(net1, c, order[1..]);
      TellsMore(net, net1, TellAll(net, c, order), c, {order[0]}, set s | s in order[1..]);
      FirstOf(order);
    }
  }

  lemma {:induction false} TellAllReplay(net: Net, c: Conn, order: seq<Subject>, d: Conn)
    requires ReplayOk(net, d)
    ensures ReplayOk(TellAll(net, c, order), d)
    decreases |order|
  {
    if order != [] {
      var send := Send({c}, Subscription(order[0], true));
      DecidedReplay(net, send, d);
      QueueKeepsReplay(Decide(net, send), send, d);
      TellAllReplay(Post(net, send, {c}), c, order[1..], d);
    }
  }

  lemma {:induction false} TellAllShape(net: Net, c: Conn, order: seq<Subject>)
    requires Shape(net) && (!c.up ==> c.link in net.arrived)
    ensures Shape(TellAll(net, c, order))
    decreases |order|
  {
    if order != [] {
      var send := Send({c}, Subscription(order[0], true));
      PostKeepsShape(net, send, {c});
      TellAllShape(Post(net, send, {c}), c, order[1..]);
    }
  }

  /** Telling a connection that subscribes to nothing all subjects tells it what is wanted. */
  lemma TellAllToldOk(net: Net, r: Router, c: Conn, order: seq<Subject>)
    requires c in net.told && c in net.decided && c.Peer() in net.chan && net.decided[c] == {} && c !in r.pending
    requires Lists(order, r.Subjects()) && forall s :: Tag(c, s) !in r.tags
    ensures ToldOk(TellAll(net, c, order), r, c)
  {
    TellAllIs(net, c, order);
    forall s ensures s in order <==> Wanted(r, c, s) {
      if s in order {
        var t :| t in r.tags && t.subject == s;
        assert t == Tag(t.conn, s);
      }
      if Wanted(r, c, s) {
        var d :| d != c && Tag(d, s) in r.tags;
        assert Tag(d, s).subject in r.Subjects();
      }
    }
  }

  lemma TellAllOthers(net: Net, r: Router, r': Router, c: Conn, order: seq<Subject>, d: Conn)
    requires c in net.told && c in net.decided && c.Peer() in net.chan && ToldOk(net, r, d) && d != c
    requires r'.tags == r.tags && (d in r'.pending <==> d in r.pending)
    ensures ToldOk(TellAll(net, c, order), r', d)
  {
    TellAllIs(net, c, order);
    assert d.Peer() != c.Peer();
    assert forall s :: Wanted(r', d, s) == Wanted(r, d, s);
  }

  /** The state between accepting the connection and telling it about the subjects. */
  function Arrived(net: Net, l: Link): Net
    requires l.b in net.routers
  {
    var c, r := Conn(l, false), net.routers[l.b];
    SetRouter(net, l.b, r.(conns := r.conns + {c})).(arrived := net.arrived + {l})
  }

  lemma ArriveRouter(net: Net, l: Link, n: NodeId)
    requires n in net.routers && RouterOk(net, n, net.routers[n]) && l.b in net.routers && l in net.made
    ensures RouterOk(Arrived(net, l), n, Arrived(net, l).routers[n])
  {
  }

  lemma ArriveShape(net: Net, l: Link)
    requires Shape(net) && l in net.made && l.b in net.routers
    ensures Shape(Arrived(net, l))
  {
    var net1 := Arrived(net, l);
    forall k | k in net1.made ensures LinkOk(net1, k) {
      assert LinkOk(net, k);
    }
    forall n | n in net1.routers ensures n !in net1.clients && RouterOk(net1, n, net1.routers[n]) {
      ArriveRouter(net, l, n);
    }
  }

  lemma HomeConn(net: Net, n: NodeId, d: Conn)
    requires n in net.routers && RouterOk(net, n, net.routers[n])
    ensures d in net.routers[n].conns ==> d.Node() == n
  {
  }

  lemma ArriveToldNew(net: Net, l: Link, order: seq<Subject>)
    requires LinkOk(net, l) && RouterOk(net, l.b, net.routers[l.b]) && l !in net.arrived
    requires Lists(order, net.routers[l.b].Subjects())
    ensures ToldOk(TellAll(Arrived(net, l), Conn(l, false), order), Arrived(net, l).routers[l.b], Conn(l, false))
  {
    var r' := Arrived(net, l).routers[l.b];
    assert r'.Subjects() == net.routers[l.b].Subjects();
    TellAllToldOk(Arrived(net, l), r', Conn(l, false), order);
  }

  lemma ArriveToldOld(net: Net, l: Link, order: seq<Subject>, n: NodeId, d: Conn)
    requires LinkOk(net, l) && n in net.routers && ToldOk(net, net.routers[n], d) && d != Conn(l, false)
    ensures ToldOk(TellAll(Arrived(net, l), Conn(l, false), order), Arrived(net, l).routers[n], d)
  {
    var net1 := Arrived(net, l);
    assert ToldOk(net1, net.routers[n], d);
    TellAllOthers(net1, net.routers[n], net1.routers[n], Conn(l, false), order, d);
  }

  lemma ArriveToldAt(net: Net, l: Link, order: seq<Subject>, n: NodeId, d: Conn)
    requires RoutersOk(net) && ToldInv(net) && LinkOk(net, l) && l !in net.arrived
    requires l.b in net.routers && Lists(order, net.routers[l.b].Subjects())
    requires n in net.routers && d in Arrived(net, l).routers[n].conns
    ensures ToldOk(TellAll(Arrived(net, l), Conn(l, false), order), Arrived(net, l).routers[n], d)
  {
    assert RouterOk(net, n, net.routers[n]) && RouterOk(net, l.b, net.routers[l.b]);
    if d == Conn(l, false) {
      HomeConn(net, n, d);
      ArriveToldNew(net, l, order);
    } else {
      ArriveToldOld(net, l, order, n, d);
    }
  }

  lemma ArriveTold(net: Net, l: Link, order: seq<Subject>)
    requires Shape(net) && ToldInv(net) && Enabled(net, Arrive(l, order))
    ensures ToldInv(TellAll(Arrived(net, l), Conn(l, false), order))
  {
    var net1 := Arrived(net, l);
    var net' := TellAll(net1, Conn(l, false), order);
    assert LinkOk(net, l);
    TellAllIs(net1, Conn(l, false), order);
    forall n, d | n in net'.routers && d in net'.routers[n].conns ensures ToldOk(net', net'.routers[n], d) {
      ArriveToldAt(net, l, order, n, d);
    }
  }

  /** Nothing has been sent or received on the establisher's end yet. */
  lemma ArriveReplayUp(net: Net, l: Link)
    requires Shape(net) && l in net.made && l !in net.arrived && Joined(Arrived(net, l), Conn(l, true))
    ensures ReplayOk(Arrived(net, l), Conn(l, true))
  {
    assert LinkOk(net, l) && RouterOk(net, l.a, net.routers[l.a]);
    Untagged(net, l.a, net.routers[l.a], Conn(l, true));
    ArriveReplayFirst(net, l);
  }

  lemma ArriveReplayFirst(net: Net, l: Link)
    requires l.a in net.routers && l.b in net.routers && LinkOk(net, l) && l !in net.arrived
    requires TagsOf(net.routers[l.a], Conn(l, true)) == {} && HeldAt(net.routers[l.a], Conn(l, true)) == []
    ensures ReplayOk(Arrived(net, l), Conn(l, true))
  {
    var r, r' := net.routers[l.a], Arrived(net, l).routers[l.a];
    assert r'.tags == r.tags && r'.held == r.held;
    assert TagsOf(r', Conn(l, true)) == TagsOf(r, Conn(l, true));
  }

  /** Before a link arrives, its connection has no tags and nothing was held from it. */
  lemma Untagged(net: Net, n: NodeId, r: Router, d: Conn)
    requires RouterOk(net, n, r) && d.link !in net.arrived
    ensures TagsOf(r, d) == {} && HeldAt(r, d) == []
  {
  }

  /** A connection that is listed anew changes neither tags nor channels. */
  lemma ArriveChangesNoReplay(net: Net, l: Link, d: Conn)
    requires l.b in net.routers && ReplayOk(net, d)
    ensures ReplayOk(Arrived(net, l), d)
  {
    var r, r' := net.routers[d.Node()], Arrived(net, l).routers[d.Node()];
    assert TagsOf(r', d) == TagsOf(r, d) && HeldAt(r', d) == HeldAt(r, d);
  }

  lemma ArriveJoinsOne(net: Net, l: Link, d: Conn)
    requires l !in net.arrived && l.b in net.routers && d != Conn(l, true) && Joined(Arrived(net, l), d)
    ensures Joined(net, d)
  {
    assert d == Conn(d.link, d.up) && d.Peer() == Conn(d.link, !d.up);
  }

  lemma ArriveReplay(net: Net, l: Link, order: seq<Subject>, d: Conn)
    requires Inv(net) && Enabled(net, Arrive(l, order)) && Joined(Arrived(net, l), d)
    ensures ReplayOk(TellAll(Arrived(net, l), Conn(l, false), order), d)
  {
    if d == Conn(l, true) {
      ArriveReplayUp(net, l);
    } else {
      ArriveJoinsOne(net, l, d);
      ArriveChangesNoReplay(net, l, d);
    }
    TellAllReplay(Arrived(net, l), Conn(l, false), order, d);
  }

  lemma ArriveStalled(net: Net, l: Link, net': Net)
    requires StalledInv(net) && l.b in net.routers
    requires net'.routers == Arrived(net, l).routers && net'.stalled == net.stalled
    requires net'.arrived == net.arrived + {l}
    ensures StalledInv(net')
  {
    StalledSame(net, net');
  }

  lemma ArriveKeeps(net: Net, l: Link, order: seq<Subject>)
    requires Inv(net) && Enabled(net, Arrive(l, order))
    ensures Inv(Step(net, Arrive(l, order)))
  {
    var net' := TellAll(Arrived(net, l), Conn(l, false), order);
    ArriveShape(net, l);
    TellAllShape(Arrived(net, l), Conn(l, false), order);
    ArriveTold(net, l, order);
    assert LinkOk(net, l);
    TellAllIs(Arrived(net, l), Conn(l, false), order);
    ArriveStalled(net, l, net');
    ArriveReplayInv(net, l, order);
  }

  lemma ArriveReplayInv(net: Net, l: Link, order: seq<Subject>)
    requires Inv(net) && Enabled(net, Arrive(l, order)) && LinkOk(net, l)
    ensures ReplayInv(TellAll(Arrived(net, l), Conn(l, false), order), {})
  {
    TellAllIs(Arrived(net, l), Conn(l, false), order);
    forall d | Joined(TellAll(Arrived(net, l), Conn(l, false), order), d)
      ensures ReplayOk(TellAll(Arrived(net, l), Conn(l, false), order), d)
    {
      TellsJoined(Arrived(net, l), TellAll(Arrived(net, l), Conn(l, false), order), d);
      ArriveReplay(net, l, order, d);
    }
  }

  /** Telling a connection something changes no list. */
  lemma TellsJoined(net: Net, net': Net, d: Conn)
    requires net' == net.(chan := net'.chan, told := net'.told, decided := net'.decided)
    ensures Joined(net', d) <==> Joined(net, d)
  {
  }

  ghost predicate MayMake(net: Net, l: Link) {
    l !in net.made && l.b in net.routers && (l.a in net.clients || l.a in net.routers)
  }

  lemma NewLinkOld(net: Net, l: Link, k: Link)
    requires LinkOk(net, k) && k != l
    ensures LinkOk(NewLink(net, l), k)
  {
  }

  lemma NewLinkLinks(net: Net, l: Link)
    requires LinksOk(net) && MayMake(net, l)
    ensures LinksOk(NewLink(net, l))
  {
    var net' := NewLink(net, l);
    forall k | k in net'.made ensures LinkOk(net', k) {
      if k != l {
        NewLinkOld(net, l, k);
      }
    }
  }

  lemma NewLinkRouter(net: Net, l: Link, n: NodeId, r: Router)
    requires RouterOk(net, n, r)
    ensures RouterOk(NewLink(net, l), n, r)
  {
  }

  lemma NewLinkShape(net: Net, l: Link)
    requires Shape(net) && MayMake(net, l)
    ensures Shape(NewLink(net, l))
  {
    NewLinkLinks(net, l);
    forall n | n in net.routers ensures RouterOk(NewLink(net, l), n, net.routers[n]) {
      NewLinkRouter(net, l, n, net.routers[n]);
    }
  }

  lemma NewLinkToldAt(net: Net, l: Link, n: NodeId, r: Router, d: Conn)
    requires ToldOk(net, r, d) && d.link != l
    ensures ToldOk(NewLink(net, l), r, d)
  {
  }

  lemma NewLinkTold(net: Net, l: Link)
    requires RoutersOk(net) && ToldInv(net) && l !in net.made
    ensures ToldInv(NewLink(net, l))
  {
    forall n, d | n in net.routers && d in net.routers[n].conns ensures ToldOk(NewLink(net, l), net.routers[n], d) {
      assert RouterOk(net, n, net.routers[n]);
      NewLinkToldAt(net, l, n, net.routers[n], d);
    }
  }

  /** Nothing is on its way on a link just made, and nothing was told on it. */
  lemma NewLinkReplay(net: Net, l: Link, net': Net, d: Conn)
    requires RoutersOk(net) && l !in net.made && l !in net.arrived && AtRouter(net, d)
    requires net' == NewLink(net, l).(routers := net'.routers, clientConns := net'.clientConns)
    requires net'.routers.Keys == net.routers.Keys
    requires net'.routers[d.Node()].tags == net.routers[d.Node()].tags
    requires HeldAt(net'.routers[d.Node()], d) == HeldAt(net.routers[d.Node()], d)
    requires d.link != l ==> ReplayOk(net, d)
    ensures ReplayOk(net', d)
  {
    var r := net.routers[d.Node()];
    assert TagsOf(net'.routers[d.Node()], d) == TagsOf(r, d);
    assert d == Conn(d.link, d.up) && d.Peer() == Conn(d.link, !d.up);
    if d.link == l {
      assert RouterOk(net, d.Node(), r);
      assert TagsOf(r, d) == {};
      assert HeldAt(r, d) + net'.chan[d] == [];
    }
  }

  lemma ClientConnectKeeps(net: Net, l: Link)
    requires Inv(net) && Enabled(net, ClientConnect(l))
    ensures Inv(Step(net, ClientConnect(l)))
  {
    var net1 := NewLink(net, l);
    var net' := net1.(clientConns := net.clientConns + {Conn(l, true)});
    NewLinkShape(net, l);
    NewLinkTold(net, l);
    WithClient(net1, Conn(l, true));
    StalledSame(net, net');
    forall d | Joined(net', d) ensures ReplayOk(net', d) {
      ClientConnectReplay(net, l, net', d);
    }
  }

  lemma ClientConnectReplay(net: Net, l: Link, net': Net, d: Conn)
    requires Inv(net) && l !in net.made && l !in net.arrived
    requires net' == NewLink(net, l).(clientConns := net.clientConns + {Conn(l, true)}) && Joined(net', d)
    ensures ReplayOk(net', d)
  {
    if d.link != l {
      ConnectJoinsNone(net, l, d);
      assert ReplayOk(net, d);
    }
    NewLinkReplay(net, l, net', d);
  }

  lemma ConnectJoinsNone(net: Net, l: Link, d: Conn)
    requires d.link != l && Joined(NewLink(net, l).(clientConns := net.clientConns + {Conn(l, true)}), d)
    ensures Joined(net, d)
  {
    assert d.Peer() != Conn(l, true) && d != Conn(l, true);
  }

  lemma WithClient(net: Net, c: Conn)
    requires Shape(net) && ToldInv(net) && c.up && c.link in net.made && c.Node() in net.clients
    requires forall d :: d in net.clientConns ==> d.Node() != c.Node()
    ensures Shape(net.(clientConns := net.clientConns + {c})) && ToldInv(net.(clientConns := net.clientConns + {c}))
  {
    OtherClients(net, net.clientConns + {c});
    OneMoreClient(net, net.(clientConns := net.clientConns + {c}), c);
  }

  lemma OneMoreClient(net: Net, net': Net, c: Conn)
    requires ClientsOk(net) && c.up && c.link in net.made && c.Node() in net.clients
    requires forall d :: d in net.clientConns ==> d.Node() != c.Node()
    requires net'.clientConns == net.clientConns + {c} && net'.made == net.made && net'.clients == net.clients
    ensures ClientsOk(net')
  {
  }

  /** Which clients are connected matters for no table and for nothing that is told. */
  lemma OtherClients(net: Net, conns: set<Conn>)
    requires RoutersOk(net) && LinksOk(net) && ToldInv(net)
    ensures RoutersOk(net.(clientConns := conns)) && LinksOk(net.(clientConns := conns))
    ensures ToldInv(net.(clientConns := conns))
  {
    SameRoutersOk(net, net.(clientConns := conns));
    SameLinksOk(net, net.(clientConns := conns));
    SameToldInv(net, net.(clientConns := conns));
  }

  lemma SameRoutersOk(net: Net, net': Net)
    requires RoutersOk(net) && net'.routers == net.routers && net'.clients == net.clients
    requires net'.made == net.made && net'.arrived == net.arrived
    ensures RoutersOk(net')
  {
    forall n | n in net'.routers ensures n !in net'.clients && RouterOk(net', n, net'.routers[n]) {
      assert RouterOk(net, n, net.routers[n]);
    }
  }

  lemma SameLinksOk(net: Net, net': Net)
    requires LinksOk(net) && net'.routers.Keys == net.routers.Keys && net'.clients == net.clients
    requires net'.made == net.made && net'.arrived == net.arrived && net'.chan == net.chan && net'.told == net.told
    requires net'.decided == net.decided
    ensures LinksOk(net')
  {
    forall l | l in net'.made ensures LinkOk(net', l) {
      assert LinkOk(net, l);
    }
  }

  lemma SameToldInv(net: Net, net': Net)
    requires ToldInv(net) && net'.routers == net.routers && net'.chan == net.chan && net'.told == net.told
    requires net'.decided == net.decided
    ensures ToldInv(net')
  {
    forall n, d | n in net'.routers && d in net'.routers[n].conns ensures ToldOk(net', net'.routers[n], d) {
      assert ToldOk(net, net.routers[n], d);
    }
  }

  function Pending(r: Router, c: Conn): Router {
    r.(conns := r.conns + {c}, pending := r.pending + {c}, held := r.held[c := []])
  }

  lemma PendingRouter(net: Net, n: NodeId, r: Router, c: Conn)
    requires RouterOk(net, n, r) && c.up && c.Node() == n && c.link in net.made && c.link !in net.arrived
    ensures RouterOk(net, n, Pending(r, c))
  {
  }

  lemma PendingTold(net: Net, r: Router, c: Conn, d: Conn)
    requires c in net.told && c in net.decided && c.Peer() in net.chan
    requires net.told[c] == {} && net.decided[c] == {} && net.chan[c.Peer()] == []
    requires d != c ==> ToldOk(net, r, d)
    ensures ToldOk(net, Pending(r, c), d)
  {
    assert forall s :: Wanted(Pending(r, c), d, s) == Wanted(r, d, s);
  }

  lemma PendingToldInv(net: Net, n: NodeId, c: Conn)
    requires ToldInv(net) && n in net.routers
    requires c in net.told && c in net.decided && c.Peer() in net.chan
    requires net.told[c] == {} && net.decided[c] == {} && net.chan[c.Peer()] == []
    requires forall m :: m in net.routers && m != n ==> c !in net.routers[m].conns
    ensures ToldInv(SetRouter(net, n, Pending(net.routers[n], c)))
  {
    var net' := SetRouter(net, n, Pending(net.routers[n], c));
    forall m, d | m in net'.routers && d in net'.routers[m].conns ensures ToldOk(net', net'.routers[m], d) {
      if m == n {
        PendingTold(net, net.routers[n], c, d);
        assert ToldOk(net, net'.routers[m], d);
      } else {
        assert ToldOk(net, net.routers[m], d);
      }
    }
  }

  /** A connection that was just made is in nobody's tables. */
  lemma Unknown(net: Net, l: Link, n: NodeId, up: bool)
    requires n in net.routers && RouterOk(net, n, net.routers[n]) && l !in net.made
    ensures var c := Conn(l, up); c !in net.routers[n].conns && c !in net.routers[n].held
  {
  }

  lemma EstablishJoined(net: Net, l: Link, d: Conn)
    requires l.a in net.routers && d.link != l
    requires Joined(SetRouter(NewLink(net, l), l.a, Pending(net.routers[l.a], Conn(l, true))), d)
    ensures Joined(net, d)
  {
  }

  lemma EstablishStalled(net: Net, l: Link)
    requires StalledInv(net) && l.a in net.routers && l !in net.arrived
    ensures StalledInv(SetRouter(NewLink(net, l), l.a, Pending(net.routers[l.a], Conn(l, true))))
  {
    StalledSame(net, SetRouter(NewLink(net, l), l.a, Pending(net.routers[l.a], Conn(l, true))));
  }

  lemma EstablishKeeps(net: Net, l: Link)
    requires Inv(net) && Enabled(net, Establish(l)) && l !in net.arrived
    ensures Inv(Step(net, Establish(l)))
  {
    var c, r, net1 := Conn(l, true), net.routers[l.a], NewLink(net, l);
    var net' := SetRouter(net1, l.a, Pending(r, c));
    NewLinkShape(net, l);
    NewLinkTold(net, l);
    PendingRouter(net1, l.a, r, c);
    SetRouterShape(net1, l.a, Pending(r, c));
    forall m | m in net.routers ensures c !in net.routers[m].conns && c !in net.routers[m].held {
      Unknown(net, l, m, true);
    }
    PendingToldInv(net1, l.a, c);
    EstablishStalled(net, l);
    forall d | Joined(net', d) ensures ReplayOk(net', d) {
      EstablishReplay(net, l, d);
    }
  }

  lemma EstablishReplay(net: Net, l: Link, d: Conn)
    requires RoutersOk(net) && ReplayInv(net, {}) && l.a in net.routers && l !in net.made && l !in net.arrived
    requires Conn(l, true) !in net.routers[l.a].held
    requires Joined(SetRouter(NewLink(net, l), l.a, Pending(net.routers[l.a], Conn(l, true))), d)
    ensures ReplayOk(SetRouter(NewLink(net, l), l.a, Pending(net.routers[l.a], Conn(l, true))), d)
  {
    var net' := SetRouter(NewLink(net, l), l.a, Pending(net.routers[l.a], Conn(l, true)));
    if d.link != l {
      EstablishJoined(net, l, d);
      assert ReplayOk(net, d);
    }
    NewLinkReplay(net, l, net', d);
  }

  lemma ClientSendTold(net: Net, c: Conn, m: Message)
    requires RoutersOk(net) && ToldInv(net) && c.Node() !in net.routers
    ensures ToldInv(Queue(net, Send({c}, m)))
  {
    var net' := Queue(net, Send({c}, m));
    forall n, d | n in net.routers && d in net.routers[n].conns ensures ToldOk(net', net.routers[n], d) {
      assert ToldOk(net, net.routers[n], d);
      HomeConn(net, n, d);
      assert d.Peer().Peer() == d;
    }
  }

  lemma ClientSendKeeps(net: Net, c: Conn, m: Message)
    requires Inv(net) && Enabled(net, ClientSend(c, m))
    ensures Inv(Step(net, ClientSend(c, m)))
  {
    var send := Send({c}, m);
    QueueKeepsShape(net, send);
    ClientSendTold(net, c, m);
    QueueReplayInv(net, send);
    StalledSame(net, Queue(net, send));
  }

  lemma QueueReplayInv(net: Net, send: Send)
    requires ReplayInv(net, {})
    ensures ReplayInv(Queue(net, send), {})
  {
    forall d | Joined(Queue(net, send), d) ensures ReplayOk(Queue(net, send), d) {
      assert Joined(net, d) && ReplayOk(net, d);
      QueueKeepsReplay(net, send, d);
    }
  }

  // accepting a checked connection

  lemma ActivateStalled(net: Net, c: Conn, net': Net)
    requires StalledInv(net) && AtRouter(net, c) && net'.stalled == net.stalled && net'.arrived == net.arrived
    requires var r := net.routers[c.Node()];
             net'.routers == net.routers[c.Node() := r.(pending := r.pending - {c})]
    ensures StalledInv(net')
  {
    StalledSame(net, net');
  }

  lemma ActivateKeeps(net: Net, c: Conn, order: seq<Subject>)
    requires Inv(net) && Enabled(net, Activate(c, order))
    ensures Inv(Step(net, Activate(c, order)))
  {
    var n, r := c.Node(), net.routers[c.Node()];
    var r' := r.(pending := r.pending - {c});
    var net1 := SetRouter(net, n, r');
    assert RouterOk(net, n, r) && ToldOk(net, r, c);
    ActiveRouter(net, n, r, c);
    SetRouterShape(net, n, r');
    TellAllShape(net1, c, order);
    ActivateTold(net, c, order);
    TellAllIs(net1, c, order);
    ActivateStalled(net, c, TellAll(net1, c, order));
    forall d | Joined(TellAll(net1, c, order), d) ensures ReplayOk(TellAll(net1, c, order), d) {
      JoinedSame(net, n, r', d);
      TellsJoined(net1, TellAll(net1, c, order), d);
      ActivateReplay(net, c, order, d);
    }
  }

  lemma ActivateReplay(net: Net, c: Conn, order: seq<Subject>, d: Conn)
    requires ReplayInv(net, {}) && AtRouter(net, c) && Joined(net, d)
    ensures var r := net.routers[c.Node()];
            ReplayOk(TellAll(SetRouter(net, c.Node(), r.(pending := r.pending - {c})), c, order), d)
  {
    var r := net.routers[c.Node()];
    var r' := r.(pending := r.pending - {c});
    assert ReplayOk(net, d);
    assert TagsOf(r', d) == TagsOf(r, d);
    TellAllReplay(SetRouter(net, c.Node(), r'), c, order, d);
  }

  lemma ActiveRouter(net: Net, n: NodeId, r: Router, c: Conn)
    requires RouterOk(net, n, r) && c.link in net.arrived
    ensures RouterOk(net, n, r.(pending := r.pending - {c}))
  {
  }

  lemma ActivateTold(net: Net, c: Conn, order: seq<Subject>)
    requires RoutersOk(net) && ToldInv(net) && Enabled(net, Activate(c, order))
    requires c in net.routers[c.Node()].conns
    ensures var r := net.routers[c.Node()];
            ToldInv(TellAll(SetRouter(net, c.Node(), r.(pending := r.pending - {c})), c, order))
  {
    var n, r := c.Node(), net.routers[c.Node()];
    var r' := r.(pending := r.pending - {c});
    var net1 := SetRouter(net, n, r');
    var net' := TellAll(net1, c, order);
    assert RouterOk(net, n, r) && ToldOk(net, r, c);
    assert r'.Subjects() == r.Subjects();
    TellAllToldOk(net1, r', c, order);
    TellAllIs(net1, c, order);
    forall m, d | m in net'.routers && d in net'.routers[m].conns ensures ToldOk(net', net'.routers[m], d) {
      HomeConn(net, m, d);
      if d != c {
        assert ToldOk(net, net.routers[m], d);
        assert ToldOk(net1, net.routers[m], d);
        TellAllOthers(net1, net.routers[m], net'.routers[m], c, order, d);
      }
    }
  }

  // losing a connection

  lemma WithoutRouter(net: Net, n: NodeId, r: Router, c: Conn)
    requires RouterOk(net, n, r)
    ensures RouterOk(net, n, Without(r, c))
    ensures c in r.conns && !c.up ==> c.link in net.arrived
  {
  }

  lemma WithoutHeld(r: Router, c: Conn, d: Conn)
    ensures d != c ==> HeldAt(Without(r, c), d) == HeldAt(r, d)
  {
  }

  lemma WithoutTold(net: Net, n: NodeId, c: Conn)
    requires ToldInv(net) && n in net.routers
    ensures ToldInv(SetRouter(net, n, Without(net.routers[n], c)))
  {
    var net' := SetRouter(net, n, Without(net.routers[n], c));
    forall m, d | m in net'.routers && d in net'.routers[m].conns ensures ToldOk(net', net'.routers[m], d) {
      assert ToldOk(net, net.routers[m], d);
      assert forall s :: Wanted(net'.routers[m], d, s) == Wanted(net.routers[m], d, s);
    }
  }

  lemma WithoutReplay(net: Net, n: NodeId, c: Conn, d: Conn)
    requires n in net.routers && d != c && ReplayOk(net, d)
    ensures ReplayOk(SetRouter(net, n, Without(net.routers[n], c)), d)
  {
    WithoutHeld(net.routers[n], c, d);
    assert TagsOf(Without(net.routers[n], c), d) == TagsOf(net.routers[n], d);
  }

  lemma WithoutStalled(net: Net, n: NodeId, c: Conn)
    requires StalledInv(net) && n in net.routers
    ensures StalledInv(SetRouter(net, n, Without(net.routers[n], c)))
  {
    StalledSame(net, SetRouter(net, n, Without(net.routers[n], c)));
  }

  lemma LoseAtRouter(net: Net, n: NodeId, c: Conn)
    requires InvBut(net, {c}) && n in net.routers && c in net.routers[n].conns
    ensures Inv(SetRouter(net, n, Without(net.routers[n], c)))
  {
    var r := net.routers[n];
    var net' := SetRouter(net, n, Without(r, c));
    assert RouterOk(net, n, r) && c.Node() == n;
    WithoutRouter(net, n, r, c);
    SetRouterShape(net, n, Without(r, c));
    WithoutTold(net, n, c);
    WithoutStalled(net, n, c);
    LostUnarrived(net, n, c);
    forall d | Joined(net', d) ensures ReplayOk(net', d) {
      WithoutJoined(net, n, c, d);
      assert ReplayOk(net, d);
      WithoutReplay(net, n, c, d);
    }
  }

  lemma WithoutJoined(net: Net, n: NodeId, c: Conn, d: Conn)
    requires n in net.routers && Joined(SetRouter(net, n, Without(net.routers[n], c)), d)
    ensures Joined(net, d)
  {
  }

  /** The acceptor's end of a link that has not arrived is listed nowhere. */
  lemma LostUnarrived(net: Net, n: NodeId, c: Conn)
    requires Shape(net) && n in net.routers && c.Node() == n && c in net.routers[n].conns
    ensures !Joined(SetRouter(net, n, Without(net.routers[n], c)), c)
  {
    var net' := SetRouter(net, n, Without(net.routers[n], c));
    assert RouterOk(net, n, net.routers[n]);
    if c.link !in net.arrived && c.Peer().Node() in net.routers {
      assert RouterOk(net, c.Peer().Node(), net.routers[c.Peer().Node()]);
    }
  }

  lemma LoseKeeps(net: Net, c: Conn)
    requires Inv(net) && Enabled(net, Lose(c))
    ensures Inv(Step(net, Lose(c)))
  {
    if c in net.clientConns {
      LoseClientKeeps(net, c);
    } else {
      UnlistKeeps(net, c, Other);
    }
  }

  lemma LoseClientKeeps(net: Net, c: Conn)
    requires Inv(net)
    ensures Inv(net.(clientConns := net.clientConns - {c}))
  {
    OtherClients(net, net.clientConns - {c});
    LoseClientReplay(net, c);
    StalledSame(net, net.(clientConns := net.clientConns - {c}));
  }

  lemma LoseClientReplay(net: Net, c: Conn)
    requires ReplayInv(net, {})
    ensures ReplayInv(net.(clientConns := net.clientConns - {c}), {})
  {
    var net' := net.(clientConns := net.clientConns - {c});
    forall d | Joined(net', d) ensures ReplayOk(net', d) {
      assert Joined(net, d) && ReplayOk(net, d);
    }
  }

  lemma FailKeeps(net: Net, c: Conn, over: bool)
    requires Inv(net) && Enabled(net, Fail(c, over))
    ensures Inv(Step(net, Fail(c, over)))
  {
    if over {
      PopKeeps(net, c);
      UnlistKeeps(Pop(net, c), c, Relay(c));
    } else {
      UnlistKeeps(net, c, Relay(c));
    }
  }

  /** The invariant does not look at what is left of lost connections. */
  lemma OnlyHistory(net: Net, net': Net)
    requires Inv(net) && net' == net.(lost := net'.lost, stalled := net'.stalled)
    ensures Shape(net') && ToldInv(net') && ReplayInv(net', {})
  {
    SameRoutersOk(net, net');
    SameLinksOk(net, net');
    SameToldInv(net, net');
    forall d | Joined(net', d) ensures ReplayOk(net', d) {
      assert Joined(net, d) && ReplayOk(net, d);
    }
  }

  lemma OnlyLeftovers(net: Net, net': Net)
    requires Inv(net) && net' == net.(lost := net'.lost)
    ensures Inv(net')
  {
    OnlyHistory(net, net');
    StalledSame(net, net');
  }

  lemma UnlistKeeps(net: Net, c: Conn, task: Task)
    requires InvBut(net, {c}) && AtRouter(net, c) && c in net.routers[c.Node()].conns
    ensures Inv(Unlist(net, c, task))
  {
    LoseAtRouter(net, c.Node(), c);
    OnlyLeftovers(SetRouter(net, c.Node(), Without(net.routers[c.Node()], c)), Unlist(net, c, task));
  }
}
