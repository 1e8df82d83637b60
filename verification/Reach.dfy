/** For runs written out step by step: which states can be reached, and what a step that sends
    leads to. */
module Reach {
  import opened Links
  import opened Results
  import opened Subjects
  import opened Routing

  /** Some run leads here. */
  ghost predicate Reached(net: Net) {
    exists trace, events :: Run(trace, events) && trace[|events|] == net
  }

  lemma Longer(trace: seq<Net>, events: seq<Event>, e: Event, net': Net)
    requires Run(trace, events) && Enabled(trace[|events|], e) && net' == Step(trace[|events|], e)
    ensures Run(trace + [net'], events + [e]) && (trace + [net'])[|events| + 1] == net'
  {
    var trace', events' := trace + [net'], events + [e];
    forall i | 0 <= i < |events'|
      ensures Enabled(trace'[i], events'[i]) && trace'[i + 1] == Step(trace'[i], events'[i])
    {
      if i < |events| {
        assert trace'[i] == trace[i] && trace'[i + 1] == trace[i + 1] && events'[i] == events[i];
      }
    }
  }

  lemma Starts(net: Net)
    requires Init(net)
    ensures Reached(net)
  {
    assert Run([net], []) && [net][0] == net;
  }

  lemma ReachedOn(net: Net, e: Event, net': Net)
    requires Reached(net) && Enabled(net, e) && net' == Step(net, e)
    ensures Reached(net')
  {
    var trace, events :| Run(trace, events) && trace[|events|] == net;
    Longer(trace, events, e, net');
  }

  // --- sending --------------------------------------------------------------------------------

  ghost function Queued(chan: map<Conn, seq<Message>>, to: set<Conn>, m: Message): map<Conn, seq<Message>> {
    map c | c in chan :: if c.Peer() in to then chan[c] + [m] else chan[c]
  }

  ghost function Noted(told: map<Conn, set<Subject>>, to: set<Conn>, m: Message): map<Conn, set<Subject>> {
    map c | c in told :: if c in to then Apply(told[c], m) else told[c]
  }

  lemma NoneNoted(chan: map<Conn, seq<Message>>, told: map<Conn, set<Subject>>, m: Message)
    ensures Queued(chan, {}, m) == chan && Noted(told, {}, m) == told
  {
  }

  lemma OneQueued(chan: map<Conn, seq<Message>>, d: Conn, m: Message)
    requires d.Peer() in chan
    ensures Queued(chan, {d}, m) == chan[d.Peer() := chan[d.Peer()] + [m]]
  {
    assert forall c: Conn :: c.Peer().Peer() == c;
  }

  lemma TwoQueued(chan: map<Conn, seq<Message>>, d: Conn, e: Conn, m: Message)
    requires d.Peer() in chan && e.Peer() in chan && d != e
    ensures Queued(chan, {d, e}, m)
            == chan[d.Peer() := chan[d.Peer()] + [m]][e.Peer() := chan[e.Peer()] + [m]]
  {
    assert forall c: Conn :: c.Peer().Peer() == c;
  }

  lemma OneNoted(told: map<Conn, set<Subject>>, d: Conn, m: Message)
    requires d in told
    ensures Noted(told, {d}, m) == told[d := Apply(told[d], m)]
  {
  }

  lemma TwoNoted(told: map<Conn, set<Subject>>, d: Conn, e: Conn, m: Message)
    requires d in told && e in told && d != e
    ensures Noted(told, {d, e}, m) == told[d := Apply(told[d], m)][e := Apply(told[e], m)]
  {
  }

  /** Taking a message from where it waits does not change what its handler does. */
  lemma SameResponse(net: Net, net': Net, c: Conn, m: Message)
    requires AtRouter(net, c) && net'.routers == net.routers && net'.clientConns == net.clientConns
    requires net'.lost.loss.Keys == net.lost.loss.Keys
    requires forall d :: d in net.lost.loss ==> net'.lost.loss[d].closed == net.lost.loss[d].closed
    ensures Response(net', c, m) == Response(net, c, m)
  {
    var send := Handle(net.routers[c.Node()], c, m).1;
    assert forall d :: Open(net', d) == Open(net, d);
    assert OnOpen(net', send) == OnOpen(net, send);
  }

  // --- one step -----------------------------------------------------------------------------------

  /** Nobody connects, and no link is made or arrives. */
  ghost predicate SameLinks(net: Net, net': Net) {
    && net'.clients == net.clients && net'.clientConns == net.clientConns
    && net'.made == net.made && net'.arrived == net.arrived
  }

  ghost predicate NothingSent(net: Net, net': Net) {
    net'.chan == net.chan && net'.told == net.told && net'.decided == net.decided && net'.stalled == net.stalled
  }

  lemma Connects(net: Net, l: Link, net': Net)
    requires Reached(net) && Enabled(net, ClientConnect(l))
    requires net'.routers == net.routers && net'.clients == net.clients && net'.arrived == net.arrived
    requires net'.clientConns == net.clientConns + {Conn(l, true)} && net'.made == net.made + {l}
    requires net'.chan == net.chan[Conn(l, true) := []][Conn(l, false) := []]
    requires net'.told == net.told[Conn(l, true) := {}][Conn(l, false) := {}]
    requires net'.decided == net.decided[Conn(l, true) := {}][Conn(l, false) := {}]
    requires net'.stalled == net.stalled && net'.lost == net.lost
    ensures Reached(net')
  {
    ReachedOn(net, ClientConnect(l), net');
  }

  lemma Establishes(net: Net, l: Link, r: Router, net': Net)
    requires Reached(net) && Enabled(net, Establish(l))
    requires var q, c := net.routers[l.a], Conn(l, true);
             r == Router(q.conns + {c}, q.pending + {c}, q.held[c := []], q.tags)
    requires net'.routers == net.routers[l.a := r] && net'.clients == net.clients && net'.arrived == net.arrived
    requires net'.clientConns == net.clientConns && net'.made == net.made + {l}
    requires net'.chan == net.chan[Conn(l, true) := []][Conn(l, false) := []]
    requires net'.told == net.told[Conn(l, true) := {}][Conn(l, false) := {}]
    requires net'.decided == net.decided[Conn(l, true) := {}][Conn(l, false) := {}]
    requires net'.stalled == net.stalled && net'.lost == net.lost
    ensures Reached(net')
  {
    ReachedOn(net, Establish(l), net');
  }

  lemma ArrivesAt(net: Net, l: Link, r: Router, net': Net)
    requires Reached(net) && Enabled(net, Arrive(l, []))
    requires var q := net.routers[l.b]; r == Router(q.conns + {Conn(l, false)}, q.pending, q.held, q.tags)
    requires net'.routers == net.routers[l.b := r] && net'.clients == net.clients && net'.made == net.made
    requires net'.clientConns == net.clientConns && net'.arrived == net.arrived + {l}
    requires NothingSent(net, net') && net'.lost == net.lost
    ensures Reached(net')
  {
    ReachedOn(net, Arrive(l, []), net');
  }

  lemma Activates(net: Net, c: Conn, r: Router, net': Net)
    requires Reached(net) && Enabled(net, Activate(c, []))
    requires var q := net.routers[c.Node()]; r == Router(q.conns, q.pending - {c}, q.held, q.tags)
    requires net'.routers == net.routers[c.Node() := r]
    requires SameLinks(net, net') && NothingSent(net, net') && net'.lost == net.lost
    ensures Reached(net')
  {
    ReachedOn(net, Activate(c, []), net');
  }

  lemma IsDrained(net: Net, c: Conn, r: Router, net': Net)
    requires Reached(net) && Enabled(net, Drained(c))
    requires var q := net.routers[c.Node()]; r == Router(q.conns, q.pending, q.held - {c}, q.tags)
    requires net'.routers == net.routers[c.Node() := r]
    requires SameLinks(net, net') && NothingSent(net, net') && net'.lost == net.lost
    ensures Reached(net')
  {
    ReachedOn(net, Drained(c), net');
  }

  lemma ClientSends(net: Net, c: Conn, m: Message, net': Net)
    requires Reached(net) && c in net.clientConns && c in net.told && c.Peer() in net.chan
    requires net'.chan == net.chan[c.Peer() := net.chan[c.Peer()] + [m]]
    requires net'.told == net.told[c := Apply(net.told[c], m)] && net'.decided == net.decided
    requires net'.routers == net.routers && SameLinks(net, net')
    requires net'.stalled == net.stalled && net'.lost == net.lost
    ensures Reached(net')
  {
    OneQueued(net.chan, c, m);
    OneNoted(net.told, c, m);
    ReachedOn(net, ClientSend(c, m), net');
  }

  lemma ClientReceives(net: Net, c: Conn, net': Net)
    requires Reached(net) && c in net.clientConns && !AtRouter(net, c) && c in net.chan && net.chan[c] != []
    requires net'.chan == net.chan[c := net.chan[c][1..]] && net'.told == net.told && net'.decided == net.decided
    requires net'.routers == net.routers && SameLinks(net, net')
    requires net'.stalled == net.stalled && net'.lost == net.lost
    ensures Reached(net')
  {
    ReachedOn(net, Receive(c, None), net');
  }

  lemma ClientLeaves(net: Net, c: Conn, net': Net)
    requires Reached(net) && c in net.clientConns && net'.clientConns == net.clientConns - {c}
    requires net'.routers == net.routers && net'.clients == net.clients
    requires net'.made == net.made && net'.arrived == net.arrived
    requires NothingSent(net, net') && net'.lost == net.lost
    ensures Reached(net')
  {
    ReachedOn(net, Lose(c), net');
  }

  /** `c` is taken off its list, and its tags are to be removed. */
  ghost predicate Dropped(r: Router, lost: Leftovers, c: Conn, task: Task, r': Router, lost': Leftovers) {
    && r' == Router(r.conns - {c}, r.pending - {c}, r.held - {c}, r.tags)
    && lost' == Leftovers(lost.leaving + TagsAt(r, c), lost.loss[c := Loss(task, false, [])])
  }

  lemma Drops(net: Net, e: Event, c: Conn, r: Router, net': Net)
    requires Reached(net) && Enabled(net, e) && AtRouter(net, c) && c !in net.clientConns
    requires e == Lose(c) || e == Fail(c, false)
    requires Dropped(net.routers[c.Node()], net.lost, c, if e.Lose? then Other else Relay(c), r, net'.lost)
    requires net'.routers == net.routers[c.Node() := r] && SameLinks(net, net') && NothingSent(net, net')
    ensures Reached(net')
  {
    ReachedOn(net, e, net');
  }

  lemma Shuts(net: Net, c: Conn, n: nat, l: Loss, net': Net)
    requires Reached(net) && Enabled(net, Shut(c, n)) && c in net.chan && n <= |net.chan[c]|
    requires var task := net.lost.loss[c].task;
             l == Loss(task, true, if task == Relay(c) then net.chan[c][..n] else [])
    requires net'.lost == Leftovers(net.lost.leaving, net.lost.loss[c := l])
    requires net'.routers == net.routers && SameLinks(net, net') && NothingSent(net, net')
    ensures Reached(net')
  {
    ReachedOn(net, Shut(c, n), net');
  }

  lemma GivesUp(net: Net, c: Conn, leaving: set<Tag>, net': Net)
    requires Reached(net) && Enabled(net, GiveUp(c))
    requires leaving == set t | t in net.lost.leaving && t.conn == c
    requires net'.lost == Leftovers(net.lost.leaving - leaving, net.lost.loss)
    requires net'.routers == net.routers && SameLinks(net, net') && NothingSent(net, net')
    ensures Reached(net')
  {
    ReachedOn(net, GiveUp(c), net');
  }

  /** The node at `c` becomes `r` and sends `m` to all of `to`; `chan` is what was on its way. */
  ghost predicate Sends(net: Net, chan: map<Conn, seq<Message>>, c: Conn, r: Router, to: set<Conn>, m: Message,
                        net': Net) {
    && net'.routers == net.routers[c.Node() := r] && SameLinks(net, net') && net'.stalled == net.stalled
    && net'.chan == Queued(chan, to, m) && net'.told == Noted(net.told, to, m)
    && net'.decided == Noted(net.decided, to, m)
  }

  lemma Receives(net: Net, c: Conn, m: Message, r: Router, to: set<Conn>, net': Net)
    requires Reached(net) && Enabled(net, Receive(c, None)) && AtRouter(net, c)
    requires c !in net.routers[c.Node()].held && m == net.chan[c][0] && Response(net, c, m) == (r, Send(to, m))
    requires Sends(net, net.chan[c := net.chan[c][1..]], c, r, to, m, net') && net'.lost == net.lost
    ensures Reached(net')
  {
    SameResponse(net, Pop(net, c), c, m);
    ReachedOn(net, Receive(c, None), net');
  }

  lemma ReadOnIs(net: Net, c: Conn)
    requires Enabled(net, ReadOn(c, None))
    ensures Step(net, ReadOn(c, None)) == Process(TakeNext(net, c), Relay(c), c, NextOf(net, c), None)
  {
  }

  lemma TakeNextIs(net: Net, c: Conn, m: Message)
    requires HasNext(net, c)
    ensures Response(TakeNext(net, c), c, m) == Response(net, c, m) && TakeNext(net, c).told == net.told
    ensures TakeNext(net, c).decided == net.decided && SameLinks(net, TakeNext(net, c))
    ensures TakeNext(net, c).routers == net.routers && TakeNext(net, c).stalled == net.stalled
  {
    SameResponse(net, TakeNext(net, c), c, m);
  }

  lemma ReadsLate(net: Net, c: Conn, m: Message, r: Router, to: set<Conn>, net1: Net, net': Net)
    requires Reached(net) && Enabled(net, ReadOn(c, None)) && m == NextOf(net, c) && net1 == TakeNext(net, c)
    requires Response(net, c, m) == (r, Send(to, m))
    requires Sends(net, net1.chan, c, r, to, m, net') && net'.lost == net1.lost
    ensures Reached(net')
  {
    TakeNextIs(net, c, m);
    SentFrom(net1, Relay(c), c, m, r, to, net');
    ReadOnIs(net, c);
    ReachedOn(net, ReadOn(c, None), net');
  }

  lemma SentFrom(net: Net, task: Task, c: Conn, m: Message, r: Router, to: set<Conn>, net': Net)
    requires AtRouter(net, c) && Response(net, c, m) == (r, Send(to, m))
    requires Sends(net, net.chan, c, r, to, m, net') && net'.lost == net.lost
    ensures Process(net, task, c, m, None) == net'
  {
  }

  lemma Forgets(net: Net, c: Conn, s: Subject, r: Router, to: set<Conn>, net': Net)
    requires Reached(net) && Enabled(net, Forget(c, s, None))
    requires Removal(net, c, s) == (r, Send(to, Subscription(s, false)))
    requires Sends(net, net.chan, c, r, to, Subscription(s, false), net')
    requires net'.lost == Leftovers(net.lost.leaving - {Tag(c, s)}, net.lost.loss)
    ensures Reached(net')
  {
    ReachedOn(net, Forget(c, s, None), net');
  }

  lemma Resumes(net: Net, to: set<Conn>, m: Message, net': Net)
    requires Reached(net) && Enabled(net, Resume(0, None)) && |net.stalled| == 1
    requires OnOpen(net, net.stalled[0].rest) == Send(to, m)
    requires net'.chan == Queued(net.chan, to, m) && net'.told == Noted(net.told, to, m)
    requires net'.decided == net.decided && net'.stalled == []
    requires net'.routers == net.routers && SameLinks(net, net') && net'.lost == net.lost
    ensures Reached(net')
  {
    ReachedOn(net, Resume(0, None), net');
  }

  /** Of `to`, `at` has no room and `late` have to wait. */
  ghost predicate Stops(net: Net, chan: map<Conn, seq<Message>>, lost: Leftovers, task: Task, c: Conn, r: Router,
                        s: Send, stop: Stop, now: set<Conn>, r': Router, net': Net) {
    && stop.at.Node() == c.Node() && now == s.to - stop.late - {stop.at}
    && Dropped(r, lost, stop.at, task, r', net'.lost)
    && net'.routers == net.routers[c.Node() := r'] && SameLinks(net, net')
    && net'.stalled == (if stop.late == {} then net.stalled
                        else net.stalled + [Fanout(task, stop.at, Send(stop.late, s.message))])
    && net'.chan == Queued(chan, now, s.message) && net'.told == Noted(net.told, now, s.message)
    && net'.decided == Noted(net.decided, s.to, s.message)
  }

  /** Setting a node twice is setting it once. */
  lemma CarryStops(net: Net, task: Task, c: Conn, r: Router, s: Send, stop: Stop, now: set<Conn>, r': Router,
                   net': Net)
    requires AtRouter(net, c) && Stops(net, net.chan, net.lost, task, c, r, s, stop, now, r', net')
    ensures Carry(net, task, c, r, s, Some(stop)) == net'
  {
    assert net.routers[c.Node() := r][c.Node() := r'] == net.routers[c.Node() := r'];
  }

  lemma ReceiveStops(net: Net, c: Conn, r: Router, s: Send, stop: Stop, now: set<Conn>, r': Router, net': Net)
    requires Reached(net) && Enabled(net, Receive(c, Some(stop))) && AtRouter(net, c)
    requires c !in net.routers[c.Node()].held && Response(net, c, net.chan[c][0]) == (r, s)
    requires Stops(net, net.chan[c := net.chan[c][1..]], net.lost, Relay(c), c, r, s, stop, now, r', net')
    ensures Reached(net')
  {
    SameResponse(net, Pop(net, c), c, net.chan[c][0]);
    CarryStops(Pop(net, c), Relay(c), c, r, s, stop, now, r', net');
    ReachedOn(net, Receive(c, Some(stop)), net');
  }

  lemma ForgetStops(net: Net, c: Conn, s: Subject, r: Router, send: Send, stop: Stop, now: set<Conn>, r': Router,
                    net': Net)
    requires Reached(net) && Enabled(net, Forget(c, s, Some(stop))) && Removal(net, c, s) == (r, send)
    requires Stops(net, net.chan, Leftovers(net.lost.leaving - {Tag(c, s)}, net.lost.loss), net.lost.loss[c].task,
                   c, r, send, stop, now, r', net')
    ensures Reached(net')
  {
    CarryStops(Removed(net, {Tag(c, s)}), net.lost.loss[c].task, c, r, send, stop, now, r', net');
    ReachedOn(net, Forget(c, s, Some(stop)), net');
  }
}
