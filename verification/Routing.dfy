/** Subscription routing: what each node tags its connections with, and what it tells them.

    Every connection is a FIFO channel each way. Clients are the leaves of the bus. */
module Routing {
  import opened Links
  import opened Results
  import opened Subjects

  datatype Message = Subscription(subject: Subject, subscribe: bool) | Publish(subject: Subject, payload: seq<int>)

  /** `conn` is a subscriber of `subject`. */
  datatype Tag = Tag(conn: Conn, subject: Subject)

  // --- a node ---------------------------------------------------------------------

  /** `held` keeps what arrives on a connection until it is accepted and has been drained. */
  datatype Router = Router(conns: set<Conn>, pending: set<Conn>, held: map<Conn, seq<Message>>, tags: set<Tag>) {
    function Active(): set<Conn> {
      conns - pending
    }

    function Subscribers(subject: Subject): set<Conn> {
      set t | t in tags && t.subject == subject :: t.conn
    }

    function Subjects(): set<Subject> {
      set t | t in tags :: t.subject
    }

    /** The connections with a tag that `subject` matches, each once. */
    function Matching(subject: Subject): set<Conn> {
      set t | t in tags && Match(subject, t.subject) :: t.conn
    }
  }

  const NEW_ROUTER := Router({}, {}, map[], {})

  /** One message queued on each of some of the node's connections. */
  datatype Send = Send(to: set<Conn>, message: Message)

  function Subscribe(r: Router, source: Conn, subject: Subject): (Router, Send) {
    (r.(tags := r.tags + {Tag(source, subject)}),
     Send(r.Active() - {source}, Subscription(subject, true)))
  }

  /** Nobody left: tell everyone else; exactly one left: tell only that one; else nobody. */
  function Unsubscribe(r: Router, source: Conn, subject: Subject): (Router, Send) {
    var r' := r.(tags := r.tags - {Tag(source, subject)});
    var left := r'.Subscribers(subject);
    (r', Send(if Tag(source, subject) !in r.tags then {}
              else if left == {} then r.Active() - {source}
              else if |left| == 1 then left
              else {}, Subscription(subject, false)))
  }

  function Handle(r: Router, source: Conn, m: Message): (Router, Send) {
    match m
    case Subscription(subject, true) => Subscribe(r, source, subject)
    case Subscription(subject, false) => Unsubscribe(r, source, subject)
    case Publish(subject, _) => (r, Send(r.Matching(subject) - {source}, m))
  }

  // --- the network --------------------------------------------------------------------

  /** Who runs a piece of work: the relay loop of a connection, its cycle check, or anyone else. */
  datatype Task = Relay(conn: Conn) | Checker(conn: Conn) | Other

  /** A connection that is off its list. `task` drops it. Its relay loop goes on until it is closed,
      and if it is the one that drops the connection also afterwards: it has still to read `unread`. */
  datatype Loss = Loss(task: Task, closed: bool, unread: seq<Message>)

  /** What is left of lost connections. `leaving` are their tags that are still to be removed. */
  datatype Leftovers = Leftovers(leaving: set<Tag>, loss: map<Conn, Loss>)

  /** A fan-out that waits for `until` to be closed before it goes on to its last targets. */
  datatype Fanout = Fanout(task: Task, until: Conn, rest: Send)

  /** `chan[c]` is on its way to connection `c`. Two pieces of history: the subjects for which the
      last subscription message on `c` said "subscribe", by what was decided to send on `c`
      (`decided`) and by what was sent (`told`), which differ in order where a fan-out waits. */
  datatype Net = Net(routers: map<NodeId, Router>, clients: set<NodeId>, clientConns: set<Conn>,
                     chan: map<Conn, seq<Message>>, told: map<Conn, set<Subject>>, decided: map<Conn, set<Subject>>,
                     stalled: seq<Fanout>, made: set<Link>, arrived: set<Link>, lost: Leftovers)

  function Apply(subjects: set<Subject>, m: Message): set<Subject> {
    match m
    case Subscription(s, true) => subjects + {s}
    case Subscription(s, false) => subjects - {s}
    case Publish(_, _) => subjects
  }

  function Queue(net: Net, s: Send): Net {
    net.(chan := map c | c in net.chan :: if c.Peer() in s.to then net.chan[c] + [s.message] else net.chan[c],
         told := map c | c in net.told :: if c in s.to then Apply(net.told[c], s.message) else net.told[c])
  }

  function Decide(net: Net, s: Send): Net {
    net.(decided := map c | c in net.decided ::
                      if c in s.to then Apply(net.decided[c], s.message) else net.decided[c])
  }

  /** Decide to send, and send all or the first part of it at once. */
  function Post(net: Net, s: Send, now: set<Conn>): Net {
    Queue(Decide(net, s), Send(now, s.message))
  }

  /** Tell a newly joined connection about every subject in `order`. */
  function TellAll(net: Net, c: Conn, order: seq<Subject>): Net
    decreases |order|
  {
    if order == [] then net
    else TellAll(Post(net, Send({c}, Subscription(order[0], true)), {c}), c, order[1..])
  }

  function SetRouter(net: Net, n: NodeId, r: Router): Net {
    net.(routers := net.routers[n := r])
  }

  ghost predicate AtRouter(net: Net, c: Conn) {
    c.Node() in net.routers
  }

  predicate Listed(net: Net, c: Conn) {
    c in net.clientConns || (c.Node() in net.routers && c in net.routers[c.Node()].conns)
  }

  /** The connection is on its list or has not been closed yet: what is sent on it goes out. */
  predicate Open(net: Net, c: Conn) {
    Listed(net, c) || (c in net.lost.loss && !net.lost.loss[c].closed)
  }

  function OnOpen(net: Net, s: Send): Send {
    Send((set c | c in s.to && Open(net, c)), s.message)
  }

  // --- losing a connection ------------------------------------------------------------

  /** The router without the connection. */
  function Without(r: Router, c: Conn): Router {
    r.(conns := r.conns - {c}, pending := r.pending - {c}, held := r.held - {c})
  }

  function TagsAt(r: Router, c: Conn): set<Tag> {
    set t | t in r.tags && t.conn == c
  }

  /** `task` takes a node's connection off its list and is about to remove its tags. */
  function Unlist(net: Net, c: Conn, task: Task): Net
    requires c.Node() in net.routers
  {
    var r := net.routers[c.Node()];
    SetRouter(net, c.Node(), Without(r, c)).(
      lost := Leftovers(net.lost.leaving + TagsAt(r, c), net.lost.loss[c := Loss(task, false, [])]))
  }

  /** The relay loop of a closed connection is cancelled, unless it has closed it itself. */
  predicate Cancelled(net: Net, task: Task) {
    task.Relay? && task.conn in net.lost.loss
    && net.lost.loss[task.conn].closed && net.lost.loss[task.conn].task != task
  }

  /** The task waits neither in a fan-out nor for a connection to be closed. */
  ghost predicate Free(net: Net, task: Task) {
    && (forall f :: f in net.stalled ==> f.task != task)
    && (forall c :: c in net.lost.loss && net.lost.loss[c].task == task ==> net.lost.loss[c].closed)
  }

  /** While `task` drops `c`, it waits for another connection, which had no room for what dropping
      `c` sends. */
  ghost predicate DropWaits(net: Net, c: Conn)
    requires c in net.lost.loss
  {
    exists d :: d in net.lost.loss && d != c && net.lost.loss[d].task == net.lost.loss[c].task
  }

  // --- sending --------------------------------------------------------------------------

  /** There is no room for the message on `at`, so it is dropped, and until it is closed the
      connections `late` have to wait for their turn. */
  datatype Stop = Stop(at: Conn, late: set<Conn>)

  ghost predicate StopOk(net: Net, s: Send, stop: Option<Stop>) {
    stop.Some? ==>
      && stop.value.at in s.to && AtRouter(net, stop.value.at)
      && stop.value.at in net.routers[stop.value.at.Node()].conns
      && stop.value.late <= s.to - {stop.value.at}
  }

  /** Send to the targets in turn; if one has no room, drop it and wait. */
  function Spread(net: Net, task: Task, s: Send, stop: Option<Stop>): Net
    requires stop.Some? ==> stop.value.at.Node() in net.routers
  {
    match stop
    case None => Queue(net, s)
    case Some(Stop(at, late)) =>
      var queued := Queue(net, Send(s.to - late - {at}, s.message));
      Unlist(queued.(stalled := if late == {} then net.stalled
                                else net.stalled + [Fanout(task, at, Send(late, s.message))]), at, task)
  }

  /** What the node at `c` does with `m`, received on `c`, and where it sends what. */
  function Response(net: Net, c: Conn, m: Message): (Router, Send)
    requires c.Node() in net.routers
  {
    var (r, send) := Handle(net.routers[c.Node()], c, m);
    (r, OnOpen(net, send))
  }

  /** The node at `c` changes to `r` and sends. */
  function Carry(net: Net, task: Task, c: Conn, r: Router, s: Send, stop: Option<Stop>): Net
    requires stop.Some? ==> stop.value.at.Node() in net.routers
  {
    Spread(Decide(SetRouter(net, c.Node(), r), s), task, s, stop)
  }

  /** The node at `c` handles `m`, received on `c`. */
  function Process(net: Net, task: Task, c: Conn, m: Message, stop: Option<Stop>): Net
    requires c.Node() in net.routers && (stop.Some? ==> stop.value.at.Node() in net.routers)
  {
    var (r, send) := Response(net, c, m);
    Carry(net, task, c, r, send, stop)
  }

  // --- every event ------------------------------------------------------------------------

  /** `Lose`: the connection is lost and another task than its relay loop drops it. `Fail`: its own
      relay loop does, perhaps because the message it has just read goes over the limit. */
  datatype Event =
    | ClientConnect(link: Link)
    | Establish(link: Link)
    | Arrive(link: Link, order: seq<Subject>)
    | ClientSend(conn: Conn, message: Message)
    | Receive(conn: Conn, stop: Option<Stop>)
    | Activate(conn: Conn, order: seq<Subject>)
    | Drain(conn: Conn, stop: Option<Stop>)
    | Drained(conn: Conn)
    | Lose(conn: Conn)
    | Fail(conn: Conn, over: bool)
    | Forget(conn: Conn, subject: Subject, stop: Option<Stop>)
    | GiveUp(conn: Conn)
    | Shut(conn: Conn, buffered: nat)
    | ReadOn(conn: Conn, stop: Option<Stop>)
    | Resume(index: nat, stop: Option<Stop>)
    | Abandon(index: nat)

  /** `order` lists the elements of `subjects`, each once. */
  ghost predicate Lists(order: seq<Subject>, subjects: set<Subject>) {
    && (forall s :: s in order <==> s in subjects)
    && (forall i, j :: 0 <= i < j < |order| ==> order[i] != order[j])
  }

  function Pop(net: Net, c: Conn): Net
    requires c in net.chan && net.chan[c] != []
  {
    net.(chan := net.chan[c := net.chan[c][1..]])
  }

  function SetLoss(net: Net, c: Conn, loss: Loss): Net {
    net.(lost := net.lost.(loss := net.lost.loss[c := loss]))
  }

  /** The next message that the relay loop of the lost connection `c` reads: from its channel while
      it is open, from what it has buffered afterwards. */
  ghost predicate HasNext(net: Net, c: Conn) {
    && AtRouter(net, c) && c in net.lost.loss
    && var l := net.lost.loss[c];
       if l.closed then l.unread != [] && forall t :: t in net.lost.leaving ==> t.conn != c
       else l.task != Relay(c) && DropWaits(net, c) && c in net.chan && net.chan[c] != []
  }

  ghost function NextOf(net: Net, c: Conn): Message
    requires HasNext(net, c)
  {
    if net.lost.loss[c].closed then net.lost.loss[c].unread[0] else net.chan[c][0]
  }

  ghost function TakeNext(net: Net, c: Conn): Net
    requires HasNext(net, c)
  {
    var l := net.lost.loss[c];
    if l.closed then SetLoss(net, c, l.(unread := l.unread[1..])) else Pop(net, c)
  }

  ghost function Unheld(net: Net, c: Conn): Net
    requires AtRouter(net, c) && c in net.routers[c.Node()].held && net.routers[c.Node()].held[c] != []
  {
    var r := net.routers[c.Node()];
    SetRouter(net, c.Node(), r.(held := r.held[c := r.held[c][1..]]))
  }

  ghost function Removal(net: Net, c: Conn, s: Subject): (Router, Send)
    requires AtRouter(net, c)
  {
    var (r, send) := Unsubscribe(net.routers[c.Node()], c, s);
    (r, OnOpen(net, send))
  }

  ghost predicate Enabled(net: Net, e: Event) {
    match e
    case ClientConnect(l) =>
      && l !in net.made && l.a in net.clients && l.b in net.routers
      && forall c :: c in net.clientConns ==> c.Node() != l.a
    case Establish(l) => l !in net.made && l.a in net.routers && l.b in net.routers
    case Arrive(l, order) =>
      l in net.made && l !in net.arrived && l.b in net.routers && Lists(order, net.routers[l.b].Subjects())
    case ClientSend(c, _) => c in net.clientConns
    case Receive(c, stop) =>
      && c in net.chan && net.chan[c] != [] && Listed(net, c)
      && if !AtRouter(net, c) || c in net.routers[c.Node()].held then stop.None?
         else Free(net, Relay(c)) && StopOk(net, Response(net, c, net.chan[c][0]).1, stop)
    case Activate(c, order) =>
      && AtRouter(net, c) && c in net.routers[c.Node()].pending && c.link in net.arrived
      && Lists(order, net.routers[c.Node()].Subjects())
    case Drain(c, stop) =>
      && AtRouter(net, c) && c in net.routers[c.Node()].held && c !in net.routers[c.Node()].pending
      && net.routers[c.Node()].held[c] != [] && Free(net, Checker(c))
      && StopOk(net, Response(net, c, net.routers[c.Node()].held[c][0]).1, stop)
    case Drained(c) =>
      && AtRouter(net, c) && c in net.routers[c.Node()].held && c !in net.routers[c.Node()].pending
      && net.routers[c.Node()].held[c] == []
    case Lose(c) => Listed(net, c)
    case Fail(c, over) =>
      && AtRouter(net, c) && c in net.routers[c.Node()].conns
      && (over ==> c in net.routers[c.Node()].held && c in net.chan && net.chan[c] != [])
    case Forget(c, s, stop) =>
      && AtRouter(net, c) && c in net.lost.loss && Tag(c, s) in net.lost.leaving
      && !Cancelled(net, net.lost.loss[c].task) && StopOk(net, Removal(net, c, s).1, stop)
    case GiveUp(c) => c in net.lost.loss && Cancelled(net, net.lost.loss[c].task)
    case Shut(c, n) =>
      && c in net.lost.loss && !net.lost.loss[c].closed
      && (if net.lost.loss[c].task == Relay(c) then c in net.chan && n <= |net.chan[c]| else n == 0)
    case ReadOn(c, stop) =>
      && HasNext(net, c) && Free(net, Relay(c))
      && StopOk(net, Response(net, c, NextOf(net, c)).1, stop)
    case Resume(i, stop) =>
      && i < |net.stalled| && !Cancelled(net, net.stalled[i].task)
      && net.stalled[i].until in net.lost.loss && net.lost.loss[net.stalled[i].until].closed
      && StopOk(net, OnOpen(net, net.stalled[i].rest), stop)
    case Abandon(i) => i < |net.stalled| && Cancelled(net, net.stalled[i].task)
  }

  function NewLink(net: Net, l: Link): Net {
    var up, down := Conn(l, true), Conn(l, false);
    net.(made := net.made + {l}, chan := net.chan[up := []][down := []], told := net.told[up := {}][down := {}],
         decided := net.decided[up := {}][down := {}])
  }

  /** A removal is no longer to be done. */
  function Removed(net: Net, tags: set<Tag>): Net {
    net.(lost := net.lost.(leaving := net.lost.leaving - tags))
  }

  function Unstall(net: Net, i: nat): Net
    requires i < |net.stalled|
  {
    net.(stalled := net.stalled[..i] + net.stalled[i + 1..])
  }

  ghost function Step(net: Net, e: Event): Net
    requires Enabled(net, e)
  {
    match e
    case ClientConnect(l) => NewLink(net, l).(clientConns := net.clientConns + {Conn(l, true)})
    case Establish(l) =>
      var c, r := Conn(l, true), net.routers[l.a];
      SetRouter(NewLink(net, l), l.a,
                r.(conns := r.conns + {c}, pending := r.pending + {c}, held := r.held[c := []]))
    case Arrive(l, order) =>
      var c, r := Conn(l, false), net.routers[l.b];
      TellAll(SetRouter(net, l.b, r.(conns := r.conns + {c})).(arrived := net.arrived + {l}), c, order)
    case ClientSend(c, m) => Queue(net, Send({c}, m))
    case Receive(c, stop) =>
      if !AtRouter(net, c) then Pop(net, c)
      else
        var r, m := net.routers[c.Node()], net.chan[c][0];
        if c in r.held then SetRouter(Pop(net, c), c.Node(), r.(held := r.held[c := r.held[c] + [m]]))
        else Process(Pop(net, c), Relay(c), c, m, stop)
    case Activate(c, order) =>
      var r := net.routers[c.Node()];
      TellAll(SetRouter(net, c.Node(), r.(pending := r.pending - {c})), c, order)
    case Drain(c, stop) => Process(Unheld(net, c), Checker(c), c, net.routers[c.Node()].held[c][0], stop)
    case Drained(c) =>
      var r := net.routers[c.Node()];
      SetRouter(net, c.Node(), r.(held := r.held - {c}))
    case Lose(c) =>
      if c in net.clientConns then net.(clientConns := net.clientConns - {c}) else Unlist(net, c, Other)
    case Fail(c, over) => Unlist(if over then Pop(net, c) else net, c, Relay(c))
    case Forget(c, s, stop) =>
      var (r, send) := Removal(net, c, s);
      Carry(Removed(net, {Tag(c, s)}), net.lost.loss[c].task, c, r, send, stop)
    case GiveUp(c) => Removed(net, set t | t in net.lost.leaving && t.conn == c)
    case Shut(c, n) =>
      var l := net.lost.loss[c];
      SetLoss(net, c, Loss(l.task, true, if l.task == Relay(c) then net.chan[c][..n] else []))
    case ReadOn(c, stop) => Process(TakeNext(net, c), Relay(c), c, NextOf(net, c), stop)
    case Resume(i, stop) =>
      Spread(Unstall(net, i), net.stalled[i].task, OnOpen(net, net.stalled[i].rest), stop)
    case Abandon(i) => Unstall(net, i)
  }

  ghost predicate Init(net: Net) {
    && (forall n :: n in net.routers ==> net.routers[n] == NEW_ROUTER && n !in net.clients)
    && net.clientConns == {} && net.chan == map[] && net.told == map[] && net.decided == map[]
    && net.stalled == [] && net.made == {} && net.arrived == {}
    && net.lost == Leftovers({}, map[])
  }

  ghost predicate Run(trace: seq<Net>, events: seq<Event>) {
    && |trace| == |events| + 1
    && Init(trace[0])
    && forall i :: 0 <= i < |events| ==> Enabled(trace[i], events[i]) && trace[i + 1] == Step(trace[i], events[i])
  }

  /** The links with both ends listed. */
  function LiveLinks(net: Net): set<Link> {
    set l | l in net.made && Listed(net, Conn(l, true)) && Listed(net, Conn(l, false))
  }
}
