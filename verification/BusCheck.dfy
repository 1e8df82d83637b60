/** bus_check: pairing the socket ends the operating system reports into links between nodes,
    and looking for cycles among them. */
module BusCheck {
  import opened Graphs
  import opened Results
  import opened CycleFinder
  import opened Sequences

  datatype Address = Address(host: string, port: int)

  const WILDCARD_HOSTS := {"0.0.0.0", "::", ""}

  /** One end of a TCP connection. `pid` is None if its owner is hidden, `remote` if it listens. */
  datatype TcpConnection = TcpConnection(pid: Option<Pid>, local: Address, remote: Option<Address>, listening: bool) {
    predicate Established() {
      !listening && remote.Some?
    }

    function Ends(): End
      requires Established()
    {
      End(local, remote.value)
    }
  }

  datatype End = End(local: Address, remote: Address) {
    function Flip(): End {
      End(remote, local)
    }
  }

  // --- the order of socket ends ------------------------------------------------------------

  predicate StringLess(s: string, t: string) {
    if t == "" then false
    else if s == "" then true
    else if s[0] != t[0] then s[0] < t[0]
    else StringLess(s[1..], t[1..])
  }

  predicate AddressLess(a: Address, b: Address) {
    StringLess(a.host, b.host) || (a.host == b.host && a.port < b.port)
  }

  predicate EndLess(e: End, f: End) {
    AddressLess(e.local, f.local) || (e.local == f.local && AddressLess(e.remote, f.remote))
  }

  lemma {:induction false} StringsOrdered(s: string, t: string)
    ensures s == t ==> !StringLess(s, t)
    ensures s != t ==> StringLess(s, t) != StringLess(t, s)
  {
    if s != "" && t != "" && s[0] == t[0] {
      StringsOrdered(s[1..], t[1..]);
      assert s == [s[0]] + s[1..] && t == [t[0]] + t[1..];
    }
  }

  lemma EndsOrdered(e: End, f: End)
    requires e != f
    ensures EndLess(e, f) != EndLess(f, e)
  {
    StringsOrdered(e.local.host, f.local.host);
    StringsOrdered(e.remote.host, f.remote.host);
  }

  lemma NotBeforeItself(e: End)
    ensures !EndLess(e, e)
  {
    StringsOrdered(e.local.host, e.local.host);
    StringsOrdered(e.remote.host, e.remote.host);
  }

  // --- socket ends ----------------------------------------------------------------------------

  predicate ListensOn(listening: seq<Address>, address: Address) {
    exists i :: 0 <= i < |listening| && listening[i].port == address.port
                && (listening[i].host == address.host || listening[i].host in WILDCARD_HOSTS)
  }

  /** An address is listened on if it is listed itself, or its port on all hosts. */
  lemma ListensOnIff(listening: seq<Address>, a: Address)
    ensures ListensOn(listening, a) <==>
            || a in listening
            || Address("0.0.0.0", a.port) in listening
            || Address("::", a.port) in listening
            || Address("", a.port) in listening
  {
    if a in listening {
      var i :| 0 <= i < |listening| && listening[i] == a;
    }
    forall host | host in WILDCARD_HOSTS && Address(host, a.port) in listening ensures ListensOn(listening, a) {
      var i :| 0 <= i < |listening| && listening[i] == Address(host, a.port);
    }
    if i :| 0 <= i < |listening| && listening[i].port == a.port
            && (listening[i].host == a.host || listening[i].host in WILDCARD_HOSTS) {
      assert listening[i] == Address(listening[i].host, a.port) && listening[i] in listening;
    }
  }

  function AllEnds(connections: seq<TcpConnection>): set<End> {
    set c | c in connections && c.Established() :: c.Ends()
  }

  function HiddenEnds(connections: seq<TcpConnection>): set<End> {
    set c | c in connections && c.Established() && c.pid.None? :: c.Ends()
  }

  predicate OfNode(c: TcpConnection, pids: set<Pid>) {
    c.Established() && c.pid.Some? && c.pid.value in pids
  }

  /** The ends that nodes own. An end reported more than once belongs to its last owner. */
  function NodeEnds(connections: seq<TcpConnection>, pids: set<Pid>): map<End, Pid> {
    if connections == [] then map[]
    else
      var n := |connections| - 1;
      var ends, c := NodeEnds(connections[..n], pids), connections[n];
      if OfNode(c, pids) then ends[c.Ends() := c.pid.value] else ends
  }

  lemma NodeEndsOneMore(connections: seq<TcpConnection>, pids: set<Pid>, n: nat)
    requires n < |connections|
    ensures NodeEnds(connections[..n + 1], pids) ==
            var ends, c := NodeEnds(connections[..n], pids), connections[n];
            if OfNode(c, pids) then ends[c.Ends() := c.pid.value] else ends
  {
    assert connections[..n + 1][..n] == connections[..n];
  }

  /** An end belongs to the node whose connection was the last one reported with it. */
  lemma {:induction false} NodeEndsAre(connections: seq<TcpConnection>, pids: set<Pid>, e: End, p: Pid)
    ensures e in NodeEnds(connections, pids) && NodeEnds(connections, pids)[e] == p <==>
            exists i :: LastOwner(connections, pids, e, p, i)
    decreases |connections|
  {
    if connections != [] {
      var n := |connections| - 1;
      var c, before := connections[n], connections[..n];
      if OfNode(c, pids) && c.Ends() == e {
        if c.pid.value == p {
          assert LastOwner(connections, pids, e, p, n);
        }
      } else {
        NodeEndsAre(before, pids, e, p);
        if i :| LastOwner(before, pids, e, p, i) {
          assert LastOwner(connections, pids, e, p, i);
        }
        if i :| LastOwner(connections, pids, e, p, i) {
          assert LastOwner(before, pids, e, p, i);
        }
      }
    }
  }

  ghost predicate LastOwner(connections: seq<TcpConnection>, pids: set<Pid>, e: End, p: Pid, i: int) {
    && 0 <= i < |connections| && OfNode(connections[i], pids)
    && connections[i].Ends() == e && connections[i].pid.value == p
    && forall j :: i < j < |connections| && OfNode(connections[j], pids) ==> connections[j].Ends() != e
  }

  /** A node has reported the end as its own. */
  ghost predicate Owned(connections: seq<TcpConnection>, pids: set<Pid>, e: End) {
    exists c :: c in connections && OfNode(c, pids) && c.Ends() == e
  }

  ghost predicate Reported(connections: seq<TcpConnection>, e: End) {
    exists c :: c in connections && c.Established() && c.Ends() == e
  }

  /** The system has reported the end without its owner. */
  ghost predicate OwnerHidden(connections: seq<TcpConnection>, e: End) {
    exists c :: c in connections && c.Established() && c.pid.None? && c.Ends() == e
  }

  lemma {:induction false} NodeEndsOwned(connections: seq<TcpConnection>, pids: set<Pid>, e: End)
    ensures e in NodeEnds(connections, pids) <==> Owned(connections, pids, e)
    decreases |connections|
  {
    if connections != [] {
      var n := |connections| - 1;
      NodeEndsOwned(connections[..n], pids, e);
      assert connections == connections[..n] + [connections[n]];
      if Owned(connections, pids, e) {
        var c :| c in connections && OfNode(c, pids) && c.Ends() == e;
        assert c == connections[n] || c in connections[..n];
      }
      if Owned(connections[..n], pids, e) {
        var c :| c in connections[..n] && OfNode(c, pids) && c.Ends() == e;
        assert c in connections;
      }
    }
  }

  /** The ends that nodes own, whose other end no node owns and the system hides the owner of. */
  ghost function HiddenPeers(connections: seq<TcpConnection>, pids: set<Pid>): set<End> {
    set c | c in connections && OfNode(c, pids) && !Owned(connections, pids, c.Ends().Flip())
            && OwnerHidden(connections, c.Ends().Flip()) :: c.Ends()
  }

  /** The ends that nodes own, whose other end is not reported at all. */
  ghost function UnreportedPeers(connections: seq<TcpConnection>, pids: set<Pid>): set<End> {
    set c | c in connections && OfNode(c, pids) && !Reported(connections, c.Ends().Flip()) :: c.Ends()
  }

  // --- what becomes of a node's end -----------------------------------------------------------

  datatype Fate = Paired(other: Pid) | Hidden | Unchecked | Visible

  function FateOf(e: End, ends: map<End, Pid>, hidden: set<End>, all: set<End>): Fate {
    if e.Flip() in ends then Paired(ends[e.Flip()])
    else if e.Flip() in hidden then Hidden
    else if e.Flip() !in all then Unchecked
    else Visible
  }

  type Listening = map<Pid, seq<Address>>

  /** Both ends belong to nodes, and one of them is an address its node listens on. */
  predicate IsBusLink(e: End, ends: map<End, Pid>, listening: Listening) {
    && e in ends && e.Flip() in ends
    && ends[e] in listening && ends[e.Flip()] in listening
    && (ListensOn(listening[ends[e]], e.local) || ListensOn(listening[ends[e.Flip()]], e.remote))
  }

  /** Of the two ends of a link, the one it is counted at. */
  predicate Counted(e: End, ends: map<End, Pid>, listening: Listening) {
    IsBusLink(e, ends, listening) && EndLess(e, e.Flip())
  }

  /** Every link is counted at exactly one of its two ends. */
  lemma CountedOnce(e: End, ends: map<End, Pid>, listening: Listening)
    requires IsBusLink(e, ends, listening) && e != e.Flip()
    ensures Counted(e, ends, listening) != Counted(e.Flip(), ends, listening)
  {
    EndsOrdered(e, e.Flip());
    assert e.Flip().Flip() == e;
  }

  /** The nodes of the bus and the links between them, each an edge named by its counted end. */
  ghost function BusEdges(ends: map<End, Pid>, listening: Listening): set<Edge<End>> {
    set e | e in ends && Counted(e, ends, listening) :: Edge(e, ends[e], ends[e.Flip()])
  }

  /** `links` has one entry for every counted end among the first `n` of `order`. */
  ghost predicate LinksOf(links: seq<Joint>, made: seq<End>, order: seq<End>, n: nat, ends: map<End, Pid>,
                          listening: Listening)
    requires n <= |order|
  {
    && |links| == |made| && Distinct(made)
    && (forall e :: e in made <==> e in order[..n] && Counted(e, ends, listening))
    && forall i :: 0 <= i < |made| ==>
         made[i] in ends && made[i].Flip() in ends && links[i] == (ends[made[i]], ends[made[i].Flip()])
  }

  ghost function Fated(es: set<End>, fate: Fate, ends: map<End, Pid>, hidden: set<End>, all: set<End>): set<End> {
    set e | e in es && FateOf(e, ends, hidden, all) == fate
  }

  /** A node that bus_check knows. */
  class Node {
    var listening: seq<Address>

    constructor ()
      ensures listening == []
    {
      listening := [];
    }
  }

  ghost function Heard(nodes: map<Pid, Node>): Listening
    reads nodes.Values
  {
    map p | p in nodes :: nodes[p].listening
  }

  /** The ends that nodes own, and in which order they were first reported. */
  method CollectEnds(connections: seq<TcpConnection>, nodes: map<Pid, Node>)
    returns (ends: map<End, Pid>, order: seq<End>)
    ensures ends == NodeEnds(connections, nodes.Keys)
    ensures Distinct(order) && forall e :: e in order <==> e in ends
  {
    ends, order := map[], [];
    for i := 0 to |connections|
      invariant ends == NodeEnds(connections[..i], nodes.Keys)
      invariant Distinct(order) && forall e :: e in order <==> e in ends
    {
      var c := connections[i];
      NodeEndsOneMore(connections, nodes.Keys, i);
      if OfNode(c, nodes.Keys) {
        if c.Ends() !in ends {
          order := order + [c.Ends()];
        }
        ends := ends[c.Ends() := c.pid.value];
      }
    }
    assert connections[..|connections|] == connections;
  }

  lemma LinksOneMore(links: seq<Joint>, made: seq<End>, order: seq<End>, n: nat, ends: map<End, Pid>,
                     listening: Listening)
    requires n < |order| && Distinct(order) && order[n] in ends
    requires LinksOf(links, made, order, n, ends, listening)
    ensures var e := order[n];
            if Counted(e, ends, listening)
            then LinksOf(links + [(ends[e], ends[e.Flip()])], made + [e], order, n + 1, ends, listening)
            else LinksOf(links, made, order, n + 1, ends, listening)
  {
    var e := order[n];
    assert order[..n + 1] == order[..n] + [e];
    assert e !in order[..n];
  }

  lemma ElementsOneMore<T>(order: seq<T>, n: nat)
    requires n < |order| && Distinct(order)
    ensures Elements(order[..n + 1]) == Elements(order[..n]) + {order[n]} && order[n] !in Elements(order[..n])
  {
    assert order[..n + 1] == order[..n] + [order[n]];
  }

  lemma FatedInsert(es: set<End>, e: End, fate: Fate, ends: map<End, Pid>, hidden: set<End>, all: set<End>)
    requires e !in es
    ensures |Fated(es + {e}, fate, ends, hidden, all)|
            == |Fated(es, fate, ends, hidden, all)| + if FateOf(e, ends, hidden, all) == fate then 1 else 0
  {
    var before, after := Fated(es, fate, ends, hidden, all), Fated(es + {e}, fate, ends, hidden, all);
    assert after == if FateOf(e, ends, hidden, all) == fate then before + {e} else before;
  }

  lemma FatedOneMore(order: seq<End>, n: nat, fate: Fate, ends: map<End, Pid>, hidden: set<End>, all: set<End>)
    requires n < |order| && Distinct(order)
    ensures |Fated(Elements(order[..n + 1]), fate, ends, hidden, all)|
            == |Fated(Elements(order[..n]), fate, ends, hidden, all)|
               + if FateOf(order[n], ends, hidden, all) == fate then 1 else 0
  {
    ElementsOneMore(order, n);
    FatedInsert(Elements(order[..n]), order[n], fate, ends, hidden, all);
  }

  /** `links` has exactly one entry for every link, between the nodes that own its ends. */
  ghost predicate ListsGraph(links: seq<Joint>, made: seq<End>, ends: map<End, Pid>, listening: Listening) {
    && |links| == |made| && Distinct(made)
    && (forall e :: e in made <==> e in ends && Counted(e, ends, listening))
    && forall i :: 0 <= i < |made| ==> links[i] == (ends[made[i]], ends[made[i].Flip()])
  }

  /** Every mirrored pair of distinct ends that nodes own, with a listened-on address, is exactly
      one link. Of the other ends, the hidden and the unchecked ones are counted. */
  method FindLinks(connections: seq<TcpConnection>, nodes: map<Pid, Node>)
    returns (links: seq<Joint>, uncheckedRemote: nat, hidden: nat, ghost made: seq<End>)
    ensures ListsGraph(links, made, NodeEnds(connections, nodes.Keys), Heard(nodes))
    ensures |links| == |BusEdges(NodeEnds(connections, nodes.Keys), Heard(nodes))|
    ensures var ends := NodeEnds(connections, nodes.Keys);
            uncheckedRemote == |Fated(ends.Keys, Unchecked, ends, HiddenEnds(connections), AllEnds(connections))|
    ensures var ends := NodeEnds(connections, nodes.Keys);
            hidden == |Fated(ends.Keys, Hidden, ends, HiddenEnds(connections), AllEnds(connections))|
  {
    var allEnds, hiddenEnds := AllEnds(connections), HiddenEnds(connections);
    var ends, order := CollectEnds(connections, nodes);
    links, made, uncheckedRemote, hidden := [], [], 0, 0;
    for i := 0 to |order|
      invariant LinksOf(links, made, order, i, ends, Heard(nodes))
      invariant uncheckedRemote == |Fated(Elements(order[..i]), Unchecked, ends, hiddenEnds, allEnds)|
      invariant hidden == |Fated(Elements(order[..i]), Hidden, ends, hiddenEnds, allEnds)|
    {
      var e := order[i];
      assert e in ends;
      EndsOfNodes(connections, nodes.Keys);
      LinksOneMore(links, made, order, i, ends, Heard(nodes));
      FatedOneMore(order, i, Unchecked, ends, hiddenEnds, allEnds);
      FatedOneMore(order, i, Hidden, ends, hiddenEnds, allEnds);
      var other := e.Flip();
      if other in ends {
        var isBusLink := ListensOn(nodes[ends[e]].listening, e.local)
                         || ListensOn(nodes[ends[other]].listening, e.remote);
        if isBusLink && EndLess(e, other) {
          links := links + [(ends[e], ends[other])];
          made := made + [e];
        }
      } else if other in hiddenEnds {
        hidden := hidden + 1;
      } else if other !in allEnds {
        uncheckedRemote := uncheckedRemote + 1;
      }
    }
    assert order[..|order|] == order;
    assert Elements(order) == ends.Keys;
    CountBusEdges(links, made, ends, Heard(nodes), |made|);
  }

  lemma {:induction false} EndsOfNodes(connections: seq<TcpConnection>, pids: set<Pid>)
    ensures forall e :: e in NodeEnds(connections, pids) ==> NodeEnds(connections, pids)[e] in pids
    decreases |connections|
  {
    if connections != [] {
      EndsOfNodes(connections[..|connections| - 1], pids);
    }
  }

  ghost function PairedEnds(ends: map<End, Pid>): set<End> {
    set e | e in ends && e.Flip() in ends
  }

  /** Every end of a node is accounted for once: paired, hidden, unchecked, or joined to a process
      that can be seen and is not a node. */
  lemma FatesAddUp(ends: map<End, Pid>, hidden: set<End>, all: set<End>)
    ensures |ends.Keys| == |PairedEnds(ends)|
                           + |Fated(ends.Keys, Hidden, ends, hidden, all)|
                           + |Fated(ends.Keys, Unchecked, ends, hidden, all)|
                           + |Fated(ends.Keys, Visible, ends, hidden, all)|
  {
    FourParts(ends.Keys, PairedEnds(ends), Fated(ends.Keys, Hidden, ends, hidden, all),
              Fated(ends.Keys, Unchecked, ends, hidden, all), Fated(ends.Keys, Visible, ends, hidden, all));
  }

  lemma FourParts<T>(whole: set<T>, p: set<T>, h: set<T>, u: set<T>, v: set<T>)
    requires forall x :: x in whole <==> x in p || x in h || x in u || x in v
    requires p !! h && p !! u && p !! v && h !! u && h !! v && u !! v
    ensures |whole| == |p| + |h| + |u| + |v|
  {
    assert (p + h) !! u && (p + h + u) !! v;
    assert whole == p + h + u + v;
  }

  /** The two counts, by what is reported alone. */
  lemma CountsAre(connections: seq<TcpConnection>, pids: set<Pid>)
    ensures var ends, hidden, all := NodeEnds(connections, pids), HiddenEnds(connections), AllEnds(connections);
            && Fated(ends.Keys, Hidden, ends, hidden, all) == HiddenPeers(connections, pids)
            && Fated(ends.Keys, Unchecked, ends, hidden, all) == UnreportedPeers(connections, pids)
  {
    var ends, hidden, all := NodeEnds(connections, pids), HiddenEnds(connections), AllEnds(connections);
    forall e ensures e in Fated(ends.Keys, Hidden, ends, hidden, all) <==> e in HiddenPeers(connections, pids)
             ensures e in Fated(ends.Keys, Unchecked, ends, hidden, all) <==> e in UnreportedPeers(connections, pids)
    {
      CountedAs(connections, pids, e);
    }
  }

  lemma CountedAs(connections: seq<TcpConnection>, pids: set<Pid>, e: End)
    ensures var ends, hidden, all := NodeEnds(connections, pids), HiddenEnds(connections), AllEnds(connections);
            && (e in ends && FateOf(e, ends, hidden, all) == Hidden <==> e in HiddenPeers(connections, pids))
            && (e in ends && FateOf(e, ends, hidden, all) == Unchecked <==> e in UnreportedPeers(connections, pids))
  {
    NodeEndsOwned(connections, pids, e);
    NodeEndsOwned(connections, pids, e.Flip());
    assert e.Flip() in HiddenEnds(connections) <==> OwnerHidden(connections, e.Flip());
    assert e.Flip() in AllEnds(connections) <==> Reported(connections, e.Flip());
    assert Owned(connections, pids, e.Flip()) || OwnerHidden(connections, e.Flip()) ==> Reported(connections, e.Flip());
  }

  // --- the check ------------------------------------------------------------------------------

  /** `c` says that its node listens on an address. */
  predicate Announces(c: TcpConnection, pids: set<Pid>) {
    c.listening && c.pid.Some? && c.pid.value in pids
  }

  function Hear(listening: Listening, c: TcpConnection): Listening {
    if Announces(c, listening.Keys) && c.local !in listening[c.pid.value]
    then listening[c.pid.value := listening[c.pid.value] + [c.local]]
    else listening
  }

  function HearAll(listening: Listening, connections: seq<TcpConnection>): Listening {
    if connections == [] then listening
    else Hear(HearAll(listening, connections[..|connections| - 1]), connections[|connections| - 1])
  }

  ghost predicate Announced(connections: seq<TcpConnection>, pids: set<Pid>, p: Pid, a: Address) {
    exists c :: c in connections && Announces(c, pids) && c.pid.value == p && c.local == a
  }

  /** A node listens on what it was known to listen on, followed by every other address it
      announces, once each. */
  lemma {:induction false} HeardOnce(listening: Listening, connections: seq<TcpConnection>, p: Pid)
    requires p in listening
    ensures HearAll(listening, connections).Keys == listening.Keys
    ensures var known, heard := listening[p], HearAll(listening, connections)[p];
            && known <= heard
            && var more := heard[|known|..];
               && Distinct(more)
               && forall a :: a in more <==> a !in known && Announced(connections, listening.Keys, p, a)
    decreases |connections|
  {
    if connections != [] {
      var n := |connections| - 1;
      var known, before := listening[p], HearAll(listening, connections[..n]);
      HeardOnce(listening, connections[..n], p);
      forall a ensures Announced(connections, listening.Keys, p, a) <==>
                       || Announced(connections[..n], listening.Keys, p, a)
                       || Announced([connections[n]], listening.Keys, p, a)
      {
        assert connections == connections[..n] + [connections[n]];
      }
      assert before[p] == known + before[p][|known|..];
      HearMore(before, connections[n], p, known);
    }
  }

  /** At most one address more. */
  lemma HearMore(listening: Listening, c: TcpConnection, p: Pid, known: seq<Address>)
    requires p in listening && known <= listening[p]
    ensures var more, heard := listening[p][|known|..], Hear(listening, c)[p];
            && known <= heard
            && heard[|known|..] == more + if Announced([c], listening.Keys, p, c.local) && c.local !in listening[p]
                                          then [c.local] else []
  {
    assert Announced([c], listening.Keys, p, c.local) <==> Announces(c, listening.Keys) && c.pid.value == p by {
      assert c in [c];
    }
  }

  /** The node's end is at an address that it is known to listen on, or announces now, itself or as
      a port on all hosts. */
  ghost predicate AtListener(connections: seq<TcpConnection>, listening: Listening, ends: map<End, Pid>, e: End) {
    && e in ends && ends[e] in listening
    && exists host :: (host == e.local.host || host in WILDCARD_HOSTS)
                      && ListedOrAnnounced(connections, listening, ends[e], Address(host, e.local.port))
  }

  ghost predicate ListedOrAnnounced(connections: seq<TcpConnection>, listening: Listening, p: Pid, a: Address)
    requires p in listening
  {
    a in listening[p] || Announced(connections, listening.Keys, p, a)
  }

  lemma HeardIs(connections: seq<TcpConnection>, listening: Listening, p: Pid, a: Address)
    requires p in listening
    ensures p in HearAll(listening, connections)
    ensures a in HearAll(listening, connections)[p] <==> ListedOrAnnounced(connections, listening, p, a)
  {
    HeardOnce(listening, connections, p);
    var heard, known := HearAll(listening, connections)[p], listening[p];
    assert heard == known + heard[|known|..];
  }

  lemma AtListenerIff(connections: seq<TcpConnection>, listening: Listening, ends: map<End, Pid>, e: End)
    requires e in ends && ends[e] in listening
    ensures ends[e] in HearAll(listening, connections)
    ensures ListensOn(HearAll(listening, connections)[ends[e]], e.local) <==>
            AtListener(connections, listening, ends, e)
  {
    var p, port := ends[e], e.local.port;
    HeardIs(connections, listening, p, e.local);
    HeardIs(connections, listening, p, Address("0.0.0.0", port));
    HeardIs(connections, listening, p, Address("::", port));
    HeardIs(connections, listening, p, Address("", port));
    ListensOnIff(HearAll(listening, connections)[p], e.local);
    assert e.local == Address(e.local.host, port);
  }

  /** The links are exactly the mirrored pairs of distinct ends that nodes own, of which one is at an
      address that its node listens on: each pair is one link, named by one of its two ends. */
  lemma LinkIff(connections: seq<TcpConnection>, listening: Listening, e: End)
    ensures var ends := NodeEnds(connections, listening.Keys);
            var edges := BusEdges(ends, HearAll(listening, connections));
            var here := exists x :: x in edges && x.id == e;
            var there := exists x :: x in edges && x.id == e.Flip();
            && !(here && there)
            && (here || there <==>
                  && e != e.Flip() && e in ends && e.Flip() in ends
                  && (|| AtListener(connections, listening, ends, e)
                      || AtListener(connections, listening, ends, e.Flip())))
            && forall x :: x in edges && x.id == e ==> x == Edge(e, ends[e], ends[e.Flip()])
  {
    var ends, heard := NodeEnds(connections, listening.Keys), HearAll(listening, connections);
    EndsOfNodes(connections, listening.Keys);
    assert e.Flip().Flip() == e;
    if e == e.Flip() {
      NotBeforeItself(e);
    } else {
      EndsOrdered(e, e.Flip());
    }
    EdgeNamed(ends, heard, e);
    EdgeNamed(ends, heard, e.Flip());
    if e in ends && e.Flip() in ends {
      AtListenerIff(connections, listening, ends, e);
      AtListenerIff(connections, listening, ends, e.Flip());
    }
  }

  lemma EdgeNamed(ends: map<End, Pid>, listening: Listening, e: End)
    ensures (exists x :: x in BusEdges(ends, listening) && x.id == e) <==> e in ends && Counted(e, ends, listening)
    ensures forall x :: x in BusEdges(ends, listening) && x.id == e ==> x == Edge(e, ends[e], ends[e.Flip()])
  {
    if e in ends && Counted(e, ends, listening) {
      assert Edge(e, ends[e], ends[e.Flip()]) in BusEdges(ends, listening);
    }
  }

  lemma HearOneMore(listening: Listening, connections: seq<TcpConnection>, n: nat)
    requires n < |connections|
    ensures HearAll(listening, connections[..n + 1]) == Hear(HearAll(listening, connections[..n]), connections[n])
  {
    assert connections[..n + 1][..n] == connections[..n];
  }

  ghost predicate OneEach(nodes: map<Pid, Node>) {
    forall p, q :: p in nodes && q in nodes && p != q ==> nodes[p] != nodes[q]
  }

  /** Note every address that a node turns out to listen on. */
  method NoteListening(nodes: map<Pid, Node>, connections: seq<TcpConnection>)
    requires OneEach(nodes)
    modifies nodes.Values
    ensures Heard(nodes) == HearAll(old(Heard(nodes)), connections)
  {
    for i := 0 to |connections|
      invariant Heard(nodes) == HearAll(old(Heard(nodes)), connections[..i])
    {
      var c := connections[i];
      HearOneMore(old(Heard(nodes)), connections, i);
      ghost var before := Heard(nodes);
      assert before.Keys == nodes.Keys;
      if Announces(c, nodes.Keys) && c.local !in nodes[c.pid.value].listening {
        nodes[c.pid.value].listening := nodes[c.pid.value].listening + [c.local];
        forall p | p in nodes ensures nodes[p].listening == Hear(before, c)[p] {
          if p != c.pid.value {
            assert nodes[p] != nodes[c.pid.value];
          }
        }
      }
      assert Heard(nodes).Keys == Hear(before, c).Keys;
      assert forall p :: p in nodes ==> Heard(nodes)[p] == nodes[p].listening;
    }
    assert connections[..|connections|] == connections;
  }

  datatype Report = Report(links: seq<Joint>, cycles: seq<seq<Pid>>, uncheckedRemote: nat, hidden: nat)

  /** A cycle is reported exactly when the links between the nodes form one, and as many are
      reported as there are links too many for a forest. */
  method Check(nodes: map<Pid, Node>, connections: seq<TcpConnection>) returns (report: Report)
    requires OneEach(nodes)
    modifies nodes.Values
    ensures Heard(nodes) == HearAll(old(Heard(nodes)), connections)
    ensures var edges := BusEdges(NodeEnds(connections, nodes.Keys), Heard(nodes));
            && (report.cycles == [] <==> Forest(edges))
            && |report.cycles| == |edges| - (|nodes.Keys| - |Components(nodes.Keys, edges)|)
    ensures exists made :: ListsGraph(report.links, made, NodeEnds(connections, nodes.Keys), Heard(nodes))
    ensures |report.links| == |BusEdges(NodeEnds(connections, nodes.Keys), Heard(nodes))|
    ensures report.uncheckedRemote == |UnreportedPeers(connections, nodes.Keys)|
    ensures report.hidden == |HiddenPeers(connections, nodes.Keys)|
    ensures CyclesOf(report.links, |report.links|, report.cycles)
  {
    NoteListening(nodes, connections);
    var links, uncheckedRemote, hidden;
    ghost var made;
    links, uncheckedRemote, hidden, made := FindLinks(connections, nodes);
    ghost var ends := NodeEnds(connections, nodes.Keys);
    EndsOfNodes(connections, nodes.Keys);
    var cycles := FindCycles(nodes.Keys, links);
    SameGraph(links, made, ends, Heard(nodes), nodes.Keys);
    CountsAre(connections, nodes.Keys);
    report := Report(links, cycles, uncheckedRemote, hidden);
  }

  lemma SameGraph(links: seq<Joint>, made: seq<End>, ends: map<End, Pid>, listening: Listening, pids: set<Pid>)
    requires ListsGraph(links, made, ends, listening) && forall e :: e in ends ==> ends[e] in pids
    ensures InNodes(links, pids)
    ensures |BusEdges(ends, listening)| == |links|
    ensures Components(pids, BusEdges(ends, listening)) == Components(pids, LinkEdges(links))
    ensures Forest(BusEdges(ends, listening)) <==> Forest(LinkEdges(links))
  {
    var E, F := BusEdges(ends, listening), LinkEdges(links);
    forall i | 0 <= i < |links| ensures links[i].0 in pids && links[i].1 in pids {
      assert made[i] in made;
    }
    CountBusEdges(links, made, ends, listening, |made|);
    forall x, y ensures Adjacent(E, x, y) <==> Adjacent(F, x, y) {
      SameJoints(links, made, ends, listening, x, y);
    }
    SameLinksSameComponents(pids, E, F);
    assert links[..|links|] == links;
    CountLinks(links, |links|);
    assert EndsIn(E, pids);
    ForestCount(pids, E);
    ForestCount(pids, F);
  }

  lemma SameJoints(links: seq<Joint>, made: seq<End>, ends: map<End, Pid>, listening: Listening, x: Pid, y: Pid)
    requires ListsGraph(links, made, ends, listening)
    ensures Adjacent(BusEdges(ends, listening), x, y) <==> Adjacent(LinkEdges(links), x, y)
  {
    var E, F := BusEdges(ends, listening), LinkEdges(links);
    if Adjacent(E, x, y) {
      var f :| f in E && f.Joins(x, y);
      assert f.id in made;
      var i :| 0 <= i < |made| && made[i] == f.id;
      assert EdgeAt(links, i) in F && EdgeAt(links, i).Joins(x, y);
    }
    if Adjacent(F, x, y) {
      var f :| f in F && f.Joins(x, y);
      var i :| 0 <= i < |links| && f == EdgeAt(links, i);
      var e := made[i];
      assert e in made;
      assert Edge(e, ends[e], ends[e.Flip()]) in E && Edge(e, ends[e], ends[e.Flip()]).Joins(x, y);
    }
  }

  ghost function MadeEdges(made: seq<End>, ends: map<End, Pid>): set<Edge<End>>
    requires forall e :: e in made ==> e in ends && e.Flip() in ends
  {
    set e | e in made :: Edge(e, ends[e], ends[e.Flip()])
  }

  lemma {:induction false} CountMade(made: seq<End>, ends: map<End, Pid>, n: nat)
    requires Distinct(made) && n <= |made| && forall e :: e in made ==> e in ends && e.Flip() in ends
    ensures |MadeEdges(made[..n], ends)| == n
  {
    if n == 0 {
      assert MadeEdges(made[..0], ends) == {};
    } else {
      var e := made[n - 1];
      CountMade(made, ends, n - 1);
      assert made[..n] == made[..n - 1] + [e];
      assert e !in made[..n - 1];
      assert MadeEdges(made[..n], ends) == MadeEdges(made[..n - 1], ends) + {Edge(e, ends[e], ends[e.Flip()])};
    }
  }

  lemma CountBusEdges(links: seq<Joint>, made: seq<End>, ends: map<End, Pid>, listening: Listening, n: nat)
    requires ListsGraph(links, made, ends, listening) && n == |made|
    ensures |BusEdges(ends, listening)| == n
  {
    CountMade(made, ends, n);
    assert made[..n] == made;
    assert MadeEdges(made, ends) == BusEdges(ends, listening);
  }
}
