/** The objects of the cycle check: `_Query`, and the fields of `PubSubNode` that the check uses.
    Each method is the code between two awaits, and does what `CycleCheck` says. */
module NodeChecker {
  import opened Links
  import opened Results
  import opened Sequences
  import CC = CycleCheck

  /** A reachability query sent to `targets`, combining their replies. */
  class Query {
    const targets: seq<Conn>
    var waiting: set<Conn>
    var sawUnknown: bool
    var result: Option<CC.Result>
    ghost const origin: CC.Origin
    ghost const target: NodeId

    ghost function Model(): CC.Query
      reads this
    {
      CC.Query(origin, target, Elements(targets), waiting, sawUnknown, result)
    }

    constructor (targets: seq<Conn>, ghost origin: CC.Origin, ghost target: NodeId)
      ensures Model() == CC.NewQuery(origin, target, Elements(targets))
    {
      this.targets, this.origin, this.target := targets, origin, target;
      waiting, sawUnknown, result := Elements(targets), false, None;
    }

    /** Record the reply of `c`. A failed connection counts as not found. */
    method Reply(c: Conn, r: CC.Result)
      modifies this
      ensures Model() == old(Model()).Reply(c, r)
    {
      if result.Some? || c !in waiting {
        return;
      }
      waiting := waiting - {c};
      if r.Found? {
        result := Some(CC.Found);
        return;
      }
      if r.Unknown? {
        sawUnknown := true;
      }
      if waiting == {} {
        result := Some(if sawUnknown then CC.Unknown else CC.NotFound);
      }
    }
  }

  function Keep(cs: seq<Conn>, wanted: set<Conn>): seq<Conn> {
    if cs == [] then []
    else (if cs[0] in wanted then [cs[0]] else []) + Keep(cs[1..], wanted)
  }

  lemma {:induction false} KeepIs(cs: seq<Conn>, wanted: set<Conn>)
    ensures Elements(Keep(cs, wanted)) == Elements(cs) * wanted
  {
    if cs != [] {
      KeepIs(cs[1..], wanted);
      assert Elements(cs) == {cs[0]} + Elements(cs[1..]);
      var first := if cs[0] in wanted then [cs[0]] else [];
      assert Elements(first + Keep(cs[1..], wanted)) == Elements(first) + Elements(Keep(cs[1..], wanted));
    }
  }

  /** The cycle check's part of `PubSubNode`. The checks themselves, the lock and `closed` are
      held by the tasks, so they are history here. */
  class CheckingNode {
    const nodeId: NodeId
    var upstream: seq<Conn>
    var downstream: seq<Conn>
    var pending: set<Conn>
    var peerNodeIds: map<Conn, NodeId>
    var queries: map<CC.QueryId, Query>
    var checking: bool
    ghost var locked: bool
    ghost var checks: map<Conn, CC.Phase>
    ghost var closed: bool

    ghost predicate Valid()
      reads this
    {
      forall p, q :: p in queries && q in queries && p != q ==> queries[p] != queries[q]
    }

    ghost function Model(): CC.Node
      reads this, queries.Values
    {
      CC.Node(Elements(downstream + upstream), pending, peerNodeIds,
              map q | q in queries :: queries[q].Model(), checking, locked, checks, closed)
    }

    constructor (id: NodeId)
      ensures Valid() && nodeId == id && Model() == CC.FRESH_NODE
    {
      nodeId := id;
      upstream, downstream, pending, peerNodeIds, queries, checking := [], [], {}, map[], map[], false;
      locked, checks, closed := false, map[], false;
    }

    function ActiveNodeConnections(): (cs: seq<Conn>)
      reads this
    {
      Keep(downstream + upstream, peerNodeIds.Keys - pending)
    }

    lemma ActiveIsModels()
      ensures Elements(ActiveNodeConnections()) == Model().ActiveNodeConns()
    {
      KeepIs(downstream + upstream, peerNodeIds.Keys - pending);
    }

    /** The reply to a query that needs no forwarding. */
    method AnswerNow(source: Conn, q: CC.QueryId, target: NodeId) returns (r: Option<CC.Result>)
      ensures r == CC.AnswerNow(nodeId, Model(), source, q, target)
    {
      if source in pending {
        return Some(if checking then CC.Unknown else CC.NotFound);
      }
      if target == nodeId {
        return Some(CC.Found);
      }
      if checking {
        return Some(CC.Unknown);
      }
      if q in queries {
        return Some(CC.Unknown);
      }
      r := None;
    }

    method OpenQuery(q: CC.QueryId, targets: seq<Conn>, ghost origin: CC.Origin, ghost target: NodeId)
      requires Valid()
      modifies this`queries
      ensures Valid() && fresh(queries.Values - old(queries.Values))
      ensures Model() == old(Model()).(queries :=
                old(Model()).queries[q := CC.NewQuery(origin, target, Elements(targets))])
    {
      var query := new Query(targets, origin, target);
      queries := queries[q := query];
    }

    /** Answer a query, or send it on. `to` are the connections that `body` is sent on. */
    method HandleQuery(source: Conn, q: CC.QueryId, target: NodeId) returns (to: seq<Conn>, body: CC.Body)
      requires Valid()
      modifies this`queries
      ensures Valid() && fresh(queries.Values - old(queries.Values))
      ensures (Model(), SentTo(to, body)) == CC.HandleQuery(nodeId, old(Model()), source, q, target)
    {
      var result := AnswerNow(source, q, target);
      if result.None? {
        var targets := Keep(ActiveNodeConnections(), Elements(ActiveNodeConnections()) - {source});
        KeepIs(ActiveNodeConnections(), Elements(ActiveNodeConnections()) - {source});
        ActiveIsModels();
        assert Elements(targets) == Model().ActiveNodeConns() - {source};
        if targets != [] {
          assert targets[0] in Elements(targets);
          assert SentTo(targets, CC.Ask(q, target))
                 == set c | c in Elements(targets) :: CC.Msg(c.Peer(), CC.Ask(q, target));
          OpenQuery(q, targets, CC.Forward(source), target);
          return targets, CC.Ask(q, target);
        }
        result := Some(CC.NotFound);
      }
      to, body := [source], CC.Answer(q, result.value);
      assert Elements([source]) == {source};
      assert SentTo(to, body) == {CC.Msg(source.Peer(), body)};
    }

    static ghost function SentTo(to: seq<Conn>, body: CC.Body): set<CC.Msg> {
      set c | c in Elements(to) :: CC.Msg(c.Peer(), body)
    }

    /** A reply to one of the queries being answered, or to one that is over. */
    method HandleReply(c: Conn, q: CC.QueryId, r: CC.Result)
      requires Valid()
      modifies queries.Values
      ensures Valid() && Model() == CC.HandleReply(old(Model()), c, q, r)
    {
      if q in queries {
        queries[q].Reply(c, r);
      }
    }

    method HandleHello(c: Conn, id: NodeId)
      requires Valid()
      modifies this`peerNodeIds
      ensures Valid() && Model() == old(Model()).(peers := old(Model()).peers[c := id])
    {
      peerNodeIds := peerNodeIds[c := id];
    }

    /** Drop what is kept for a connection that is off its list. Queries waiting on it count it as
        not found. */
    method ForgetConnection(c: Conn)
      requires Valid() && c !in downstream + upstream
      modifies this`peerNodeIds, this`pending, queries.Values
      ensures Valid() && Model() == old(Model()).Forget(c)
    {
      peerNodeIds := peerNodeIds - {c};
      pending := pending - {c};
      ReplyAll(c);
      assert Elements(downstream + upstream) == Elements(downstream + upstream) - {c};
      assert Model().queries == old(Model()).Forget(c).queries;
    }

    /** Every query counts `c` as not found. */
    method ReplyAll(c: Conn)
      requires Valid()
      modifies queries.Values
      ensures Valid()
      ensures forall q :: q in queries ==> queries[q].Model() == old(queries[q].Model()).Reply(c, CC.NotFound)
    {
      var left := queries.Keys;
      while left != {}
        invariant left <= queries.Keys
        invariant forall q :: q in queries ==>
                    queries[q].Model() == if q in left then old(queries[q].Model())
                                          else old(queries[q].Model()).Reply(c, CC.NotFound)
        decreases left
      {
        var q :| q in left;
        queries[q].Reply(c, CC.NotFound);
        left := left - {q};
      }
    }

    /** The end of `_collect`: the query is forgotten. */
    method CloseQuery(q: CC.QueryId)
      requires Valid() && q in queries
      modifies this`queries
      ensures Valid() && Model() == old(Model()).(queries := old(Model()).queries - {q})
    {
      queries := queries - {q};
    }

    /** The end of `_forward_query`: whom to send the result to, if it is still there. */
    method ConcludeForward(q: CC.QueryId, source: Conn, r: CC.Result) returns (to: seq<Conn>)
      requires Valid() && q in queries && queries[q].origin == CC.Forward(source)
      modifies this`queries
      ensures Valid() && (Model(), SentTo(to, CC.Answer(q, r))) == CC.Conclude(old(Model()), q, r)
    {
      CloseQuery(q);
      to := if source in upstream || source in downstream then [source] else [];
      assert source in downstream + upstream <==> to != [];
      assert SentTo(to, CC.Answer(q, r)) == if to == [] then {} else {CC.Msg(source.Peer(), CC.Answer(q, r))};
    }

    /** The end of `_ask_own_query`. */
    method ConcludeOwn(q: CC.QueryId, ghost c: Conn, r: CC.Result)
      requires Valid() && q in queries && queries[q].origin == CC.Own(c)
      requires c in checks && checks[c].Asking?
      modifies this`queries, this`checking, this`checks
      ensures Valid() && Model() == CC.Conclude(old(Model()), q, r).0
    {
      CloseQuery(q);
      SetChecking(false);
      SetPhase(c, CC.Decided(checks[c].attempt, checks[c].peer, q, r));
    }

    static lemma StartIs(nd: CC.Node, c: Conn, q: CC.QueryId, targets: seq<Conn>)
      requires c in nd.checks && nd.checks[c].Ready? && Elements(targets) == nd.ActiveNodeConns()
      ensures var p := nd.checks[c];
              CC.StartAttempt(nd, c, q) ==
              if targets == []
              then (nd.(checks := nd.checks[c := CC.Decided(p.attempt, p.peer, q, CC.NotFound)]), {})
              else (nd.(checking := true, checks := nd.checks[c := CC.Asking(p.attempt, p.peer, q)],
                        queries := nd.queries[q := CC.NewQuery(CC.Own(c), p.peer, Elements(targets))]),
                    SentTo(targets, CC.Ask(q, p.peer)))
    {
      if targets != [] {
        assert targets[0] in Elements(targets);
      }
    }

    ghost method SetPhase(c: Conn, phase: CC.Phase)
      modifies this`checks
      ensures Model() == old(Model()).(checks := old(Model()).checks[c := phase])
    {
      checks := checks[c := phase];
      assert Model().queries == old(Model()).queries;
    }

    method SetChecking(on: bool)
      modifies this`checking
      ensures Model() == old(Model()).(checking := on)
    {
      checking := on;
      assert Model().queries == old(Model()).queries;
    }

    /** The start of `_ask_own_query`. Without a node connection, nothing is asked. */
    method AskOwnQuery(ghost c: Conn, q: CC.QueryId, peer: NodeId) returns (to: seq<Conn>)
      requires Valid() && c in checks && checks[c].Ready? && checks[c].peer == peer
      modifies this`queries, this`checking, this`checks
      ensures Valid() && fresh(queries.Values - old(queries.Values))
      ensures (Model(), SentTo(to, CC.Ask(q, peer))) == CC.StartAttempt(old(Model()), c, q)
    {
      to := ActiveNodeConnections();
      ActiveIsModels();
      StartIs(Model(), c, q, to);
      if to == [] {
        SetPhase(c, CC.Decided(checks[c].attempt, peer, q, CC.NotFound));
        assert SentTo(to, CC.Ask(q, peer)) == {};
      } else {
        SetChecking(true);
        SetPhase(c, CC.Asking(checks[c].attempt, peer, q));
        OpenQuery(q, to, CC.Own(c), peer);
      }
    }
  }
}
