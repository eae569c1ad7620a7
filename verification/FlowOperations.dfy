/** In the flow regime every teardown keeps the flow invariant and removes exactly the users it matches. */
module FlowOperations {
  import opened Types
  import opened ServiceTable
  import opened Chains
  import opened Teardown
  import opened Settlement
  import opened Flow
  import opened FlowTeardown
  import opened Conservation
  import opened FlowTriggers
  import opened Users

  ghost predicate UsersOf(gone: set<Link>, n: Name) {
    forall l: Link :: l in gone ==> l.client.proxy.Some? && l.server == n
  }

  /** No edge that a chain starts with has changed. */
  ghost predicate SameRoots(a: Services, b: Services) {
    forall l :: !IsOut(a, l) ==> Entry(b, l) == Entry(a, l)
  }

  /** A user that still counts keeps the whole chain of its replica alive. */
  lemma UserKeepsChain(s: Services, gone: set<Link>, p: Link)
    requires FlowWithout(s, gone) && UsersOf(gone, p.server)
    requires Entry(s, p).Some? && p.client.proxy.Some? && p !in gone
    ensures Load(s, p) == 1 && HasRep(s, p.server, p.at)
    ensures Alive(s, ServiceClient(p.server, p.at), Deps(s, p.server)) && Configured(s, p.server)
  {
    var n, r := p.server, p.at;
    var c, deps := ServiceClient(n, r), Deps(s, n);
    EntryNeedsRep(s, p);
    assert LinkOk(s, p, Entry(s, p).value);
    InflowCounts(s, p, gone);
    forall j | 0 <= j < |deps| ensures Entry(s, LinkAt(s, c, deps, j)).Some? && deps[j] in s {
      ChainAlive(s, gone, n, r, j);
      EntryNeedsRep(s, LinkAt(s, c, deps, j));
    }
  }

  lemma LoweredIsOneLess(a: Services, b: Services, gone: set<Link>, p: Link)
    requires FlowWithout(a, gone) && UsersOf(gone, p.server) && p !in gone && p.client.proxy.Some? && Load(a, p) == 1
    requires var c, deps := ServiceClient(p.server, p.at), Deps(a, p.server);
      Alive(a, c, deps) && Lowered(a, b, ChainLinks(a, c, deps))
    ensures OneChain(a, gone, b, gone + {p}, p.server, p.at, p, -1)
  {
    var c, deps := ServiceClient(p.server, p.at), Deps(a, p.server);
    var links := ChainLinks(a, c, deps);
    forall l | l in links ensures l.client.proxy.None? && Entry(a, l).Some? && Entry(a, l).value.activeChains >= 1 {
      LinksLieOnChain(a, p.server, p.at, l);
      var j :| 0 <= j < |links| && links[j] == l;
      assert Entry(a, LinkAt(a, c, deps, j)).Some?;
      assert LinkOk(a, l, Entry(a, l).value);
    }
    forall l ensures LoadWithout(b, gone + {p}, l) ==
      LoadWithout(a, gone, l) + if l == p || l in links then -1 else 0
    {
      assert Entry(b, l) == if l in links then OneLess(Entry(a, l)) else Entry(a, l);
    }
  }

  /** The first half of taking one user down: its chain, not yet the user itself. */
  lemma DepChainKeepsFlow(w: World, gone: set<Link>, n: Name, p: Link)
    requires Acyclic(w.services) && FlowWithout(w.services, gone) && UsersOf(gone, n)
    requires p.server == n && p.client.proxy.Some? && p !in gone && Entry(w.services, p).Some?
    ensures var b := TeardownDepChain(w, n, p.at).services;
      FlowWithout(b, gone + {p}) && SameRoots(w.services, b) && SameShape(w.services, b)
  {
    var s, b := w.services, TeardownDepChain(w, n, p.at).services;
    var c, deps := ServiceClient(n, p.at), Deps(w.services, n);
    UserKeepsChain(s, gone, p);
    WalkIsShape(s, n, p.at);
    WalkLowers(w, n, p.at);
    LoweredIsOneLess(s, b, gone, p);
    forall l | l in ChainLinks(s, c, deps) ensures l.client.proxy.None? && IsOut(s, l) {
      LinksLieOnChain(s, n, p.at, l);
      LinksAreOut(s, n, p.at, l);
    }
    LoweredKeeps(s, b, ChainLinks(s, c, deps));
    Rebalance(s, gone, b, gone + {p}, n, p.at, p, -1);
  }

  lemma RestApart(targets: seq<Target>, n: Name)
    requires targets != []
    requires forall i, j :: 0 <= i < j < |targets| ==> targets[i].Link(n) != targets[j].Link(n)
    ensures forall t :: t in targets[1..] ==> t in targets && t.Link(n) != targets[0].Link(n)
  {
    forall t | t in targets[1..] ensures t in targets && t.Link(n) != targets[0].Link(n) {
      var k :| 0 <= k < |targets[1..]| && targets[1..][k] == t;
      assert targets[k + 1] == t;
    }
  }

  lemma {:induction false} DepChainsKeepFlow(w: World, gone: set<Link>, n: Name, targets: seq<Target>)
    requires Walkable(w.services, targets) && FlowWithout(w.services, gone) && UsersOf(gone, n)
    requires forall t :: t in targets ==>
      t.client.proxy.Some? && Entry(w.services, t.Link(n)).Some? && t.Link(n) !in gone
    requires forall i, j :: 0 <= i < j < |targets| ==> targets[i].Link(n) != targets[j].Link(n)
    ensures var b := TeardownDepChains(w, n, targets).services;
      FlowWithout(b, gone + LinksOf(n, targets)) && SameRoots(w.services, b) && SameShape(w.services, b)
    decreases |targets|
  {
    if targets == [] {
      assert gone + LinksOf(n, targets) == gone;
    } else {
      var p, rest := targets[0].Link(n), targets[1..];
      assert targets[0] in targets;
      DepChainKeepsFlow(w, gone, n, p);
      var m := TeardownDepChain(w, n, targets[0].at);
      ShapeKeepsAcyclic(w.services, m.services);
      RestApart(targets, n);
      SameEdgeKinds(w.services, m.services);
      DepChainsKeepFlow(m, gone + {p}, n, rest);
      ShapeTrans(w.services, m.services, TeardownDepChains(m, n, rest).services);
      assert gone + {p} + LinksOf(n, rest) == gone + LinksOf(n, targets);
    }
  }

  /** Removing the first edges that no longer count leaves the flow balanced. */
  lemma RemovalBalances(a: Services, b: Services, gone: set<Link>)
    requires FlowWithout(a, gone) && OnlyRoots(a, gone) && SameShape(a, b)
    requires forall l :: Entry(b, l) == if l in gone then None else Entry(a, l)
    ensures FlowInvariant(b)
  {
    RegimeShape(a, b);
    ShapeFacts(a, b);
    SameEdgeKinds(a, b);
    assert Shrunk(a, b);
    ShrunkKeeps(a, b);
    forall l | Entry(b, l).Some? ensures LinkOk(b, l, Entry(b, l).value) {
      assert Entry(a, l).Some? && LinkOk(a, l, Entry(a, l).value);
    }
    forall n, r | HasRep(b, n, r) && Deps(b, n) != [] ensures Load(b, OutLink(b, n, r)) == Inflow(b, n, r, {}) {
      assert HasRep(a, n, r);
      RemovalBalancesAt(a, b, gone, n, r);
    }
  }

  lemma RemovalBalancesAt(a: Services, b: Services, gone: set<Link>, n: Name, r: ReplicaId)
    requires OnlyRoots(a, gone) && SameShape(a, b) && HasRep(a, n, r) && Deps(b, n) == Deps(a, n) != []
    requires forall l :: Entry(b, l) == if l in gone then None else Entry(a, l)
    requires Load(a, OutLink(a, n, r)) == Inflow(a, n, r, gone)
    ensures Load(b, OutLink(b, n, r)) == Inflow(b, n, r, {})
  {
    SameSole(a, b, Deps(b, n)[0]);
    var out := OutLink(a, n, r);
    assert OutLink(b, n, r) == out && Entry(b, out) == Entry(a, out);
    forall l ensures LoadWithout(b, {}, l) == LoadWithout(a, gone, l) {
      assert Entry(b, l) == if l in gone then None else Entry(a, l);
    }
    InflowShift(a, gone, b, {}, Link(out.client, n, r), 0);
  }

  /** First edges of trigger chains are as before. */
  ghost predicate SameTriggered(a: Services, b: Services) {
    forall l: Link :: l.client.proxy.None? && !IsOut(a, l) ==> Entry(b, l) == Entry(a, l)
  }

  lemma ChainKeepsFlow(w: World, n: Name, f: ProxyFilter, targets: seq<Target>)
    requires Walkable(w.services, targets) && FlowInvariant(w.services) && Collected(w.services, n, f, targets)
    ensures FlowInvariant(TeardownChain(w, n, targets).services)
    ensures SameTriggered(w.services, TeardownChain(w, n, targets).services)
  {
    var s := w.services;
    var m := TeardownDepChains(w, n, targets);
    var b := RemoveTargets(m.services, n, targets);
    forall t | t in targets ensures t.client.proxy.Some? && Entry(s, t.Link(n)).Some? {}
    DepChainsKeepFlow(w, {}, n, targets);
    assert {} + LinksOf(n, targets) == LinksOf(n, targets);
    forall t | t in targets ensures Entry(m.services, t.Link(n)).Some? {
      assert Entry(m.services, t.Link(n)) == Entry(s, t.Link(n));
    }
    RemoveTargetsExact(m.services, n, targets);
    RemoveTargetsShape(m.services, n, targets);
    LinksAreUsers(n, targets);
    RemovalBalances(m.services, b, LinksOf(n, targets));
    FreeUnsharedTable(m.(services := b), n, targets, {});
  }

  lemma LinksAreUsers(n: Name, targets: seq<Target>)
    requires forall t :: t in targets ==> t.client.proxy.Some?
    ensures forall l: Link :: l in LinksOf(n, targets) ==> l.client.proxy.Some?
  {
    forall l: Link | l in LinksOf(n, targets) ensures l.client.proxy.Some? {
      LinksOfIn(n, targets, l);
    }
  }

  // ----- sequences -----

  /** The operation takes down the trigger chain that starts with the edge. */
  ghost predicate CutsTrigger(s: Services, op: Op, l: Link) {
    op.BackendOp? && TakesFirst(s, op.name, op.at, op.through, l)
  }

  ghost predicate SomeCutsTrigger(s: Services, ops: seq<Op>, l: Link) {
    exists op :: op in ops && CutsTrigger(s, op, l)
  }

  /** The trigger chains after a sequence of teardowns: all that no operation concerns, with their first edges. */
  ghost predicate TriggersLeft(a: Services, b: Services, ops: seq<Op>) {
    forall l: Link :: l.client.proxy.None? && !IsOut(a, l) ==>
      Entry(b, l) == if SomeCutsTrigger(a, ops, l) then None else Entry(a, l)
  }

  lemma OpKeepsFlow(w: World, op: Op, w': World)
    requires FlowInvariant(w.services) && OpRel(w, op, w')
    ensures FlowInvariant(w'.services) && TriggersLeft(w.services, w'.services, [op])
  {
    assert forall x :: x in [op] <==> x == op;
    assert forall l :: SomeCutsTrigger(w.services, [op], l) <==> CutsTrigger(w.services, op, l);
    match op
    case ChainOp(n, f) =>
      var targets :| Collected(w.services, n, f, targets) && Walkable(w.services, targets)
        && w' == TeardownChain(w, n, targets);
      ChainKeepsFlow(w, n, f, targets);
    case BackendOp(n, at, through) =>
      var edges :| BackendEdges(w.services, n, at, through, edges) && w' == DecrementEdges(w, edges);
      BackendKeepsFlow(w, n, at, through, edges);
  }

  lemma SameCuts(a: Services, b: Services, op: Op, l: Link)
    requires SameShape(a, b) && CutsTrigger(a, op, l)
    ensures CutsTrigger(b, op, l)
  {
    SameEdgeKinds(a, b);
    var p :| TakesAt(a, op.name, op.at, op.through, p, l);
    SameSole(a, b, TriggerAt(a, op.name, p)[0]);
    assert TakesAt(b, op.name, op.at, op.through, p, l);
  }

  lemma ShapeBack(a: Services, b: Services)
    requires SameShape(a, b)
    ensures SameShape(b, a)
  {
  }

  lemma TriggersLeftLast(a: Services, m: Services, b: Services, ops: seq<Op>)
    requires ops != [] && SameShape(a, m) && TriggersLeft(a, m, ops[..|ops| - 1]) && TriggersLeft(m, b, [ops[|ops| - 1]])
    ensures TriggersLeft(a, b, ops)
  {
    var before, last := ops[..|ops| - 1], ops[|ops| - 1];
    SameEdgeKinds(a, m);
    assert forall op :: op in ops <==> op in before || op == last;
    forall l ensures SomeCutsTrigger(a, ops, l) <==> SomeCutsTrigger(a, before, l) || SomeCutsTrigger(m, [last], l) {
      ShapeBack(a, m);
      if CutsTrigger(a, last, l) {
        SameCuts(a, m, last, l);
      }
      if CutsTrigger(m, last, l) {
        SameCuts(m, a, last, l);
      }
      assert SomeCutsTrigger(m, [last], l) <==> CutsTrigger(m, last, l);
    }
  }

  /**
   Every sequence of teardowns keeps the flow conserved, and removes exactly the users that a filter matches and the
   trigger chains that a backend teardown concerns.
   */
  lemma {:induction false} OpsKeepFlow(w: World, ops: seq<Op>, w': World)
    requires FlowInvariant(w.services) && OpsRel(w, ops, w')
    ensures FlowInvariant(w'.services) && UsersLeft(w.services, w'.services, ops)
    ensures TriggersLeft(w.services, w'.services, ops)
    decreases |ops|
  {
    OpsCutUsers(w, ops, w');
    if ops != [] {
      var before, last := ops[..|ops| - 1], ops[|ops| - 1];
      var mid :| OpsRel(w, before, mid) && OpRel(mid, last, w');
      OpsKeepFlow(w, before, mid);
      OpKeepsFlow(mid, last, w');
      OpsShape(w, before, mid);
      TriggersLeftLast(w.services, mid.services, w'.services, ops);
    }
  }
}
