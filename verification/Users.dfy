/**
 Which proxied users remain, in every table in which a user is on at most one replica of a service. Dependencies,
 triggers and the number of replicas are arbitrary here.
 */
module Users {
  import opened Types
  import opened ServiceTable
  import opened Chains
  import opened Teardown
  import opened Changes
  import opened Reconcile
  import opened Settlement

  // ----- teardowns -----

  /** The users that an operation removes. */
  ghost predicate Cuts(op: Op, l: Link) {
    op.ChainOp? && l.server == op.name && Matches(op.filter, l.client, l.at)
  }

  ghost predicate SomeCuts(ops: seq<Op>, l: Link) {
    exists op :: op in ops && Cuts(op, l)
  }

  /** The users after a sequence of teardowns: all that no operation matched, unchanged. */
  ghost predicate UsersLeft(a: Services, b: Services, ops: seq<Op>) {
    forall l: Link :: l.client.proxy.Some? ==> Entry(b, l) == if SomeCuts(ops, l) then None else Entry(a, l)
  }

  lemma {:induction false} DecrementEdgesUsers(w: World, edges: seq<(Client, Name)>)
    requires Unique(w.services) && ServiceEdges(edges)
    ensures SameProxies(w.services, DecrementEdges(w, edges).services)
    decreases |edges|
  {
    if edges != [] {
      assert edges[0] in edges;
      var m := DecrementChain(w, edges[0].1, edges[0].0);
      DecrementKeepsProxies(w, edges[0].1, edges[0].0);
      DecrementShrinks(w, edges[0].1, edges[0].0);
      DecrementEdgesUsers(m, edges[1..]);
    }
  }

  lemma {:induction false} DepChainsUsers(w: World, n: Name, targets: seq<Target>)
    requires Walkable(w.services, targets) && Unique(w.services)
    ensures SameProxies(w.services, TeardownDepChains(w, n, targets).services)
    decreases |targets|
  {
    if targets != [] {
      var edges := DepChainEdges(w.services, n, targets[0].at);
      var m := TeardownDepChain(w, n, targets[0].at);
      WalkIsService(w.services, n, targets[0].at);
      DecrementEdgesUsers(w, edges);
      DecrementEdgesShrink(w, edges);
      DecrementEdgesShape(w, edges);
      ShapeKeepsAcyclic(w.services, m.services);
      DepChainsUsers(m, n, targets[1..]);
    }
  }

  lemma CollectedAreCut(s: Services, n: Name, f: ProxyFilter, targets: seq<Target>, l: Link)
    requires Collected(s, n, f, targets) && l.client.proxy.Some?
    ensures l in LinksOf(n, targets) <==> Cuts(ChainOp(n, f), l) && Entry(s, l).Some?
  {
    LinksOfIn(n, targets, l);
    if Cuts(ChainOp(n, f), l) && Entry(s, l).Some? {
      assert Target(l.client, Entry(s, l).value, l.at) in targets;
    }
  }

  lemma ChainCutsUsers(w: World, n: Name, f: ProxyFilter, targets: seq<Target>)
    requires Walkable(w.services, targets) && Unique(w.services) && ProxyOnce(w.services)
    requires Collected(w.services, n, f, targets)
    ensures UsersLeft(w.services, TeardownChain(w, n, targets).services, [ChainOp(n, f)])
  {
    var s, m := w.services, TeardownDepChains(w, n, targets);
    var b := RemoveTargets(m.services, n, targets);
    DepChainsUsers(w, n, targets);
    DepChainsShrink(w, n, targets);
    ShrunkKeeps(s, m.services);
    forall t | t in targets ensures t.client.proxy.Some? && Entry(m.services, t.Link(n)).Some? {
      assert Entry(m.services, t.Link(n)) == Entry(s, t.Link(n));
    }
    RemoveTargetsExact(m.services, n, targets);
    FreeUnsharedTable(m.(services := b), n, targets, {});
    assert forall op :: op in [ChainOp(n, f)] <==> op == ChainOp(n, f);
    forall l: Link | l.client.proxy.Some?
      ensures Entry(b, l) == if SomeCuts([ChainOp(n, f)], l) then None else Entry(s, l)
    {
      CollectedAreCut(s, n, f, targets, l);
      assert SomeCuts([ChainOp(n, f)], l) <==> Cuts(ChainOp(n, f), l);
    }
  }

  lemma OpCutsUsers(w: World, op: Op, w': World)
    requires Unique(w.services) && ProxyOnce(w.services) && OpRel(w, op, w')
    ensures UsersLeft(w.services, w'.services, [op])
  {
    assert forall x :: x in [op] <==> x == op;
    match op
    case ChainOp(n, f) =>
      var targets :| Collected(w.services, n, f, targets) && Walkable(w.services, targets)
        && w' == TeardownChain(w, n, targets);
      ChainCutsUsers(w, n, f, targets);
    case BackendOp(n, at, through) =>
      var edges :| BackendEdges(w.services, n, at, through, edges) && w' == DecrementEdges(w, edges);
      var ports: seq<nat> :| Enumerates(ports, Triggers(w.services, n).Keys)
        && edges == TriggerEdges(w.services, n, at, through, ports);
      TriggersAreService(w.services, n, at, through, ports);
      DecrementEdgesUsers(w, edges);
  }

  lemma {:induction false} OpsCutUsers(w: World, ops: seq<Op>, w': World)
    requires Unique(w.services) && ProxyOnce(w.services) && OpsRel(w, ops, w')
    ensures UsersLeft(w.services, w'.services, ops)
    decreases |ops|
  {
    if ops != [] {
      var mid := OpsLast(w, ops, w');
      OpsCutUsers(w, ops[..|ops| - 1], mid);
      OpsKeepOnce(w, ops[..|ops| - 1], mid);
      OpCutsUsers(mid, ops[|ops| - 1], w');
      UsersLeftLast(w.services, mid.services, w'.services, ops);
    }
  }

  lemma UsersLeftLast(a: Services, m: Services, b: Services, ops: seq<Op>)
    requires ops != [] && UsersLeft(a, m, ops[..|ops| - 1]) && UsersLeft(m, b, [ops[|ops| - 1]])
    ensures UsersLeft(a, b, ops)
  {
    UsersLeftJoin(a, m, b, ops[..|ops| - 1], ops[|ops| - 1]);
    assert ops[..|ops| - 1] + [ops[|ops| - 1]] == ops;
  }

  lemma OpsKeepOnce(w: World, ops: seq<Op>, w': World)
    requires Unique(w.services) && ProxyOnce(w.services) && OpsRel(w, ops, w')
    ensures Unique(w'.services) && ProxyOnce(w'.services)
  {
    OpsShrink(w, ops, w');
    ShrunkKeeps(w.services, w'.services);
  }

  lemma UsersLeftJoin(a: Services, m: Services, b: Services, before: seq<Op>, last: Op)
    requires UsersLeft(a, m, before) && UsersLeft(m, b, [last])
    ensures UsersLeft(a, b, before + [last])
  {
    forall l: Link | l.client.proxy.Some?
      ensures Entry(b, l) == if SomeCuts(before + [last], l) then None else Entry(a, l)
    {
      CutsSplit(before, last, l);
    }
  }

  lemma CutsSplit(before: seq<Op>, last: Op, l: Link)
    ensures SomeCuts(before + [last], l) <==> SomeCuts(before, l) || SomeCuts([last], l)
  {
    assert forall op :: op in before + [last] <==> op in before || op in [last];
  }

  // ----- changes -----

  /** Users that a change is sure to remove. */
  ghost predicate Hits(change: ServiceChange, s: Services, l: Link) {
    match change
    case Removed(x) => l.server == x || x in Deps(s, l.server)
    case ProxyDepsChanged(x) => l.server == x || x in Deps(s, l.server)
    case ReachabilityChanged(n) => l.server == n
    case ReplicasRemoved(n, ip) => l.server == n && l.at.ip == ip
    case ReplicaRemoved(n, at) => l.server == n && l.at == at
    case ProxyDisconnected(ip) => l.client.proxy == Some(ip)
    case ProxyClientTimedOut(n, c) => l.server == n && l.client == c
    case TriggersChanged(_) => false
  }

  lemma {:induction false} CleanupHasName(s: Services, x: Name, order: seq<Name>, n: Name)
    requires n in order
    ensures ChainOp(n, All) in CleanupOps(s, x, order)
    decreases |order|
  {
    if n in order[..|order| - 1] {
      CleanupHasName(s, x, order[..|order| - 1], n);
    }
  }

  lemma CleanupHits(s: Services, x: Name, ops: seq<Op>, l: Link)
    requires CleanupPlan(s, x, ops) && l.client.proxy.Some? && Entry(s, l).Some?
    requires l.server == x || x in Deps(s, l.server)
    ensures SomeCuts(ops, l)
  {
    var order: seq<Name> :| Enumerates(order, CleanupNames(s, x)) && ops == CleanupOps(s, x, order);
    TabNeedsRep(s, l.server, l.at);
    assert l.server in CleanupNames(s, x);
    CleanupHasName(s, x, order, l.server);
    assert Cuts(ChainOp(l.server, All), l);
  }

  lemma {:induction false} ProxyOpsHaveName(order: seq<Name>, ip: Ip, n: Name)
    requires n in order
    ensures ChainOp(n, ByIp(ip)) in ProxyOps(order, ip)
    decreases |order|
  {
    if n in order[..|order| - 1] {
      ProxyOpsHaveName(order[..|order| - 1], ip, n);
    }
  }

  lemma ProxyHits(w: World, ip: Ip, ops: seq<Op>, mid: World, l: Link)
    requires Unique(w.services) && Plan(w, ProxyDisconnected(ip), ops, mid)
    requires Entry(w.services, l).Some? && l.client.proxy == Some(ip)
    ensures SomeCuts(ops, l)
  {
    var s := w.services;
    var order: seq<Name> :| Enumerates(order, NamesOfProxy(s, ip)) && ops == ProxyOps(order, ip);
    UserNames(s, l, ip);
    ProxyOpsHaveName(order, ip, l.server);
    assert Cuts(ChainOp(l.server, ByIp(ip)), l);
  }

  lemma UserNames(s: Services, l: Link, ip: Ip)
    requires Unique(s) && Entry(s, l).Some? && l.client.proxy == Some(ip)
    ensures l.server in NamesOfProxy(s, ip)
  {
    TabNeedsRep(s, l.server, l.at);
    var i :| 0 <= i < |Reps(s, l.server)| && Reps(s, l.server)[i].Id() == l.at;
    TabAt(Reps(s, l.server), i);
  }

  lemma PlanHits(w: World, change: ServiceChange, ops: seq<Op>, mid: World, l: Link)
    requires Unique(w.services) && Plan(w, change, ops, mid) && l.client.proxy.Some? && Entry(w.services, l).Some?
    requires Hits(change, w.services, l) && !change.ReplicasRemoved? && !change.ReplicaRemoved?
    ensures SomeCuts(ops, l)
  {
    match change
    case Removed(x) => CleanupHits(w.services, x, ops, l);
    case ProxyDepsChanged(x) => CleanupHits(w.services, x, ops, l);
    case ReachabilityChanged(n) => assert ops[0] == ChainOp(n, All) && Cuts(ops[0], l);
    case ProxyDisconnected(ip) => ProxyHits(w, ip, ops, mid, l);
    case ProxyClientTimedOut(n, c) => assert ops[0] == ChainOp(n, ByClient(c)) && Cuts(ops[0], l);
    case TriggersChanged(n) =>
  }

  /** A change keeps no user that it hits, and alters none that it keeps. */
  lemma ChangeUsers(w: World, change: ServiceChange, w': World, l: Link)
    requires Unique(w.services) && ProxyOnce(w.services) && ChangeRel(w, change, w')
    requires change.ReplicaRemoved? ==> Port(w.services, change.name, change.at).Some?
    requires l.client.proxy.Some? && Entry(w'.services, l).Some?
    ensures Entry(w'.services, l) == Entry(w.services, l) && !Hits(change, w.services, l)
  {
    var ops, mid: World :| Plan(w, change, ops, mid) && OpsRel(w, ops, mid)
      && w' == mid.(services := Finish(w.services, mid.services, change));
    OpsCutUsers(w, ops, mid);
    OpsShape(w, ops, mid);
    ShapeFacts(w.services, mid.services);
    ChangePorts(w, change, w');
    FinishKeepsEntries(w.services, mid.services, change, l);
    if Hits(change, w.services, l) {
      if change.ReplicasRemoved? || change.ReplicaRemoved? {
        assert Drops(change, l.server, l.at);
        HasRepByPort(w'.services, l.server, l.at);
        TabNeedsRep(w'.services, l.server, l.at);
        assert false;
      } else {
        PlanHits(w, change, ops, mid, l);
      }
    }
  }

  lemma FinishKeepsEntries(s0: Services, s: Services, change: ServiceChange, l: Link)
    requires Unique(s) && Entry(Finish(s0, s, change), l).Some?
    ensures Entry(Finish(s0, s, change), l) == Entry(s, l)
  {
    match change
    case Removed(x) => FinishRemoved(s, x);
    case ReplicasRemoved(n, ip) => UnregisterPorts(s, n); KeepPorts(s, n, OffIp(ip));
    case ReplicaRemoved(n, at) => UnregisterPorts(s, n); KeepPorts(s, n, OtherThan(at));
    case _ =>
  }

  lemma FinishUnique(s0: Services, s: Services, change: ServiceChange)
    requires Unique(s)
    ensures Unique(Finish(s0, s, change))
  {
    match change
    case Removed(x) => FinishRemoved(s, x);
    case ReplicasRemoved(n, ip) => UnregisterPorts(s, n); KeepPorts(s, n, OffIp(ip));
    case ReplicaRemoved(n, at) => UnregisterPorts(s, n); KeepPorts(s, n, OtherThan(at));
    case _ =>
  }

  lemma FinishShrinks(s0: Services, s: Services, change: ServiceChange)
    requires Unique(s)
    ensures Unique(Finish(s0, s, change)) && Shrunk(s, Finish(s0, s, change))
  {
    FinishUnique(s0, s, change);
    forall l | Entry(Finish(s0, s, change), l).Some? ensures Entry(Finish(s0, s, change), l) == Entry(s, l) {
      FinishKeepsEntries(s0, s, change, l);
    }
  }

  lemma ChangeShrinks(w: World, change: ServiceChange, w': World)
    requires Unique(w.services) && ChangeRel(w, change, w')
    ensures Unique(w'.services) && Shrunk(w.services, w'.services)
  {
    var ops, mid: World :| Plan(w, change, ops, mid) && OpsRel(w, ops, mid)
      && w' == mid.(services := Finish(w.services, mid.services, change));
    OpsShrink(w, ops, mid);
    FinishShrinks(w.services, mid.services, change);
    ShrunkTrans(w.services, mid.services, w'.services);
  }

  lemma {:induction false} ApplyShrinks(w: World, changes: seq<ServiceChange>, w': World)
    requires Unique(w.services) && ApplyRel(w, changes, w')
    ensures Unique(w'.services) && Shrunk(w.services, w'.services)
    decreases |changes|
  {
    if changes == [] {
      SameIsShrunk(w.services);
    } else {
      var before, last := changes[..|changes| - 1], changes[|changes| - 1];
      var mid :| ApplyRel(w, before, mid) && ChangeRel(mid, last, w');
      ApplyShrinks(w, before, mid);
      ChangeShrinks(mid, last, w');
      ShrunkTrans(w.services, mid.services, w'.services);
    }
  }

  lemma ApplyPrefix(w: World, before: seq<ServiceChange>, last: ServiceChange, mid: World)
    requires Unique(w.services) && ProxyOnce(w.services) && ApplyRel(w, before, mid)
    requires Known(w.services, before + [last])
    ensures Unique(mid.services) && ProxyOnce(mid.services)
    ensures forall n :: n in mid.services ==> Deps(mid.services, n) == Deps(w.services, n)
    ensures last.ReplicaRemoved? ==> Port(mid.services, last.name, last.at).Some?
  {
    KnownPrefix(w.services, before, last);
    ApplyPorts(w, before, mid);
    ApplyShrinks(w, before, mid);
    ShrunkKeeps(w.services, mid.services);
  }

  lemma HitsSame(a: Services, b: Services, change: ServiceChange, l: Link)
    requires Deps(a, l.server) == Deps(b, l.server)
    ensures Hits(change, a, l) == Hits(change, b, l)
  {
  }

  /** After any list of changes no user is left that one of them hits, and the users that are left are unchanged. */
  lemma {:induction false} ApplyUsers(w: World, changes: seq<ServiceChange>, w': World, l: Link)
    requires Unique(w.services) && ProxyOnce(w.services) && ApplyRel(w, changes, w') && Known(w.services, changes)
    requires l.client.proxy.Some? && Entry(w'.services, l).Some?
    ensures Entry(w'.services, l) == Entry(w.services, l)
    ensures forall change :: change in changes ==> !Hits(change, w.services, l)
    decreases |changes|
  {
    if changes != [] {
      var before, last := changes[..|changes| - 1], changes[|changes| - 1];
      assert changes == before + [last];
      var mid :| ApplyRel(w, before, mid) && ChangeRel(mid, last, w');
      KnownPrefix(w.services, before, last);
      LastChangeUsers(w, before, last, mid, w', l);
      ApplyUsers(w, before, mid, l);
    }
  }

  lemma LastChangeUsers(w: World, before: seq<ServiceChange>, last: ServiceChange, mid: World, w': World, l: Link)
    requires Unique(w.services) && ProxyOnce(w.services) && ApplyRel(w, before, mid) && ChangeRel(mid, last, w')
    requires Known(w.services, before + [last]) && l.client.proxy.Some? && Entry(w'.services, l).Some?
    ensures Entry(w'.services, l) == Entry(mid.services, l) && !Hits(last, w.services, l)
  {
    ApplyPrefix(w, before, last, mid);
    ChangeUsers(mid, last, w', l);
    EntryNeedsRep(mid.services, l);
    HitsSame(w.services, mid.services, last, l);
  }

  /** After a node has gone no user of a proxy on that node is left. */
  lemma DisconnectRemovesUsers(w: World, ip: Ip, w': World)
    requires Unique(w.services) && ProxyOnce(w.services) && DisconnectRel(w, ip, w')
    ensures forall l: Link :: l.client.proxy == Some(ip) ==> Entry(w'.services, l).None?
  {
    var changes :| DisconnectDetected(w.services, ip, changes) && ApplyRel(w, changes, w');
    DisconnectDetects(w.services, ip, changes);
    forall l: Link | l.client.proxy == Some(ip) ensures Entry(w'.services, l).None? {
      if Entry(w'.services, l).Some? {
        ApplyUsers(w, changes, w', l);
        UserNames(w.services, l, ip);
        ProxyChangeListed(w.services, ip, changes);
        assert Hits(ProxyDisconnected(ip), w.services, l);
        assert false;
      }
    }
  }

  lemma ProxyChangeListed(s: Services, ip: Ip, changes: seq<ServiceChange>)
    requires DisconnectDetected(s, ip, changes) && NamesOfProxy(s, ip) != {}
    ensures ProxyDisconnected(ip) in changes
  {
  }

  // ----- timeouts -----

  /** The timeout of a user removes that user and no other. */
  lemma TimedOutUsers(w: World, n: Name, c: Client, w': World)
    requires Unique(w.services) && ProxyOnce(w.services) && ChangeRel(w, ProxyClientTimedOut(n, c), w')
    ensures SameShape(w.services, w'.services) && Shrunk(w.services, w'.services)
    ensures forall l: Link :: l.client.proxy.Some? ==>
      Entry(w'.services, l) == if l.server == n && l.client == c then None else Entry(w.services, l)
  {
    var ops, mid: World :| Plan(w, ProxyClientTimedOut(n, c), ops, mid) && OpsRel(w, ops, mid)
      && w' == mid.(services := Finish(w.services, mid.services, ProxyClientTimedOut(n, c)));
    OpsCutUsers(w, ops, mid);
    OpsShape(w, ops, mid);
    OpsShrink(w, ops, mid);
    forall l: Link | l.client.proxy.Some? ensures SomeCuts(ops, l) <==> l.server == n && l.client == c {
      assert ops[0] == ChainOp(n, ByClient(c));
      assert Cuts(ops[0], l) <==> l.server == n && l.client == c;
    }
  }

  ghost predicate OnlyTimeouts(changes: seq<ServiceChange>) {
    forall change :: change in changes ==> change.ProxyClientTimedOut?
  }

  lemma {:induction false} AllTimedOutUsers(w: World, changes: seq<ServiceChange>, w': World)
    requires Unique(w.services) && ProxyOnce(w.services) && ApplyRel(w, changes, w') && OnlyTimeouts(changes)
    ensures SameShape(w.services, w'.services) && Unique(w'.services) && ProxyOnce(w'.services)
    ensures forall l: Link :: l.client.proxy.Some? ==>
      Entry(w'.services, l) == if ProxyClientTimedOut(l.server, l.client) in changes then None else Entry(w.services, l)
    decreases |changes|
  {
    if changes != [] {
      var before, last := changes[..|changes| - 1], changes[|changes| - 1];
      var mid :| ApplyRel(w, before, mid) && ChangeRel(mid, last, w');
      assert forall change :: change in changes <==> change in before || change == last;
      AllTimedOutUsers(w, before, mid);
      TimedOutUsers(mid, last.name, last.client, w');
      ShapeTrans(w.services, mid.services, w'.services);
      ShapeFacts(mid.services, w'.services);
      ShrunkKeeps(mid.services, w'.services);
    }
  }
}
