/** Which users a change takes, exactly, and which it leaves (src/services/changes.rs:181-685). */
module UserChanges {
  import opened Types
  import opened ServiceTable
  import opened Teardown
  import opened Changes
  import opened Reconcile
  import opened Settlement
  import opened Users

  // ----- the users that one change takes, exactly -----

  /** The service is the one that changes, or lists it, as a dependency or on the chain of a trigger. */
  predicate Lists(s: Services, n: Name, x: Name) {
    n == x || (n in s && (x in s[n].config.proxyDeps
                          || exists p :: p in s[n].config.triggers && x in s[n].config.triggers[p]))
  }

  /** The users that a change other than the removal of replicas takes. */
  ghost predicate Concerns(change: ServiceChange, s: Services, l: Link) {
    match change
    case Removed(x) => Lists(s, l.server, x)
    case ProxyDepsChanged(x) => Lists(s, l.server, x)
    case TriggersChanged(_) => false
    case ReachabilityChanged(n) => l.server == n
    case ProxyDisconnected(ip) => l.client.proxy == Some(ip)
    case ProxyClientTimedOut(n, c) => l.server == n && l.client == c
    case _ => false
  }

  predicate KeepsReplicas(change: ServiceChange) {
    !change.ReplicasRemoved? && !change.ReplicaRemoved?
  }

  lemma {:induction false} BackendOpsCutNobody(n: Name, reps: seq<Replica>, through: Option<Name>)
    ensures forall op :: op in BackendOps(n, reps, through) ==> op.BackendOp?
  {
    if reps != [] {
      BackendOpsCutNobody(n, reps[..|reps| - 1], through);
    }
  }

  lemma {:induction false} CleanupCuts(s: Services, x: Name, order: seq<Name>, op: Op)
    requires op in CleanupOps(s, x, order) && op.ChainOp?
    ensures op.filter == All && op.name in order
    decreases |order|
  {
    var n := order[|order| - 1];
    BackendOpsCutNobody(n, Reps(s, n), if n == x then None else Some(x));
    if op in CleanupOps(s, x, order[..|order| - 1]) {
      CleanupCuts(s, x, order[..|order| - 1], op);
    }
  }

  lemma CleanupCutsListing(s: Services, x: Name, ops: seq<Op>, l: Link)
    requires CleanupPlan(s, x, ops) && l.client.proxy.Some? && Entry(s, l).Some?
    ensures SomeCuts(ops, l) <==> Lists(s, l.server, x)
  {
    var order: seq<Name> :| Enumerates(order, CleanupNames(s, x)) && ops == CleanupOps(s, x, order);
    EntryNeedsRep(s, l);
    assert l.server in CleanupNames(s, x) <==> Lists(s, l.server, x);
    if Lists(s, l.server, x) {
      CleanupHasName(s, x, order, l.server);
      assert Cuts(ChainOp(l.server, All), l);
    }
    if op :| op in ops && Cuts(op, l) {
      CleanupCuts(s, x, order, op);
    }
  }

  lemma {:induction false} ProxyOpsAre(order: seq<Name>, ip: Ip, op: Op)
    requires op in ProxyOps(order, ip)
    ensures op.ChainOp? && op.filter == ByIp(ip)
    decreases |order|
  {
    if op in ProxyOps(order[..|order| - 1], ip) {
      ProxyOpsAre(order[..|order| - 1], ip, op);
    }
  }

  lemma PlanCuts(w: World, change: ServiceChange, ops: seq<Op>, mid: World, l: Link)
    requires Unique(w.services) && Plan(w, change, ops, mid) && KeepsReplicas(change)
    requires l.client.proxy.Some? && Entry(w.services, l).Some?
    ensures SomeCuts(ops, l) <==> Concerns(change, w.services, l)
  {
    var s := w.services;
    match change
    case Removed(x) => CleanupCutsListing(s, x, ops, l);
    case ProxyDepsChanged(x) => CleanupCutsListing(s, x, ops, l);
    case TriggersChanged(n) => BackendOpsCutNobody(n, Reps(s, n), None);
    case ReachabilityChanged(n) =>
      BackendOpsCutNobody(n, Reps(s, n), None);
      assert ops[0] == ChainOp(n, All);
      assert forall op :: op in ops <==> op == ops[0] || op in BackendOps(n, Reps(s, n), None);
      assert Cuts(ops[0], l) <==> l.server == n;
    case ProxyDisconnected(ip) =>
      var order: seq<Name> :| Enumerates(order, NamesOfProxy(s, ip)) && ops == ProxyOps(order, ip);
      if l.client.proxy == Some(ip) {
        ProxyHits(w, ip, ops, mid, l);
      }
      if op :| op in ops && Cuts(op, l) {
        ProxyOpsAre(order, ip, op);
      }
    case ProxyClientTimedOut(n, c) =>
      assert ops[0] == ChainOp(n, ByClient(c));
      assert Cuts(ops[0], l) <==> l.server == n && l.client == c;
  }

  /** A change that removes no replicas takes exactly the users that it concerns, and leaves all others as they are. */
  lemma ChangeTakes(w: World, change: ServiceChange, w': World, l: Link)
    requires Unique(w.services) && ProxyOnce(w.services) && ChangeRel(w, change, w') && KeepsReplicas(change)
    requires l.client.proxy.Some?
    ensures Entry(w'.services, l) ==
      if Entry(w.services, l).Some? && Concerns(change, w.services, l) then None else Entry(w.services, l)
  {
    var ops, mid: World :| Plan(w, change, ops, mid) && OpsRel(w, ops, mid)
      && w' == mid.(services := Finish(w.services, mid.services, change));
    OpsCutUsers(w, ops, mid);
    OpsShrink(w, ops, mid);
    if Entry(w.services, l).Some? {
      PlanCuts(w, change, ops, mid, l);
    }
    if change.Removed? {
      FinishRemoved(mid.services, change.name);
    }
  }

  // ----- the users that the removal of replicas takes -----

  /** The replicas that the change removes. */
  predicate Removes(change: ServiceChange, n: Name, r: ReplicaId) {
    match change
    case ReplicasRemoved(m, ip) => n == m && r.ip == ip
    case ReplicaRemoved(m, at) => n == m && r == at
    case _ => false
  }

  /** They are the last ones of the service. */
  predicate RemovesAll(change: ServiceChange, s: Services) {
    match change
    case ReplicasRemoved(m, ip) => AllOnIp(s, m, ip)
    case ReplicaRemoved(m, _) => OnlyOne(s, m)
    case _ => false
  }

  /** The replica that serves the user is a client of a replica that goes. */
  ghost predicate UpstreamOf(change: ServiceChange, s: Services, l: Link) {
    exists n, r, c: Client :: Removes(change, n, r) && c in Tab(s, n, r)
      && c.proxy.None? && c.name == l.server && c.replica == Some(l.at)
  }

  /** The filter of a partial removal selects the replicas that go. */
  ghost predicate Goes(change: ServiceChange, n: Name, f: ProxyFilter) {
    && (f.OnIp? || f.OnReplica?)
    && forall m, r :: Removes(change, m, r) <==> m == n && Selects(f, r)
  }

  /** One of these clients is the replica that serves the user. */
  ghost predicate Leads(affected: seq<Client>, l: Link) {
    exists c :: c in affected && c.name == l.server && c.replica == Some(l.at)
  }

  lemma {:induction false} UpstreamCuts(n: Name, affected: seq<Client>, l: Link)
    requires l.client.proxy.Some?
    ensures SomeCuts(UpstreamOps(n, affected), l) <==> Leads(affected, l)
    decreases |affected|
  {
    if affected != [] {
      var before, c := affected[..|affected| - 1], affected[|affected| - 1];
      UpstreamCuts(n, before, l);
      var last := if c.replica.Some?
                  then [ChainOp(c.name, OnReplica(c.replica.value)), BackendOp(c.name, c.replica.value, Some(n))] else [];
      assert forall x :: x in affected <==> x in before || x == c;
      CutsBoth(UpstreamOps(n, before), last, l);
      LastCuts(n, c, last, l);
    }
  }

  lemma LastCuts(n: Name, c: Client, last: seq<Op>, l: Link)
    requires l.client.proxy.Some?
    requires last == if c.replica.Some?
                     then [ChainOp(c.name, OnReplica(c.replica.value)), BackendOp(c.name, c.replica.value, Some(n))] else []
    ensures SomeCuts(last, l) <==> c.name == l.server && c.replica == Some(l.at)
  {
    if c.replica.Some? {
      assert last[0] in last;
      assert Cuts(last[0], l) <==> c.name == l.server && c.replica == Some(l.at);
    }
  }

  lemma CutsBoth(a: seq<Op>, b: seq<Op>, l: Link)
    ensures SomeCuts(a + b, l) <==> SomeCuts(a, l) || SomeCuts(b, l)
  {
    assert forall op :: op in a + b <==> op in a || op in b;
  }

  lemma AffectedAre(s: Services, n: Name, f: ProxyFilter, c: Client)
    requires Unique(s)
    ensures c in Affected(s, n, f) <==> c.proxy.None? && exists r :: Selects(f, r) && c in Tab(s, n, r)
  {
    var reps := Reps(s, n);
    if c in Affected(s, n, f) {
      var i :| 0 <= i < |reps| && c in reps[i].clients && Selects(f, reps[i].Id());
      TabAt(reps, i);
    }
    if r :| c.proxy.None? && Selects(f, r) && c in Tab(s, n, r) {
      TabNeedsRep(s, n, r);
      var i :| 0 <= i < |reps| && reps[i].Id() == r;
      TabAt(reps, i);
    }
  }

  lemma AffectedAreUpstream(s: Services, change: ServiceChange, n: Name, f: ProxyFilter, affected: seq<Client>, l: Link)
    requires Unique(s) && Covers(affected, Affected(s, n, f)) && Goes(change, n, f)
    ensures Leads(affected, l) <==> UpstreamOf(change, s, l)
  {
    if c :| c in affected && c.name == l.server && c.replica == Some(l.at) {
      AffectedAre(s, n, f, c);
      var r :| Selects(f, r) && c in Tab(s, n, r);
      assert Removes(change, n, r);
    }
    if UpstreamOf(change, s, l) {
      var r, c: Client :| Removes(change, n, r) && c in Tab(s, n, r)
        && c.proxy.None? && c.name == l.server && c.replica == Some(l.at);
      AffectedAre(s, n, f, c);
    }
  }

  /** Teardowns of trigger chains that start on a replica that goes. */
  ghost predicate OwnTriggers(change: ServiceChange, ops: seq<Op>) {
    forall op :: op in ops ==> op.BackendOp? && op.through.None? && Removes(change, op.name, op.at)
  }

  lemma PlanOfPartial(s: Services, change: ServiceChange, n: Name, f: ProxyFilter, partial: seq<Op>, l: Link)
    requires Unique(s) && PartialPlan(s, n, f, partial) && Goes(change, n, f) && l.client.proxy.Some?
    ensures SomeCuts(partial, l) <==> Removes(change, l.server, l.at) || UpstreamOf(change, s, l)
  {
    var affected: seq<Client> :|
      Covers(affected, Affected(s, n, f)) && partial == UpstreamOps(n, affected) + [ChainOp(n, f)];
    UpstreamCuts(n, affected, l);
    AffectedAreUpstream(s, change, n, f, affected, l);
    CutsBoth(UpstreamOps(n, affected), [ChainOp(n, f)], l);
    OneCuts(ChainOp(n, f), l);
  }

  lemma PartialCuts(w: World, before: seq<Op>, change: ServiceChange, n: Name, f: ProxyFilter, ops: seq<Op>, mid: World,
                    l: Link) returns (cut: World)
    requires Unique(w.services) && ThenPartial(w, before, n, f, ops, mid) && l.client.proxy.Some?
    requires OwnTriggers(change, before) && Goes(change, n, f)
    ensures OpsRel(w, before, cut)
    ensures SomeCuts(ops, l) <==> Removes(change, l.server, l.at) || UpstreamOf(change, cut.services, l)
  {
    var partial;
    cut, partial :|
      && OpsRel(w, before, cut) && PartialPlan(cut.services, n, f, partial) && OpsRel(cut, partial, mid)
      && ops == before + partial;
    OpsShrink(w, before, cut);
    PlanOfPartial(cut.services, change, n, f, partial, l);
    CutsBoth(before, partial, l);
  }

  lemma OneCuts(op: Op, l: Link)
    ensures SomeCuts([op], l) <==> Cuts(op, l)
  {
    assert op in [op];
  }

  lemma {:induction false} BackendOpsAre(n: Name, reps: seq<Replica>, through: Option<Name>, op: Op)
    requires op in BackendOps(n, reps, through)
    ensures op.BackendOp? && op.name == n && op.through == through && exists i :: 0 <= i < |reps| && reps[i].Id() == op.at
    decreases |reps|
  {
    var before := reps[..|reps| - 1];
    if op in BackendOps(n, before, through) {
      BackendOpsAre(n, before, through, op);
      var i :| 0 <= i < |before| && before[i].Id() == op.at;
      assert reps[i].Id() == op.at;
    }
  }

  lemma {:induction false} RepsOnAreOn(reps: seq<Replica>, ip: Ip)
    ensures forall i :: 0 <= i < |RepsOn(reps, ip)| ==> RepsOn(reps, ip)[i].ip == ip
  {
    if reps != [] {
      RepsOnAreOn(reps[..|reps| - 1], ip);
    }
  }

  lemma OwnTriggersOn(s: Services, n: Name, ip: Ip)
    ensures OwnTriggers(ReplicasRemoved(n, ip), BackendOps(n, RepsOn(Reps(s, n), ip), None))
  {
    var reps := RepsOn(Reps(s, n), ip);
    RepsOnAreOn(Reps(s, n), ip);
    forall op | op in BackendOps(n, reps, None)
      ensures op.BackendOp? && op.through.None? && Removes(ReplicasRemoved(n, ip), op.name, op.at)
    {
      BackendOpsAre(n, reps, None, op);
    }
  }

  /** What a removal of replicas cuts, if some are left: `cut` is the world without the trigger chains of those that go. */
  lemma RemovalCuts(w: World, change: ServiceChange, ops: seq<Op>, mid: World, l: Link)
    returns (before: seq<Op>, cut: World)
    requires Unique(w.services) && Plan(w, change, ops, mid) && !KeepsReplicas(change)
    requires !RemovesAll(change, w.services) && l.client.proxy.Some?
    ensures OwnTriggers(change, before) && OpsRel(w, before, cut)
    ensures SomeCuts(ops, l) <==> Removes(change, l.server, l.at) || UpstreamOf(change, cut.services, l)
  {
    var n := change.name;
    if change.ReplicasRemoved? {
      before := BackendOps(n, RepsOn(Reps(w.services, n), change.ip), None);
      OwnTriggersOn(w.services, n, change.ip);
      cut := PartialCuts(w, before, change, n, OnIp(change.ip), ops, mid, l);
    } else {
      before := [BackendOp(n, change.at, None)];
      cut := PartialCuts(w, before, change, n, OnReplica(change.at), ops, mid, l);
    }
  }

  /** If the last replicas of a service go, then so do exactly the users on them and those of the services that list it. */
  lemma LastRemovalTakes(w: World, change: ServiceChange, w': World, l: Link)
    requires Unique(w.services) && ProxyOnce(w.services) && ChangeRel(w, change, w') && RemovesAll(change, w.services)
    requires change.ReplicaRemoved? ==> Port(w.services, change.name, change.at).Some?
    requires l.client.proxy.Some? && Entry(w.services, l).Some?
    ensures Entry(w'.services, l) ==
      if Removes(change, l.server, l.at) || Lists(w.services, l.server, change.name) then None else Entry(w.services, l)
  {
    var ops, mid: World :| Plan(w, change, ops, mid) && OpsRel(w, ops, mid)
      && w' == mid.(services := Finish(w.services, mid.services, change));
    OpsCutUsers(w, ops, mid);
    OpsShape(w, ops, mid);
    OpsShrink(w, ops, mid);
    CleanupCutsListing(w.services, change.name, ops, l);
    FinishRemoves(w.services, mid.services, change, l);
  }

  /**
   If some replicas of a service go, then so do exactly the users on them and those of the replicas that are clients of
   them once the trigger chains that start on those that go are down. All other users keep their entries.
   */
  lemma RemovalTakes(w: World, change: ServiceChange, w': World, l: Link) returns (before: seq<Op>, cut: World)
    requires Unique(w.services) && ProxyOnce(w.services) && ChangeRel(w, change, w') && !KeepsReplicas(change)
    requires !RemovesAll(change, w.services)
    requires change.ReplicaRemoved? ==> Port(w.services, change.name, change.at).Some?
    requires l.client.proxy.Some? && Entry(w.services, l).Some?
    ensures OwnTriggers(change, before) && OpsRel(w, before, cut)
    ensures Entry(w'.services, l) ==
      if Removes(change, l.server, l.at) || UpstreamOf(change, cut.services, l) then None else Entry(w.services, l)
  {
    var ops, mid: World :| Plan(w, change, ops, mid) && OpsRel(w, ops, mid)
      && w' == mid.(services := Finish(w.services, mid.services, change));
    OpsCutUsers(w, ops, mid);
    OpsShape(w, ops, mid);
    OpsShrink(w, ops, mid);
    before, cut := RemovalCuts(w, change, ops, mid, l);
    FinishRemoves(w.services, mid.services, change, l);
  }

  lemma FinishRemoves(s0: Services, s: Services, change: ServiceChange, l: Link)
    requires Unique(s) && SameShape(s0, s) && !KeepsReplicas(change)
    requires change.ReplicaRemoved? ==> Port(s0, change.name, change.at).Some?
    ensures Entry(Finish(s0, s, change), l) == if Removes(change, l.server, l.at) then None else Entry(s, l)
  {
    ShapeFacts(s0, s);
    if change.ReplicasRemoved? {
      FinishOnIp(s0, s, change.name, change.ip);
    } else {
      FinishReplica(s0, s, change.name, change.at);
    }
  }

  // ----- the users that a list of changes takes, exactly -----

  ghost predicate SomeConcerns(changes: seq<ServiceChange>, s: Services, l: Link) {
    exists change :: change in changes && Concerns(change, s, l)
  }

  lemma {:induction false} ApplyTakes(w: World, changes: seq<ServiceChange>, w': World, l: Link)
    requires Unique(w.services) && ProxyOnce(w.services) && ApplyRel(w, changes, w') && l.client.proxy.Some?
    requires forall change :: change in changes ==> KeepsReplicas(change)
    ensures Entry(w'.services, l) ==
      if Entry(w.services, l).Some? && SomeConcerns(changes, w.services, l) then None else Entry(w.services, l)
    decreases |changes|
  {
    if changes != [] {
      var before, last := changes[..|changes| - 1], changes[|changes| - 1];
      var mid :| ApplyRel(w, before, mid) && ChangeRel(mid, last, w');
      assert forall change :: change in changes <==> change in before || change == last;
      ApplyTakes(w, before, mid, l);
      ApplyShrinks(w, before, mid);
      ShrunkKeeps(w.services, mid.services);
      ChangeTakes(mid, last, w', l);
      if Entry(mid.services, l).Some? {
        SameListing(w, before, mid, l, last);
      }
    }
  }

  lemma NoReplicaToKnow(s: Services, changes: seq<ServiceChange>)
    requires forall ch :: ch in changes ==> KeepsReplicas(ch)
    ensures Known(s, changes)
  {
    forall i | 0 <= i < |changes| ensures !changes[i].ReplicaRemoved? {
      assert changes[i] in changes;
    }
  }

  lemma SameConfigAfter(w: World, before: seq<ServiceChange>, mid: World, n: Name)
    requires Unique(w.services) && ApplyRel(w, before, mid) && n in mid.services
    requires forall ch :: ch in before ==> KeepsReplicas(ch)
    ensures n in w.services && mid.services[n].config == w.services[n].config
  {
    NoReplicaToKnow(w.services, before);
    ApplyPorts(w, before, mid);
  }

  lemma SameListing(w: World, before: seq<ServiceChange>, mid: World, l: Link, change: ServiceChange)
    requires Unique(w.services) && ApplyRel(w, before, mid) && Entry(mid.services, l).Some?
    requires forall ch :: ch in before ==> KeepsReplicas(ch)
    ensures Concerns(change, mid.services, l) == Concerns(change, w.services, l)
  {
    EntryNeedsRep(mid.services, l);
    SameConfigAfter(w, before, mid, l.server);
  }
}
