/** In the flow regime every change keeps the flow invariant and releases exactly the networks that fall out of use. */
module FlowChanges {
  import opened Types
  import opened ServiceTable
  import opened Chains
  import opened Teardown
  import opened Changes
  import opened Reconcile
  import opened Settlement
  import opened Users
  import opened Flow
  import opened FlowOperations
  import opened Cascade
  import opened Interleaving

  // ----- replicas that go have nothing left -----

  lemma ServedByOne(s: Services, l: Link)
    requires Regime(s) && Linked(s) && Entry(s, l).Some? && l.client.proxy.None?
    ensures |Reps(s, l.server)| <= 1
  {
    assert LinkOk(s, l, Entry(s, l).value);
    if IsOut(s, l) {
      assert l.server in Deps(s, l.client.name);
    } else {
      TriggeredIsNoDep(s, l.client.name, l.server);
    }
  }

  /** A service with two replicas is nobody's dependency and starts no trigger chain: all its entries are users. */
  lemma ManyReplicasServeUsers(s: Services, n: Name, l: Link)
    requires Regime(s) && Linked(s) && |Reps(s, n)| >= 2 && l.server == n && Entry(s, l).Some?
    ensures l.client.proxy.Some?
  {
    if l.client.proxy.None? {
      ServedByOne(s, l);
    }
  }

  lemma SelectedAreEmpty(w: World, n: Name, f: ProxyFilter, ops: seq<Op>, mid: World, r: ReplicaId)
    requires FlowInvariant(w.services) && OpsRel(w, ops, mid) && ChainOp(n, f) in ops
    requires (f.OnIp? || f.OnReplica?) && Selects(f, r) && |Reps(w.services, n)| >= 2
    ensures Tab(mid.services, n, r) == map[]
  {
    OpsKeepFlow(w, ops, mid);
    OpsShrink(w, ops, mid);
    forall c ensures c !in Tab(mid.services, n, r) {
      var l := Link(c, n, r);
      if Entry(mid.services, l).Some? {
        assert Entry(w.services, l).Some?;
        ManyReplicasServeUsers(w.services, n, l);
        assert Cuts(ChainOp(n, f), l);
        assert false;
      }
    }
  }

  lemma PartialEnds(w: World, before: seq<Op>, n: Name, f: ProxyFilter, ops: seq<Op>, mid: World)
    requires ThenPartial(w, before, n, f, ops, mid)
    ensures ChainOp(n, f) in ops
  {
    var cut: World, partial :|
      && OpsRel(w, before, cut) && PartialPlan(cut.services, n, f, partial) && OpsRel(cut, partial, mid)
      && ops == before + partial;
    var affected: seq<Client> :| partial == UpstreamOps(n, affected) + [ChainOp(n, f)];
    assert partial[|partial| - 1] == ChainOp(n, f);
  }

  lemma OnIpAreEmpty(w: World, n: Name, ip: Ip, ops: seq<Op>, mid: World, r: ReplicaId)
    requires FlowInvariant(w.services) && Plan(w, ReplicasRemoved(n, ip), ops, mid) && OpsRel(w, ops, mid)
    requires !AllOnIp(w.services, n, ip) && r.ip == ip
    ensures Tab(mid.services, n, r) == map[]
  {
    var s := w.services;
    OpsShape(w, ops, mid);
    ShapeFacts(s, mid.services);
    TabNeedsRep(mid.services, n, r);
    if HasRep(s, n, r) {
      var i :| 0 <= i < |Reps(s, n)| && Reps(s, n)[i].ip != ip;
      var j :| 0 <= j < |Reps(s, n)| && Reps(s, n)[j].Id() == r;
      PartialEnds(w, BackendOps(n, RepsOn(Reps(s, n), ip), None), n, OnIp(ip), ops, mid);
      SelectedAreEmpty(w, n, OnIp(ip), ops, mid, r);
    }
  }

  lemma OneReplicaIsEmpty(w: World, n: Name, at: ReplicaId, ops: seq<Op>, mid: World)
    requires FlowInvariant(w.services) && Plan(w, ReplicaRemoved(n, at), ops, mid) && OpsRel(w, ops, mid)
    requires !OnlyOne(w.services, n)
    ensures Tab(mid.services, n, at) == map[]
  {
    var s := w.services;
    OpsShape(w, ops, mid);
    ShapeFacts(s, mid.services);
    TabNeedsRep(mid.services, n, at);
    if HasRep(s, n, at) {
      PartialEnds(w, [BackendOp(n, at, None)], n, OnReplica(at), ops, mid);
      SelectedAreEmpty(w, n, OnReplica(at), ops, mid, at);
    }
  }

  lemma UnusedService(w: World, x: Name, ops: seq<Op>, mid: World)
    requires FlowInvariant(w.services) && CleanupPlan(w.services, x, ops) && OpsRel(w, ops, mid)
    ensures Trimmed(mid.services, Unregister(mid.services, x))
    ensures Trimmed(mid.services, Unregister(mid.services, x) - {x})
  {
    CleanupLeavesNoRoots(w, x, ops, mid);
    NothingThrough(mid.services, x);
    forall r ensures Tab(mid.services, x, r) == map[] {
      assert Involves(mid.services, x, x);
    }
    TrimmedOps(mid.services, x);
  }

  /** A backend teardown of a replica, through whatever service, takes all its trigger chains. */
  lemma BackendTakesAll(w: World, ops: seq<Op>, mid: World, n: Name, r: ReplicaId, l: Link)
    requires FlowInvariant(w.services) && OpsRel(w, ops, mid) && BackendOp(n, r, None) in ops
    requires l.client == ServiceClient(n, r) && !IsOut(w.services, l)
    ensures Entry(mid.services, l).None?
  {
    OpsKeepFlow(w, ops, mid);
    if Entry(w.services, l).Some? {
      var q, p := TriggeredSource(w.services, l);
      TakesIs(w.services, l, n, q, p, r, n, None);
      assert CutsTrigger(w.services, BackendOp(n, r, None), l);
    }
  }

  lemma {:induction false} RepsOnHave(reps: seq<Replica>, ip: Ip, i: nat)
    requires i < |reps| && reps[i].ip == ip
    ensures exists j :: 0 <= j < |RepsOn(reps, ip)| && RepsOn(reps, ip)[j].Id() == reps[i].Id()
  {
    var before, rest := reps[..|reps| - 1], RepsOn(reps[..|reps| - 1], ip);
    if i == |reps| - 1 {
      assert RepsOn(reps, ip)[|rest|].Id() == reps[i].Id();
    } else {
      RepsOnHave(before, ip, i);
      var j :| 0 <= j < |rest| && rest[j].Id() == before[i].Id();
      assert RepsOn(reps, ip)[j] == rest[j];
    }
  }

  /** The teardowns of a removal begin with the backend teardowns of the replicas that go. */
  lemma PartialBegins(w: World, change: ServiceChange, ops: seq<Op>, mid: World, r: ReplicaId)
    requires (change.ReplicasRemoved? && !AllOnIp(w.services, change.name, change.ip) && r.ip == change.ip)
      || (change.ReplicaRemoved? && !OnlyOne(w.services, change.name) && r == change.at)
    requires Plan(w, change, ops, mid) && HasRep(w.services, change.name, r)
    ensures BackendOp(change.name, r, None) in ops
  {
    var n, reps := change.name, Reps(w.services, change.name);
    if change.ReplicasRemoved? {
      var on := RepsOn(reps, change.ip);
      var i :| 0 <= i < |reps| && reps[i].Id() == r;
      RepsOnHave(reps, change.ip, i);
      BackendOpsHave(n, on, None, BackendOp(n, r, None));
    } else {
      assert ops[0] == BackendOp(n, r, None);
    }
  }

  lemma NoTriggersAtGone(w: World, change: ServiceChange, ops: seq<Op>, mid: World, keep: ReplicaId -> bool)
    requires FlowInvariant(w.services) && Plan(w, change, ops, mid) && OpsRel(w, ops, mid)
    requires (change.ReplicasRemoved? && !AllOnIp(w.services, change.name, change.ip) && keep == OffIp(change.ip))
      || (change.ReplicaRemoved? && !OnlyOne(w.services, change.name) && keep == OtherThan(change.at))
    ensures NoTriggersAt(mid.services, change.name, keep)
  {
    var n := change.name;
    OpsKeepFlow(w, ops, mid);
    OpsShape(w, ops, mid);
    SameEdgeKinds(w.services, mid.services);
    ShapeFacts(w.services, mid.services);
    forall l: Link, r | l.client == ServiceClient(n, r) && !keep(r) && !IsOut(mid.services, l)
      ensures Entry(mid.services, l).None?
    {
      if Entry(mid.services, l).Some? {
        assert LinkOk(mid.services, l, Entry(mid.services, l).value);
        PartialBegins(w, change, ops, mid, r);
        BackendTakesAll(w, ops, mid, n, r, l);
      }
    }
  }

  /** What a change drops besides its teardowns is unused by then. */
  lemma FinishTrims(w: World, change: ServiceChange, ops: seq<Op>, mid: World)
    requires FlowInvariant(w.services) && Plan(w, change, ops, mid) && OpsRel(w, ops, mid)
    ensures Trimmed(mid.services, Finish(w.services, mid.services, change))
  {
    OpsKeepFlow(w, ops, mid);
    match change
    case Removed(x) => UnusedService(w, x, ops, mid);
    case ReplicasRemoved(n, ip) =>
      if AllOnIp(w.services, n, ip) {
        UnusedService(w, n, ops, mid);
      } else {
        forall r | !OffIp(ip)(r) ensures Tab(mid.services, n, r) == map[] {
          OnIpAreEmpty(w, n, ip, ops, mid, r);
        }
        NoTriggersAtGone(w, change, ops, mid, OffIp(ip));
        TrimmedDrop(mid.services, n, OffIp(ip));
      }
    case ReplicaRemoved(n, at) =>
      if OnlyOne(w.services, n) {
        UnusedService(w, n, ops, mid);
      } else {
        OneReplicaIsEmpty(w, n, at, ops, mid);
        NoTriggersAtGone(w, change, ops, mid, OtherThan(at));
        TrimmedDrop(mid.services, n, OtherThan(at));
      }
    case _ => NothingTrimmed(mid.services);
  }

  lemma NothingTrimmed(s: Services)
    requires FlowInvariant(s)
    ensures Trimmed(s, s)
  {
    forall l: Link | Entry(s, l).Some? && l.client.proxy.None? && !IsOut(s, l)
      ensures l.client.replica.Some? && HasRep(s, l.client.name, l.client.replica.value)
    {
      assert LinkOk(s, l, Entry(s, l).value);
    }
  }

  // ----- changes -----

  /** The flow invariant, with networks shared only between users of one proxy on one replica. */
  ghost predicate Sound(s: Services) {
    FlowInvariant(s) && ProperlyShared(s)
  }

  lemma SameTables(w: World, s: Services)
    requires forall n, r :: Tab(s, n, r) == Tab(w.services, n, r)
    ensures Settles(w, w.(services := s), []) && NoLeak(w, w.(services := s), [])
    ensures ProperlyShared(w.services) ==> ProperlyShared(s)
  {
    SameEntries(w.services, s);
    SettlesIdle(w, s);
  }

  lemma ChangeKeepsFlow(w: World, change: ServiceChange, w': World) returns (sent: seq<Down>)
    requires Sound(w.services) && ChangeRel(w, change, w')
    ensures Sound(w'.services) && Settles(w, w', sent) && NoLeak(w, w', sent)
  {
    var ops, mid: World :| Plan(w, change, ops, mid) && OpsRel(w, ops, mid)
      && w' == mid.(services := Finish(w.services, mid.services, change));
    sent := OpsSettle(w, ops, mid);
    OpsKeepFlow(w, ops, mid);
    ShrunkKeeps(w.services, mid.services);
    FinishTrims(w, change, ops, mid);
    TrimmedKeepsFlow(mid.services, w'.services);
    SameTables(mid, w'.services);
    SettlesTrans(w, mid, w', sent, []);
    assert sent + [] == sent;
  }

  lemma {:induction false} ApplyKeepsFlow(w: World, changes: seq<ServiceChange>, w': World) returns (sent: seq<Down>)
    requires Sound(w.services) && ApplyRel(w, changes, w')
    ensures Sound(w'.services) && Settles(w, w', sent) && NoLeak(w, w', sent)
    decreases |changes|
  {
    if changes == [] {
      sent := [];
      SameTables(w, w.services);
    } else {
      var before, last := changes[..|changes| - 1], changes[|changes| - 1];
      var mid :| ApplyRel(w, before, mid) && ChangeRel(mid, last, w');
      var a := ApplyKeepsFlow(w, before, mid);
      var b := ChangeKeepsFlow(mid, last, w');
      SettlesTrans(w, mid, w', a, b);
      sent := a + b;
    }
  }

  // ----- registrations and new configurations -----

  /** The service has no clients and its replicas are nobody's clients. */
  ghost predicate Unused(s: Services, n: Name) {
    && (forall r :: Tab(s, n, r) == map[])
    && forall l: Link :: l.client.proxy.None? && l.client.name == n ==> Entry(s, l).None?
  }

  /**
   Same entries, possibly more replicas; only unused services may have other dependencies, and only services at which
   no trigger chain starts other triggers.
   */
  ghost predicate Widened(a: Services, b: Services) {
    && (forall n, r :: Tab(b, n, r) == Tab(a, n, r))
    && (forall n, r :: HasRep(a, n, r) ==> HasRep(b, n, r))
    && (forall n :: Deps(b, n) == Deps(a, n) || Unused(a, n))
    && (forall n :: Triggers(b, n) == Triggers(a, n) || NoTriggersFrom(a, n))
  }

  lemma WidenedLinked(a: Services, b: Services)
    requires FlowInvariant(a) && Widened(a, b)
    ensures Linked(b) && ProxyOnce(b)
  {
    forall l | Entry(b, l).Some? ensures LinkOk(b, l, Entry(b, l).value) {
      assert Entry(a, l) == Entry(b, l);
      assert LinkOk(a, l, Entry(a, l).value);
      if l.client.proxy.None? {
        WidenedEdge(a, b, l);
      }
    }
  }

  lemma WidenedEdge(a: Services, b: Services, l: Link)
    requires Widened(a, b) && Entry(a, l).Some? && l.client.proxy.None?
    ensures IsOut(b, l) == IsOut(a, l)
    ensures !IsOut(a, l) && TriggersTo(a, l.client.name, l.server) ==> TriggersTo(b, l.client.name, l.server)
  {
    var n := l.client.name;
    assert Deps(b, n) == Deps(a, n);
    if !IsOut(a, l) && TriggersTo(a, n, l.server) {
      assert Triggers(b, n) == Triggers(a, n);
      SameTriggers(a, b, n, l.server);
    }
  }

  lemma SameSoleLoad(a: Services, b: Services, d: Name, c: Client)
    requires Widened(a, b) && |Reps(a, d)| <= 1 && |Reps(b, d)| <= 1
    ensures Load(b, Link(c, d, Sole(b, d))) == Load(a, Link(c, d, Sole(a, d)))
  {
    if Reps(a, d) == [] {
      TabNeedsRep(a, d, Sole(a, d));
      TabNeedsRep(a, d, Sole(b, d));
    } else {
      assert Reps(a, d)[0].Id() == Sole(a, d);
      assert HasRep(a, d, Sole(a, d));
      SoleOf(b, d, Sole(a, d));
    }
  }

  lemma NothingInside(s: Services, n: Name, r: ReplicaId)
    requires Tab(s, n, r) == map[]
    ensures Inflow(s, n, r, {}) == 0
  {
    assert Tab(s, n, r) - (set c | c in Tab(s, n, r) && Link(c, n, r) in {}) == map[];
  }

  lemma SourceExists(s: Services, l: Link)
    requires Linked(s) && Entry(s, l).Some? && l.client.proxy.None?
    ensures l.client.replica.Some? && HasRep(s, l.client.name, l.client.replica.value)
  {
    assert LinkOk(s, l, Entry(s, l).value);
  }

  lemma NoSourceNoEntry(s: Services, n: Name, r: ReplicaId, l: Link)
    requires Linked(s) && l.client == ServiceClient(n, r) && (Unused(s, n) || !HasRep(s, n, r))
    ensures Entry(s, l).None?
  {
    if !Unused(s, n) && Entry(s, l).Some? {
      SourceExists(s, l);
    }
  }

  lemma WidenedBalance(a: Services, b: Services, n: Name, r: ReplicaId)
    requires FlowInvariant(a) && Regime(b) && Widened(a, b) && HasRep(b, n, r) && Deps(b, n) != []
    ensures Load(b, OutLink(b, n, r)) == Inflow(b, n, r, {})
  {
    var d, out := Deps(b, n)[0], OutLink(b, n, r);
    if Deps(b, n) == Deps(a, n) && HasRep(a, n, r) {
      assert d in Deps(a, n) && d in Deps(b, n);
      SameSoleLoad(a, b, d, ServiceClient(n, r));
      assert Inflow(b, n, r, {}) == Inflow(a, n, r, {});
    } else {
      TabNeedsRep(a, n, r);
      NothingInside(b, n, r);
      NoSourceNoEntry(a, n, r, out);
      assert Entry(b, out) == Entry(a, out);
    }
  }

  lemma WidenedKeepsFlow(a: Services, b: Services)
    requires FlowInvariant(a) && Regime(b) && Widened(a, b)
    ensures FlowInvariant(b)
  {
    WidenedLinked(a, b);
    forall n, r | HasRep(b, n, r) && Deps(b, n) != [] ensures Load(b, OutLink(b, n, r)) == Inflow(b, n, r, {}) {
      WidenedBalance(a, b, n, r);
    }
  }

  /** What the configuration and the hosts must provide, at every moment, for the flow invariant to be kept. */
  ghost predicate InRegime(s: Services) {
    Coherent(s) && Sticky(s) && TriggersApart(s)
  }

  lemma ServicesListKeepsFlow(w: World, ip: Ip, list: seq<Listed>, w': World) returns (sent: seq<Down>)
    requires Sound(w.services) && ServicesListRel(w, ip, list, w') && InRegime(w'.services)
    ensures Sound(w'.services) && Settles(w, w', sent) && NoLeak(w, w', sent)
  {
    var changes: seq<ServiceChange>, mid: World :|
      Enumerates(changes, NoLongerListed(w.services, ip, list)) && ApplyRel(w, changes, mid)
      && w' == mid.(services := AddListed(mid.services, ip, list));
    sent := ApplyKeepsFlow(w, changes, mid);
    AddListedPorts(mid.services, ip, list);
    forall n, r | HasRep(mid.services, n, r) ensures HasRep(w'.services, n, r) {
      HasRepByPort(mid.services, n, r);
      HasRepByPort(w'.services, n, r);
    }
    WidenedKeepsFlow(mid.services, w'.services);
    SameTables(mid, w'.services);
    SettlesTrans(w, mid, w', sent, []);
    assert sent + [] == sent;
  }

  // ----- trigger chains that a list of changes is sure to take -----

  /** Trigger chains that a change is sure to take down. */
  predicate TriggerHits(change: ServiceChange, s: Services, l: Link) {
    match change
    case Removed(x) => l.client.name == x || Involves(s, l.server, x)
    case ProxyDepsChanged(x) => l.client.name == x || Involves(s, l.server, x)
    case TriggersChanged(n) => l.client.name == n
    case ReachabilityChanged(n) => l.client.name == n
    case _ => false
  }

  /** An edge that trigger chains start with. */
  predicate Starts(s: Services, l: Link) {
    l.client.proxy.None? && !IsOut(s, l)
  }

  lemma PlanTakesTriggers(w: World, change: ServiceChange, ops: seq<Op>, mid: World, l: Link)
    requires FlowInvariant(w.services) && Plan(w, change, ops, mid) && Entry(w.services, l).Some?
    requires Starts(w.services, l) && TriggerHits(change, w.services, l)
    ensures SomeCutsTrigger(w.services, ops, l)
  {
    if change.Removed? || change.ProxyDepsChanged? {
      CleanupCutsTriggers(w.services, change.name, ops, l);
    } else {
      var n := change.name;
      var q, p := TriggeredSource(w.services, l);
      BackendOpsHave(n, Reps(w.services, n), None, BackendOp(n, q, None));
      TakesIs(w.services, l, n, q, p, q, n, None);
      assert BackendOp(n, q, None) in ops && CutsTrigger(w.services, BackendOp(n, q, None), l);
    }
  }

  lemma ChangeTriggers(w: World, change: ServiceChange, w': World, l: Link)
    requires FlowInvariant(w.services) && ChangeRel(w, change, w')
    requires Starts(w.services, l) && Entry(w'.services, l).Some?
    ensures Entry(w.services, l).Some? && !TriggerHits(change, w.services, l)
  {
    var ops, mid: World :| Plan(w, change, ops, mid) && OpsRel(w, ops, mid)
      && w' == mid.(services := Finish(w.services, mid.services, change));
    OpsKeepFlow(w, ops, mid);
    FinishKeepsEntries(w.services, mid.services, change, l);
    if TriggerHits(change, w.services, l) {
      PlanTakesTriggers(w, change, ops, mid, l);
      assert false;
    }
  }

  lemma SameStarts(a: Services, m: Services, l: Link)
    requires Linked(m) && Entry(m, l).Some? && l.client.proxy.None?
    requires forall n :: n in m ==> Deps(m, n) == Deps(a, n)
    ensures Starts(m, l) == Starts(a, l)
    ensures forall change :: TriggerHits(change, m, l) == TriggerHits(change, a, l)
  {
    SourceExists(m, l);
    EntryNeedsRep(m, l);
    assert l.client.name in m && l.server in m;
  }

  /** After any list of changes no trigger chain is left that one of them hits. */
  lemma {:induction false} ApplyTriggers(w: World, changes: seq<ServiceChange>, w': World, l: Link)
    requires Sound(w.services) && ApplyRel(w, changes, w') && Known(w.services, changes)
    requires Starts(w.services, l) && Entry(w'.services, l).Some?
    ensures Entry(w.services, l).Some? && forall change :: change in changes ==> !TriggerHits(change, w.services, l)
    decreases |changes|
  {
    if changes != [] {
      var before, last := changes[..|changes| - 1], changes[|changes| - 1];
      assert changes == before + [last];
      var mid :| ApplyRel(w, before, mid) && ChangeRel(mid, last, w');
      KnownPrefix(w.services, before, last);
      LastTriggers(w, before, last, mid, w', l);
      ApplyTriggers(w, before, mid, l);
    }
  }

  lemma LastTriggers(w: World, before: seq<ServiceChange>, last: ServiceChange, mid: World, w': World, l: Link)
    requires Sound(w.services) && ApplyRel(w, before, mid) && ChangeRel(mid, last, w') && Known(w.services, before)
    requires Starts(w.services, l) && Entry(w'.services, l).Some?
    ensures Entry(mid.services, l).Some? && !TriggerHits(last, w.services, l)
  {
    var a := ApplyKeepsFlow(w, before, mid);
    var b := ChangeKeepsFlow(mid, last, w');
    assert Entry(mid.services, l).Some?;
    ApplyPorts(w, before, mid);
    SameStarts(w.services, mid.services, l);
    ChangeTriggers(mid, last, w', l);
  }

  /** A service with a change that a reload finds has no trigger chains of the kind that the change takes. */
  lemma ReloadHits(w: World, loaded: Services, now: nat, changes: seq<ServiceChange>, mid: World, change: ServiceChange,
                   l: Link)
    requires Sound(w.services) && FlowInvariant(mid.services)
    requires ConfigDetected(w.services, loaded, now, changes) && ApplyRel(w, changes, mid)
    requires IsConfigChange(w.services, loaded, now, change)
    requires Starts(mid.services, l) && TriggerHits(change, mid.services, l)
    ensures Entry(mid.services, l).None?
  {
    ReloadDetects(w.services, loaded, now, changes);
    ApplyPorts(w, changes, mid);
    assert change in changes;
    if Entry(mid.services, l).Some? {
      SameStarts(w.services, mid.services, l);
      ApplyTriggers(w, changes, mid, l);
      assert false;
    }
  }

  lemma ReconfiguredAreUnused(w: World, loaded: Services, now: nat, changes: seq<ServiceChange>, mid: World, n: Name)
    requires Sound(w.services) && FlowInvariant(mid.services)
    requires ConfigDetected(w.services, loaded, now, changes) && ApplyRel(w, changes, mid)
    requires n in mid.services && n in loaded && Deps(mid.services, n) != Deps(loaded, n)
    ensures Unused(mid.services, n)
  {
    ReloadDetects(w.services, loaded, now, changes);
    ApplyPorts(w, changes, mid);
    assert IsConfigChange(w.services, loaded, now, ProxyDepsChanged(n));
    forall l: Link | l.client.proxy.Some? && Involves(mid.services, l.server, n) ensures Entry(mid.services, l).None? {
      if Entry(mid.services, l).Some? {
        ApplyUsers(w, changes, mid, l);
        EntryNeedsRep(mid.services, l);
        assert Hits(ProxyDepsChanged(n), w.services, l);
        assert false;
      }
    }
    forall l: Link | Starts(mid.services, l) && TriggerHits(ProxyDepsChanged(n), mid.services, l)
      ensures Entry(mid.services, l).None?
    {
      ReloadHits(w, loaded, now, changes, mid, ProxyDepsChanged(n), l);
    }
    NothingThrough(mid.services, n);
    assert Involves(mid.services, n, n);
  }

  lemma RetriggeredAreQuiet(w: World, loaded: Services, now: nat, changes: seq<ServiceChange>, mid: World, n: Name)
    requires Sound(w.services) && FlowInvariant(mid.services)
    requires ConfigDetected(w.services, loaded, now, changes) && ApplyRel(w, changes, mid)
    requires n in mid.services && n in loaded && Triggers(mid.services, n) != Triggers(loaded, n)
    ensures NoTriggersFrom(mid.services, n)
  {
    ReloadDetects(w.services, loaded, now, changes);
    ApplyPorts(w, changes, mid);
    assert IsConfigChange(w.services, loaded, now, TriggersChanged(n));
    forall l: Link | Starts(mid.services, l) && l.client.name == n ensures Entry(mid.services, l).None? {
      ReloadHits(w, loaded, now, changes, mid, TriggersChanged(n), l);
    }
  }

  lemma UnconfiguredIsUnused(s: Services, n: Name)
    requires Linked(s) && n !in s
    ensures Unused(s, n)
  {
    forall r ensures Tab(s, n, r) == map[] {
      TabNeedsRep(s, n, r);
    }
    forall l: Link | l.client.proxy.None? && l.client.name == n ensures Entry(s, l).None? {
      if Entry(s, l).Some? {
        SourceExists(s, l);
      }
    }
  }

  lemma ReloadWidens(w: World, loaded: Services, now: nat, changes: seq<ServiceChange>, mid: World)
    requires Sound(w.services) && FlowInvariant(mid.services) && FromFile(loaded)
    requires ConfigDetected(w.services, loaded, now, changes) && ApplyRel(w, changes, mid)
    ensures Widened(mid.services, Merge(mid.services, loaded)) && Unique(Merge(mid.services, loaded))
  {
    ReloadDetects(w.services, loaded, now, changes);
    ApplyPorts(w, changes, mid);
    var b := Merge(mid.services, loaded);
    MergePorts(mid.services, loaded);
    MergeReps(mid.services, loaded);
    forall n
      ensures Deps(b, n) == Deps(mid.services, n) || Unused(mid.services, n)
      ensures Triggers(b, n) == Triggers(mid.services, n) || NoTriggersFrom(mid.services, n)
    {
      ReconfiguredIsIdle(w, loaded, now, changes, mid, n);
    }
  }

  lemma ReconfiguredIsIdle(w: World, loaded: Services, now: nat, changes: seq<ServiceChange>, mid: World, n: Name)
    requires Sound(w.services) && FlowInvariant(mid.services)
    requires ConfigDetected(w.services, loaded, now, changes) && ApplyRel(w, changes, mid)
    requires mid.services.Keys <= loaded.Keys
    ensures Deps(loaded, n) == Deps(mid.services, n) || Unused(mid.services, n)
    ensures Triggers(loaded, n) == Triggers(mid.services, n) || NoTriggersFrom(mid.services, n)
  {
    if n !in mid.services {
      UnconfiguredIsUnused(mid.services, n);
    } else {
      if Deps(mid.services, n) != Deps(loaded, n) {
        ReconfiguredAreUnused(w, loaded, now, changes, mid, n);
      }
      if Triggers(mid.services, n) != Triggers(loaded, n) {
        RetriggeredAreQuiet(w, loaded, now, changes, mid, n);
      }
    }
  }

  lemma ReloadKeepsFlow(w: World, loaded: Services, now: nat, w': World) returns (sent: seq<Down>)
    requires Sound(w.services) && FromFile(loaded) && ReloadRel(w, loaded, now, w') && InRegime(w'.services)
    ensures Sound(w'.services) && Settles(w, w', sent) && NoLeak(w, w', sent)
  {
    var changes, mid: World :| ConfigDetected(w.services, loaded, now, changes) && ApplyRel(w, changes, mid)
      && w' == mid.(services := Merge(mid.services, loaded));
    sent := ApplyKeepsFlow(w, changes, mid);
    ReloadWidens(w, loaded, now, changes, mid);
    SameTables(mid, w'.services);
    WidenedKeepsFlow(mid.services, w'.services);
    SettlesTrans(w, mid, w', sent, []);
    assert sent + [] == sent;
  }

  lemma DisconnectKeepsFlow(w: World, ip: Ip, w': World) returns (sent: seq<Down>)
    requires Sound(w.services) && DisconnectRel(w, ip, w')
    ensures Sound(w'.services) && Settles(w, w', sent) && NoLeak(w, w', sent)
    ensures forall l: Link, q: ReplicaId :: l.client.replica == Some(q) && q.ip == ip && l.client.proxy.None? ==>
      Entry(w'.services, l).None?
  {
    var changes :| DisconnectDetected(w.services, ip, changes) && ApplyRel(w, changes, w');
    sent := ApplyKeepsFlow(w, changes, w');
    DisconnectRemovesReplicas(w, ip, w');
    forall l: Link, q: ReplicaId | l.client.replica == Some(q) && q.ip == ip && l.client.proxy.None?
      ensures Entry(w'.services, l).None?
    {
      if Entry(w'.services, l).Some? {
        SourceExists(w'.services, l);
        HasRepByPort(w'.services, l.client.name, q);
      }
    }
  }

  lemma TimeoutsKeepFlow(w: World, now: nat, w': World) returns (sent: seq<Down>)
    requires Sound(w.services) && TimeoutsRel(w, now, w')
    ensures Sound(w'.services) && Settles(w, w', sent) && NoLeak(w, w', sent)
  {
    var changes :| TimeoutsDetected(w.services, now, changes) && ApplyRel(w, changes, w');
    sent := ApplyKeepsFlow(w, changes, w');
  }
}
