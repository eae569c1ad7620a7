/**
 What a critical section of the table leaks: networks that fall out of use and are not released
 (src/services/changes.rs:181-685).
 */
module Leaks {
  import opened Types
  import opened ServiceTable
  import opened Chains
  import opened Teardown
  import opened Changes
  import opened Reconcile
  import opened Settlement
  import opened Strays
  import opened Users
  import opened Interleaving

  // ----- what a critical section of the table leaks -----

  ghost function Sent(w: World, w': World): seq<Down> {
    if |w.downs| <= |w'.downs| then w'.downs[|w.downs|..] else []
  }

  ghost predicate Proceeds(w: World, w': World) {
    && Unique(w.services) && Exclusive(w.services) && Unique(w'.services) && Exclusive(w'.services)
    && Settles(w, w', Sent(w, w'))
  }

  /** Every network that falls out of use is sent down. */
  ghost predicate Leakless(w: World, w': World) {
    NoLeak(w, w', Sent(w, w'))
  }

  lemma SentIs(w: World, w': World, sent: seq<Down>)
    requires w'.downs == w.downs + sent
    ensures Sent(w, w') == sent
  {
  }

  lemma ProceedsBy(w: World, w': World, sent: seq<Down>)
    requires Unique(w.services) && Exclusive(w.services) && Unique(w'.services) && Settles(w, w', sent)
    ensures Proceeds(w, w') && Sent(w, w') == sent
  {
    SentIs(w, w', sent);
    ShrunkKeeps(w.services, w'.services);
  }

  lemma ProceedsOn(w: World, m: World, w': World)
    requires Proceeds(w, m) && Proceeds(m, w')
    ensures Proceeds(w, w') && (Leakless(w, w') <==> Leakless(w, m) && Leakless(m, w'))
  {
    var a, b := Sent(w, m), Sent(m, w');
    SettlesTrans(w, m, w', a, b);
    SentIs(w, w', a + b);
    NoLeakSplits(w, m, w', a, b);
  }

  lemma StandsStill(w: World)
    requires Unique(w.services) && Exclusive(w.services)
    ensures Proceeds(w, w) && Leakless(w, w)
  {
    SameIsShrunk(w.services);
    SettlesIdle(w, w.services);
    ProceedsBy(w, w, []);
  }

  // ----- teardowns -----

  ghost predicate OpKeeps(s: Services, op: Op) {
    op.ChainOp? ==> NoStray(s, op.name, op.filter)
  }

  lemma OpLeaksIff(w: World, op: Op, w': World)
    requires Unique(w.services) && Exclusive(w.services) && OpRel(w, op, w')
    ensures Proceeds(w, w') && (Leakless(w, w') <==> OpKeeps(w.services, op))
  {
    ExclusiveIsShared(w.services);
    OpShape(w, op, w');
    ShapeFacts(w.services, w'.services);
    match op
    case ChainOp(n, f) =>
      var targets :| Collected(w.services, n, f, targets) && Walkable(w.services, targets)
        && w' == TeardownChain(w, n, targets);
      var sent, last := ChainSettles(w, n, f, targets);
      ProceedsBy(w, w', sent);
      ChainLeaksIff(w, n, f, targets, sent);
    case BackendOp(n, at, through) =>
      var edges :| BackendEdges(w.services, n, at, through, edges) && w' == DecrementEdges(w, edges);
      var ports: seq<nat> :| Enumerates(ports, Triggers(w.services, n).Keys)
        && edges == TriggerEdges(w.services, n, at, through, ports);
      TriggersAreService(w.services, n, at, through, ports);
      var sent := DecrementEdgesSettle(w, edges);
      ProceedsBy(w, w', sent);
  }

  /** The teardowns, with nothing straying in any of them. */
  ghost predicate OpsKeep(w: World, ops: seq<Op>, w': World)
    decreases |ops|
  {
    if ops == [] then w' == w
    else
      var before, last := ops[..|ops| - 1], ops[|ops| - 1];
      exists mid :: OpsKeep(w, before, mid) && OpRel(mid, last, w') && OpKeeps(mid.services, last)
  }

  lemma {:induction false} OpsKeepIsLeakless(w: World, ops: seq<Op>, w': World)
    requires Unique(w.services) && Exclusive(w.services) && OpsKeep(w, ops, w')
    ensures OpsRel(w, ops, w') && Proceeds(w, w') && Leakless(w, w')
    decreases |ops|
  {
    if ops == [] {
      StandsStill(w);
    } else {
      var before, last := ops[..|ops| - 1], ops[|ops| - 1];
      var mid :| OpsKeep(w, before, mid) && OpRel(mid, last, w') && OpKeeps(mid.services, last);
      OpsKeepIsLeakless(w, before, mid);
      OpLeaksIff(mid, last, w');
      ProceedsOn(w, mid, w');
    }
  }

  lemma {:induction false} LeaklessOpsKeep(w: World, ops: seq<Op>, w': World)
    requires Unique(w.services) && Exclusive(w.services) && OpsRel(w, ops, w')
    ensures Proceeds(w, w') && (Leakless(w, w') ==> OpsKeep(w, ops, w'))
    decreases |ops|
  {
    if ops == [] {
      StandsStill(w);
    } else {
      var before, last := ops[..|ops| - 1], ops[|ops| - 1];
      var mid := OpsLast(w, ops, w');
      LeaklessOpsKeep(w, before, mid);
      OpLeaksIff(mid, last, w');
      ProceedsOn(w, mid, w');
    }
  }

  // ----- changes -----

  /** The replicas that the end of a change drops; `s0` is the table that the change found. */
  ghost predicate Dropped(s0: Services, change: ServiceChange, n: Name, r: ReplicaId) {
    match change
    case Removed(x) => n == x
    case ReplicasRemoved(m, ip) => n == m && (AllOnIp(s0, m, ip) || r.ip == ip)
    case ReplicaRemoved(m, at) => n == m && (OnlyOne(s0, m) || r == at)
    case _ => false
  }

  /** What is dropped has no network left. */
  ghost predicate DropsNoNetwork(s0: Services, s: Services, change: ServiceChange) {
    forall l :: HasNetwork(s, l) ==> !Dropped(s0, change, l.server, l.at)
  }

  lemma FinishEntries(s0: Services, s: Services, change: ServiceChange, l: Link)
    requires Unique(s)
    ensures Entry(Finish(s0, s, change), l) == if Dropped(s0, change, l.server, l.at) then None else Entry(s, l)
  {
    match change
    case Removed(x) => FinishRemoved(s, x);
    case ReplicasRemoved(n, ip) =>
      UnregisterPorts(s, n);
      KeepPorts(s, n, OffIp(ip));
    case ReplicaRemoved(n, at) =>
      UnregisterPorts(s, n);
      KeepPorts(s, n, OtherThan(at));
    case _ =>
  }

  lemma FinishLeaksIff(s0: Services, w: World, change: ServiceChange)
    requires Unique(w.services) && Exclusive(w.services)
    ensures var w' := w.(services := Finish(s0, w.services, change));
      Proceeds(w, w') && (Leakless(w, w') <==> DropsNoNetwork(s0, w.services, change))
  {
    var s, w' := w.services, w.(services := Finish(s0, w.services, change));
    FinishShrinks(s0, s, change);
    SettlesIdle(w, w'.services);
    ProceedsBy(w, w', []);
    forall l ensures Entry(w'.services, l) == if Dropped(s0, change, l.server, l.at) then None else Entry(s, l) {
      FinishEntries(s0, s, change, l);
    }
    if Leakless(w, w') {
      forall l | HasNetwork(s, l) ensures !Dropped(s0, change, l.server, l.at) {
        StaysWithNetwork(s, w'.services, l);
      }
    }
    if DropsNoNetwork(s0, s, change) {
      forall id | Held(s, id) ensures Held(w'.services, id) {
        var l :| Entry(s, l).Some? && Entry(s, l).value.netId == id;
        assert HasNetwork(s, l);
        assert Entry(w'.services, l).Some?;
      }
    }
  }

  lemma StaysWithNetwork(a: Services, b: Services, l: Link)
    requires Exclusive(a) && HasNetwork(a, l) && forall id :: Held(a, id) ==> Held(b, id)
    requires forall x :: Entry(b, x).Some? ==> Entry(b, x) == Entry(a, x)
    ensures Entry(b, l).Some?
  {
    var id := Entry(a, l).value.netId;
    assert Held(a, id);
    var x :| Entry(b, x).Some? && Entry(b, x).value.netId == id;
    assert SameId(a, x, l);
  }

  /** A change whose teardowns let nothing stray and that drops no network. */
  ghost predicate ChangeKeeps(w: World, change: ServiceChange, w': World) {
    exists ops, mid: World ::
      Plan(w, change, ops, mid) && OpsKeep(w, ops, mid) && DropsNoNetwork(w.services, mid.services, change)
      && w' == mid.(services := Finish(w.services, mid.services, change))
  }

  lemma ChangeKeepsIsLeakless(w: World, change: ServiceChange, w': World)
    requires Unique(w.services) && Exclusive(w.services) && ChangeKeeps(w, change, w')
    ensures ChangeRel(w, change, w') && Proceeds(w, w') && Leakless(w, w')
  {
    var ops, mid: World :|
      Plan(w, change, ops, mid) && OpsKeep(w, ops, mid) && DropsNoNetwork(w.services, mid.services, change)
      && w' == mid.(services := Finish(w.services, mid.services, change));
    OpsKeepIsLeakless(w, ops, mid);
    FinishLeaksIff(w.services, mid, change);
    ProceedsOn(w, mid, w');
  }

  lemma LeaklessChangeKeeps(w: World, change: ServiceChange, w': World)
    requires Unique(w.services) && Exclusive(w.services) && ChangeRel(w, change, w')
    ensures Proceeds(w, w') && (Leakless(w, w') ==> ChangeKeeps(w, change, w'))
  {
    var ops, mid: World :| Plan(w, change, ops, mid) && OpsRel(w, ops, mid)
      && w' == mid.(services := Finish(w.services, mid.services, change));
    LeaklessOpsKeep(w, ops, mid);
    FinishLeaksIff(w.services, mid, change);
    ProceedsOn(w, mid, w');
  }

  ghost predicate ApplyKeeps(w: World, changes: seq<ServiceChange>, w': World)
    decreases |changes|
  {
    if changes == [] then w' == w
    else
      var before, last := changes[..|changes| - 1], changes[|changes| - 1];
      exists mid :: ApplyKeeps(w, before, mid) && ChangeKeeps(mid, last, w')
  }

  lemma {:induction false} ApplyKeepsIsLeakless(w: World, changes: seq<ServiceChange>, w': World)
    requires Unique(w.services) && Exclusive(w.services) && ApplyKeeps(w, changes, w')
    ensures ApplyRel(w, changes, w') && Proceeds(w, w') && Leakless(w, w')
    decreases |changes|
  {
    if changes == [] {
      StandsStill(w);
    } else {
      var before, last := changes[..|changes| - 1], changes[|changes| - 1];
      var mid :| ApplyKeeps(w, before, mid) && ChangeKeeps(mid, last, w');
      ApplyKeepsIsLeakless(w, before, mid);
      ChangeKeepsIsLeakless(mid, last, w');
      ProceedsOn(w, mid, w');
    }
  }

  lemma {:induction false} LeaklessApplyKeeps(w: World, changes: seq<ServiceChange>, w': World)
    requires Unique(w.services) && Exclusive(w.services) && ApplyRel(w, changes, w')
    ensures Proceeds(w, w') && (Leakless(w, w') ==> ApplyKeeps(w, changes, w'))
    decreases |changes|
  {
    if changes == [] {
      StandsStill(w);
    } else {
      var before, last := changes[..|changes| - 1], changes[|changes| - 1];
      var mid :| ApplyRel(w, before, mid) && ChangeRel(mid, last, w');
      LeaklessApplyKeeps(w, before, mid);
      LeaklessChangeKeeps(mid, last, w');
      ProceedsOn(w, mid, w');
    }
  }

  // ----- changes that keep every ID, whatever the table is -----

  ghost predicate AtClients(ops: seq<Op>) {
    forall op :: op in ops && op.ChainOp? ==> LooksAtClient(op.filter)
  }

  lemma {:induction false} BackendsAtClients(n: Name, reps: seq<Replica>, through: Option<Name>)
    ensures AtClients(BackendOps(n, reps, through))
  {
    if reps != [] {
      BackendsAtClients(n, reps[..|reps| - 1], through);
    }
  }

  lemma {:induction false} CleanupAtClients(s: Services, x: Name, order: seq<Name>)
    ensures AtClients(CleanupOps(s, x, order))
    decreases |order|
  {
    if order != [] {
      var n := order[|order| - 1];
      CleanupAtClients(s, x, order[..|order| - 1]);
      BackendsAtClients(n, Reps(s, n), if n == x then None else Some(x));
    }
  }

  lemma {:induction false} ProxyAtClients(order: seq<Name>, ip: Ip)
    ensures AtClients(ProxyOps(order, ip))
    decreases |order|
  {
    if order != [] {
      ProxyAtClients(order[..|order| - 1], ip);
    }
  }

  lemma {:induction false} AtClientsKeep(w: World, ops: seq<Op>, w': World)
    requires Unique(w.services) && OpsRel(w, ops, w') && AtClients(ops)
    ensures OpsKeep(w, ops, w')
    decreases |ops|
  {
    if ops != [] {
      var before, last := ops[..|ops| - 1], ops[|ops| - 1];
      var mid := OpsLast(w, ops, w');
      assert forall op :: op in before ==> op in ops;
      AtClientsKeep(w, before, mid);
      OpsShrink(w, before, mid);
      assert last in ops;
      if last.ChainOp? {
        NothingStrays(mid.services, last.name, last.filter);
      }
    }
  }

  /** Timeouts, proxy disconnects and new settings take users by who they are; they never leave an ID without an owner. */
  lemma SettingsKeep(w: World, change: ServiceChange, w': World)
    requires Unique(w.services) && ChangeRel(w, change, w')
    requires !change.Removed? && !change.ReplicasRemoved? && !change.ReplicaRemoved?
    ensures ChangeKeeps(w, change, w')
  {
    var ops, mid: World :| Plan(w, change, ops, mid) && OpsRel(w, ops, mid)
      && w' == mid.(services := Finish(w.services, mid.services, change));
    assert AtClients(ops) by {
      match change
      case ProxyDepsChanged(x) =>
        var order: seq<Name> :| Enumerates(order, CleanupNames(w.services, x)) && ops == CleanupOps(w.services, x, order);
        CleanupAtClients(w.services, x, order);
      case TriggersChanged(n) => BackendsAtClients(n, Reps(w.services, n), None);
      case ReachabilityChanged(n) => BackendsAtClients(n, Reps(w.services, n), None);
      case ProxyDisconnected(ip) =>
        var order: seq<Name> :| Enumerates(order, NamesOfProxy(w.services, ip)) && ops == ProxyOps(order, ip);
        ProxyAtClients(order, ip);
      case ProxyClientTimedOut(n, c) =>
    }
    AtClientsKeep(w, ops, mid);
  }

  // ----- sections -----

  /** The critical section, with nothing straying in its teardowns and no network dropped by its changes. */
  ghost predicate SectionKeeps(w: World, section: Section, w': World) {
    match section
    case Rollback(edges) => w' == DecrementEdges(w, edges)
    case Apply(changes) => ApplyKeeps(w, changes, w')
    case Reload(changes, loaded) =>
      FromFile(loaded) && exists mid: World ::
        ApplyKeeps(w, changes, mid) && w' == mid.(services := Merge(mid.services, loaded))
    case Register(changes, ip, list) =>
      exists mid: World :: ApplyKeeps(w, changes, mid) && w' == mid.(services := AddListed(mid.services, ip, list))
    case Refresh(n, c, now) => w' == w.(services := SetLatest(w.services, n, c, now))
  }

  lemma SameTablesProceed(m: World, s: Services)
    requires Unique(m.services) && Exclusive(m.services) && Unique(s)
    requires forall n, r :: Tab(s, n, r) == Tab(m.services, n, r)
    ensures Proceeds(m, m.(services := s)) && Leakless(m, m.(services := s))
  {
    SameEntries(m.services, s);
    SettlesIdle(m, s);
    ProceedsBy(m, m.(services := s), []);
  }

  lemma MergeProceeds(m: World, loaded: Services)
    requires Unique(m.services) && Exclusive(m.services) && FromFile(loaded)
    ensures var w' := m.(services := Merge(m.services, loaded)); Proceeds(m, w') && Leakless(m, w')
  {
    MergeReps(m.services, loaded);
    SameTablesProceed(m, Merge(m.services, loaded));
  }

  lemma RegisterProceeds(m: World, ip: Ip, list: seq<Listed>)
    requires Unique(m.services) && Exclusive(m.services)
    ensures var w' := m.(services := AddListed(m.services, ip, list)); Proceeds(m, w') && Leakless(m, w')
  {
    AddListedPorts(m.services, ip, list);
    SameTablesProceed(m, AddListed(m.services, ip, list));
  }

  lemma SectionKeepsIsLeakless(w: World, section: Section, w': World)
    requires Unique(w.services) && Exclusive(w.services) && SectionKeeps(w, section, w')
    requires !section.Refresh?
    ensures SectionRel(w, section, w') && Leakless(w, w')
  {
    match section
    case Rollback(edges) =>
      assert AllPrivate(w.services, edges);
      var sent := RollbackSettles(w, edges);
      SentIs(w, w', sent);
    case Apply(changes) => ApplyKeepsIsLeakless(w, changes, w');
    case Reload(changes, loaded) =>
      var mid: World :| ApplyKeeps(w, changes, mid) && w' == mid.(services := Merge(mid.services, loaded));
      ApplyKeepsIsLeakless(w, changes, mid);
      MergeProceeds(mid, loaded);
      ProceedsOn(w, mid, w');
    case Register(changes, ip, list) =>
      var mid: World :| ApplyKeeps(w, changes, mid) && w' == mid.(services := AddListed(mid.services, ip, list));
      ApplyKeepsIsLeakless(w, changes, mid);
      RegisterProceeds(mid, ip, list);
      ProceedsOn(w, mid, w');
  }

  lemma LeaklessSectionKeeps(w: World, section: Section, w': World)
    requires Unique(w.services) && Exclusive(w.services) && SectionRel(w, section, w') && Leakless(w, w')
    ensures SectionKeeps(w, section, w')
  {
    match section
    case Apply(changes) => LeaklessApplyKeeps(w, changes, w');
    case Reload(changes, loaded) =>
      var mid: World :| ApplyRel(w, changes, mid) && w' == mid.(services := Merge(mid.services, loaded));
      LeaklessApplyKeeps(w, changes, mid);
      MergeProceeds(mid, loaded);
      ProceedsOn(w, mid, w');
    case Register(changes, ip, list) =>
      var mid: World :| ApplyRel(w, changes, mid) && w' == mid.(services := AddListed(mid.services, ip, list));
      LeaklessApplyKeeps(w, changes, mid);
      RegisterProceeds(mid, ip, list);
      ProceedsOn(w, mid, w');
    case _ =>
  }

  // ----- the network of an entry -----

  /** The network that the entry at `l` uses; 0 if there is no entry, or a reserved slot only. */
  function NetAt(s: Services, l: Link): nat {
    if Entry(s, l).Some? then Entry(s, l).value.netId else 0
  }

  lemma HeldIsNetAt(s: Services, id: nat)
    ensures Held(s, id) <==> id != 0 && exists l :: NetAt(s, l) == id
  {
    if id != 0 && exists l :: NetAt(s, l) == id {
      var l :| NetAt(s, l) == id;
      assert Entry(s, l).Some?;
    }
    if Held(s, id) {
      var l :| Entry(s, l).Some? && Entry(s, l).value.netId == id;
      assert NetAt(s, l) == id;
    }
  }

  lemma SameNetsHeld(a: Services, b: Services)
    requires forall l :: NetAt(a, l) == NetAt(b, l)
    ensures forall id :: Held(a, id) <==> Held(b, id)
  {
    forall id ensures Held(a, id) <==> Held(b, id) {
      HeldIsNetAt(a, id);
      HeldIsNetAt(b, id);
    }
  }

  lemma RefreshIsLeakless(w: World, n: Name, c: Client, now: nat)
    requires Unique(w.services)
    ensures Leakless(w, w.(services := SetLatest(w.services, n, c, now)))
  {
    var s, b := w.services, SetLatest(w.services, n, c, now);
    SetLatestSpec(s, n, c, now);
    if Holder(s, n, c).Some? {
      var l := Link(c, n, Holder(s, n, c).value);
      PutEntries(s, b, l, Some(Tab(s, n, l.at)[c].(latest := now)));
      assert Entry(s, l).Some?;
      SameNetsHeld(s, b);
    }
  }
}
