/**
 On how many replicas of a service a client is, in every interleaving (src/nullnet_grpc_impl.rs:544-651). Every step but
 two kinds keeps each client on one replica; the other two are the start of a service edge and the commit of any edge.
 */
module Placement {
  import opened Types
  import NetIdPool
  import opened ServiceTable
  import opened Chains
  import opened Teardown
  import opened Changes
  import opened Reconcile
  import opened Settlement
  import opened Setup
  import opened Users
  import opened Success
  import opened Stickiness
  import opened Interleaving

  /** Every client, a user or not, is on at most one replica of a service. */
  ghost predicate ClientsOnce(s: Services) {
    forall n, c :: OnOneReplica(s, n, c)
  }

  lemma FewerEntriesOnce(a: Services, b: Services)
    requires ClientsOnce(a) && forall l :: Entry(b, l).Some? ==> Entry(a, l).Some?
    ensures ClientsOnce(b)
  {
    forall n, c, r, q | c in Tab(b, n, r) && c in Tab(b, n, q) ensures r == q {
      assert Entry(b, Link(c, n, r)).Some? && Entry(b, Link(c, n, q)).Some?;
      assert OnOneReplica(a, n, c);
    }
  }

  // ----- sections -----

  lemma SetLatestKeepsEntries(s: Services, n: Name, c: Client, now: nat)
    requires Unique(s)
    ensures forall l :: Entry(SetLatest(s, n, c, now), l).Some? ==> Entry(s, l).Some?
  {
    SetLatestSpec(s, n, c, now);
    if Holder(s, n, c).Some? {
      var r := Holder(s, n, c).value;
      PutEntries(s, SetLatest(s, n, c, now), Link(c, n, r), Some(Tab(s, n, r)[c].(latest := now)));
    }
  }

  /** A critical section of the table brings no entry. */
  lemma SectionBringsNone(w: World, section: Section, w': World)
    requires Unique(w.services) && SectionRel(w, section, w')
    ensures forall l :: Entry(w'.services, l).Some? ==> Entry(w.services, l).Some?
  {
    match section
    case Rollback(edges) => DecrementEdgesShrink(w, edges);
    case Apply(changes) => ApplyShrinks(w, changes, w');
    case Reload(changes, loaded) =>
      var mid: World :| ApplyRel(w, changes, mid) && w' == mid.(services := Merge(mid.services, loaded));
      ApplyShrinks(w, changes, mid);
      MergeReps(mid.services, loaded);
      SameEntries(mid.services, w'.services);
    case Register(changes, ip, list) =>
      var mid: World :| ApplyRel(w, changes, mid) && w' == mid.(services := AddListed(mid.services, ip, list));
      ApplyShrinks(w, changes, mid);
      AddListedPorts(mid.services, ip, list);
      SameEntries(mid.services, w'.services);
    case Refresh(n, c, now) => SetLatestKeepsEntries(w.services, n, c, now);
  }

  lemma SectionKeepsOnce(a: System, section: Section, b: System)
    requires Unique(a.services) && ClientsOnce(a.services) && SectionStep(a, section, b)
    ensures ClientsOnce(b.services)
  {
    var w := World(a.services, a.pool, []);
    var w': World :| SectionRel(w, section, w')
      && b == a.(services := w'.services, pending := a.pending + Ids(w'.downs));
    SectionBringsNone(w, section, w');
    FewerEntriesOnce(a.services, b.services);
  }

  // ----- tasks -----

  /** If this step puts the client on the replica of the edge, no other one holds it. */
  predicate TaskSticks(s: Services, t: Task, ack: bool) {
    Puts(s, t, ack) ==> SticksTo(s, t.edge)
  }

  predicate Puts(s: Services, t: Task, ack: bool) {
    HasRep(s, t.edge.server, t.edge.at) &&
    match t.phase
    case Start => t.edge.client.proxy.None?
    case Allocated(_) => ack
    case _ => false
  }

  lemma OthersOnce(w: World, t: Task, ack: bool, now: nat, n: Name, c: Client)
    requires Unique(w.services) && OnOneReplica(w.services, n, c) && (n != t.edge.server || c != t.edge.client)
    ensures OnOneReplica(Advance(w, t, ack, now).0.services, n, c)
  {
    var b := Advance(w, t, ack, now).0.services;
    AdvanceEntries(w, t, ack, now);
    forall r | c in Tab(b, n, r) ensures c in Tab(w.services, n, r) {
      assert Entry(b, Link(c, n, r)).Some?;
    }
  }

  lemma NothingPut(w: World, t: Task, ack: bool, now: nat)
    requires Unique(w.services) && OnOneReplica(w.services, t.edge.server, t.edge.client) && !Puts(w.services, t, ack)
    ensures OnOneReplica(Advance(w, t, ack, now).0.services, t.edge.server, t.edge.client)
  {
    var e, s, b := t.edge, w.services, Advance(w, t, ack, now).0.services;
    match t.phase {
      case Start =>
        if e.client.proxy.Some? {
          assert t == Task(e, Start);
          UserStartStays(w, e, ack, now);
          return;
        }
        AddChainKeepsEntries(s, e.server, e.client, now);
        AddClientGains(s, e.server, e.at, e.client, Placeholder(e.clientIp, now));
      case Allocated(id) =>
        if ack && IsRegistered(s, e.server) {
          assert t == Task(e, Allocated(id));
          CommitGains(w, e, id, now);
        }
      case Aborting => RemoveClientLoses(s, e.server, e.client);
      case _ =>
    }
    forall r | e.client in Tab(b, e.server, r) ensures e.client in Tab(s, e.server, r) {
      assert Entry(b, Link(e.client, e.server, r)).Some?;
    }
  }

  /**
   A step of a task keeps every client on one replica if and only if it puts its client where it is already, or where
   nobody else holds it.
   */
  lemma TaskSticksIff(w: World, t: Task, ack: bool, now: nat)
    requires Unique(w.services) && ClientsOnce(w.services)
    ensures ClientsOnce(Advance(w, t, ack, now).0.services) <==> TaskSticks(w.services, t, ack)
  {
    var e, s, b := t.edge, w.services, Advance(w, t, ack, now).0.services;
    assert OnOneReplica(s, e.server, e.client);
    if Puts(s, t, ack) {
      SticksIsOnlyHere(s, e);
      if t.phase.Start? {
        assert t == Task(e, Start);
        StartSticksIff(w, e, ack, now);
      } else {
        assert t == Task(e, Allocated(t.phase.id));
        CommitSticksIff(w, e, t.phase.id, now);
      }
    } else {
      NothingPut(w, t, ack, now);
    }
    forall n, c | n != e.server || c != e.client ensures OnOneReplica(b, n, c) {
      assert OnOneReplica(s, n, c);
      OthersOnce(w, t, ack, now, n, c);
    }
  }

  // ----- steps and runs -----

  ghost predicate StepSticksAll(a: System, b: System) {
    || (exists edges: seq<RegisteredEdge> :: AllSourced(edges) && b == a.(tasks := a.tasks + Spawn(edges)))
    || (exists k: nat, ack, now ::
          k < |a.tasks| && TaskSticks(a.services, a.tasks[k], ack) && b == TaskStep(a, k, ack, now))
    || (exists section :: SectionStep(a, section, b))
    || (exists k: nat :: k < |a.pending| && b == FreeStep(a, k))
  }

  lemma StepSticksIff(a: System, b: System)
    requires Unique(a.services) && ClientsOnce(a.services) && Step(a, b)
    ensures ClientsOnce(b.services) <==> StepSticksAll(a, b)
  {
    if k: nat, ack, now :| k < |a.tasks| && b == TaskStep(a, k, ack, now) {
      TaskSticksIff(World(a.services, a.pool, []), a.tasks[k], ack, now);
      if StepSticksAll(a, b) {
        SticksAllOnce(a, b);
      }
    } else if section :| SectionStep(a, section, b) {
      SectionKeepsOnce(a, section, b);
    }
  }

  lemma SticksAllOnce(a: System, b: System)
    requires Unique(a.services) && ClientsOnce(a.services) && StepSticksAll(a, b)
    ensures ClientsOnce(b.services)
  {
    if k: nat, ack, now :| k < |a.tasks| && TaskSticks(a.services, a.tasks[k], ack) && b == TaskStep(a, k, ack, now) {
      TaskSticksIff(World(a.services, a.pool, []), a.tasks[k], ack, now);
    } else if section :| SectionStep(a, section, b) {
      SectionKeepsOnce(a, section, b);
    }
  }

  ghost predicate AllOnce(run: seq<System>) {
    forall i :: 0 <= i < |run| ==> ClientsOnce(run[i].services)
  }

  ghost predicate AllStick(run: seq<System>) {
    forall i :: 0 < i < |run| ==> StepSticksAll(run[i - 1], run[i])
  }

  lemma LastOfRun(run: seq<System>)
    requires |run| > 1
    ensures AllOnce(run) <==> AllOnce(run[..|run| - 1]) && ClientsOnce(run[|run| - 1].services)
    ensures AllStick(run) <==> AllStick(run[..|run| - 1]) && StepSticksAll(run[|run| - 2], run[|run| - 1])
  {
    var before, last := run[..|run| - 1], |run| - 1;
    assert forall i :: 0 <= i < last ==> before[i] == run[i];
    if AllStick(before) && StepSticksAll(run[last - 1], run[last]) {
      forall i | 0 < i < |run| ensures StepSticksAll(run[i - 1], run[i]) {
        assert i < last ==> StepSticksAll(before[i - 1], before[i]);
      }
    }
    if AllStick(run) {
      forall i | 0 < i < |before| ensures StepSticksAll(before[i - 1], before[i]) {
        assert StepSticksAll(run[i - 1], run[i]);
      }
    }
  }

  lemma LastSticks(run: seq<System>)
    requires Reachable(run) && |run| > 1 && ClientsOnce(run[|run| - 2].services)
    ensures ClientsOnce(run[|run| - 1].services) <==> StepSticksAll(run[|run| - 2], run[|run| - 1])
  {
    IdsAreExclusive(run);
    StepSticksIff(run[|run| - 2], run[|run| - 1]);
  }

  /** In any interleaving every client is on one replica of a service throughout if and only if every step sticks. */
  lemma {:induction false} RunSticksIff(run: seq<System>)
    requires Reachable(run)
    ensures AllOnce(run) <==> AllStick(run)
    decreases |run|
  {
    if |run| == 1 {
      var net, loaded :| FromFile(loaded) && run[0] == System(loaded, NetIdPool.Fresh(net), [], []);
      FreshTable(loaded);
      FewerEntriesOnce(map[], loaded);
    } else {
      ShorterRun(run);
      RunSticksIff(run[..|run| - 1]);
      LastOfRun(run);
      if AllOnce(run[..|run| - 1]) {
        assert ClientsOnce(run[..|run| - 1][|run| - 2].services);
        LastSticks(run);
      }
    }
  }
}
