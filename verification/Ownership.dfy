/**
 When every ID in use keeps an owner (src/nullnet_grpc_impl.rs:567-651, src/services/changes.rs:267-302, 577-652): in
 every interleaving, step by step, exactly the steps that overwrite, remove or drop an entry with a network that they
 do not release leave an ID without one.
 */
module Ownership {
  import opened Types
  import opened NetIdPool
  import opened ServiceTable
  import opened Chains
  import opened Teardown
  import opened Settlement
  import opened Setup
  import opened Interleaving
  import opened Leaks

  ghost predicate AllOwned(a: System) {
    forall id: nat :: Live(a.pool, id) ==> HasOwner(a, id)
  }

  // ----- which networks are in use after a step of a task -----

  /** One network at most is put in place of another one. */
  ghost predicate NetPut(a: Services, b: Services, l: Link, id: nat) {
    NetAt(b, l) == id && forall x :: x != l ==> NetAt(b, x) == NetAt(a, x)
  }

  /** Of the networks in use exactly the one that is overwritten falls out of use, if there is one. */
  lemma NetPutHeld(a: Services, b: Services, l: Link, id: nat)
    requires Exclusive(a) && NetPut(a, b, l, id) && !Held(a, id)
    ensures forall x :: Held(b, x) <==> (x == id != 0 || (Held(a, x) && x != NetAt(a, l)))
  {
    forall x ensures Held(b, x) <==> (x == id != 0 || (Held(a, x) && x != NetAt(a, l))) {
      HeldIsNetAt(a, x);
      HeldIsNetAt(b, x);
      if Held(a, x) && x != NetAt(a, l) {
        var m :| NetAt(a, m) == x;
        assert NetAt(b, m) == x;
      }
      if Held(b, x) && x != id {
        var m :| NetAt(b, m) == x;
        assert m != l && NetAt(a, m) == x;
        assert x == NetAt(a, l) ==> SameId(a, m, l);
      }
    }
  }

  // ----- the steps of a task -----

  /** The network that a step of a task overwrites or removes without releasing it; 0 if there is none. */
  function Overwritten(s: Services, t: Task, ack: bool): nat {
    var e := t.edge;
    match t.phase
    case Allocated(_) => if ack && HasRep(s, e.server, e.at) then NetAt(s, e.Link()) else 0
    case Aborting =>
      var h := Holder(s, e.server, e.client);
      if h.Some? then NetAt(s, Link(e.client, e.server, h.value)) else 0
    case _ => 0
  }

  /** The replica of a commit has gone, so that its network has no entry. */
  predicate CommitsNowhere(s: Services, t: Task, ack: bool) {
    t.phase.Allocated? && ack && IsRegistered(s, t.edge.server) && !HasRep(s, t.edge.server, t.edge.at)
  }

  predicate TaskKeeps(s: Services, t: Task, ack: bool) {
    Overwritten(s, t, ack) == 0 && !CommitsNowhere(s, t, ack)
  }

  lemma AddChainNets(s: Services, n: Name, c: Client, now: nat)
    requires Unique(s)
    ensures forall l :: NetAt(AddChain(s, n, c, now), l) == NetAt(s, l)
  {
    AddChainSpec(s, n, c, now);
    var h := Holder(s, n, c);
    if h.Some? {
      PutEntries(s, AddChain(s, n, c, now), Link(c, n, h.value), Some(Tab(s, n, h.value)[c].AddActiveChain(now)));
    }
  }

  lemma AddClientNets(s: Services, e: RegisteredEdge, info: ClientInfo)
    requires Unique(s)
    ensures var b := AddClientToReplica(s, e.server, e.at, e.client, info);
      Unique(b) && if HasRep(s, e.server, e.at) then NetPut(s, b, e.Link(), info.netId) else b == s
  {
    var b := AddClientToReplica(s, e.server, e.at, e.client, info);
    AddClientSpec(s, e.server, e.at, e.client, info);
    if HasRep(s, e.server, e.at) {
      ShapeFacts(s, b);
      PutEntries(s, b, e.Link(), Some(info));
    }
  }

  /** A start reserves a slot where there is no entry. */
  lemma StartNets(w: World, t: Task, ack: bool, now: nat)
    requires Unique(w.services) && t.phase.Start?
    ensures forall l :: NetAt(Advance(w, t, ack, now).0.services, l) == NetAt(w.services, l)
  {
    var e, s := t.edge, w.services;
    AddChainNets(s, e.server, e.client, now);
    AddClientNets(s, e, Placeholder(e.clientIp, now));
    if !AlreadySetup(s, e) {
      HolderSpec(s, e.server, e.client);
      assert Entry(s, e.Link()).None?;
    }
  }

  lemma CommitNets(w: World, t: Task, now: nat)
    requires Unique(w.services) && t.phase.Allocated? && IsRegistered(w.services, t.edge.server)
    ensures var b, e := Advance(w, t, true, now).0.services, t.edge;
      if HasRep(w.services, e.server, e.at) then NetPut(w.services, b, e.Link(), t.phase.id)
      else forall l :: NetAt(b, l) == NetAt(w.services, l)
  {
    var e, s := t.edge, w.services;
    var info := Committed(w.pool.net, e, t.phase.id, now);
    AddClientNets(s, e, info);
    AddChainNets(AddClientToReplica(s, e.server, e.at, e.client, info), e.server, e.client, now);
  }

  lemma AbortNets(w: World, t: Task, ack: bool, now: nat)
    requires Unique(w.services) && t.phase.Aborting?
    ensures var b, h := Advance(w, t, ack, now).0.services, Holder(w.services, t.edge.server, t.edge.client);
      if h.Some? then NetPut(w.services, b, Link(t.edge.client, t.edge.server, h.value), 0) else b == w.services
  {
    var n, c := t.edge.server, t.edge.client;
    RemoveClientSpec(w.services, n, c);
    if Holder(w.services, n, c).Some? {
      PutEntries(w.services, RemoveClient(w.services, n, c), Link(c, n, Holder(w.services, n, c).value), None);
    }
  }

  /** Which networks are in use after a step of a task. */
  lemma TaskNets(w: World, t: Task, ack: bool, now: nat)
    requires Unique(w.services) && Exclusive(w.services) && Proper(t) && !Held(w.services, t.HeldId())
    ensures var b, lost := Advance(w, t, ack, now).0.services, Overwritten(w.services, t, ack);
      forall x :: Held(b, x) <==> (Held(w.services, x) && x != lost) || (x != 0 && Commits(w.services, t, ack) && x == t.HeldId())
  {
    var e, s := t.edge, w.services;
    var b := Advance(w, t, ack, now).0.services;
    match t.phase
    case Start =>
      StartNets(w, t, ack, now);
      SameNetsHeld(s, b);
    case Allocated(id) =>
      if ack && IsRegistered(s, e.server) {
        CommitNets(w, t, now);
        if HasRep(s, e.server, e.at) {
          NetPutHeld(s, b, e.Link(), id);
        } else {
          SameNetsHeld(s, b);
        }
      }
    case Aborting =>
      AbortNets(w, t, ack, now);
      var h := Holder(s, e.server, e.client);
      if h.Some? {
        NetPutHeld(s, b, Link(e.client, e.server, h.value), 0);
      }
    case _ =>
  }

  /** The task puts its network into the table. */
  predicate Commits(s: Services, t: Task, ack: bool) {
    t.phase.Allocated? && ack && HasRep(s, t.edge.server, t.edge.at)
  }

  lemma OverwrittenIsHeld(s: Services, t: Task, ack: bool)
    ensures Overwritten(s, t, ack) != 0 ==> Held(s, Overwritten(s, t, ack))
  {
    var e := t.edge;
    HeldIsNetAt(s, NetAt(s, e.Link()));
    var h := Holder(s, e.server, e.client);
    if h.Some? {
      HeldIsNetAt(s, NetAt(s, Link(e.client, e.server, h.value)));
    }
  }

  /** What is live after a step of a task, and what the task holds. */
  lemma TaskLive(w: World, t: Task, ack: bool, now: nat)
    requires Valid(w.pool) && (t.HeldId() != 0 ==> Live(w.pool, t.HeldId())) && Proper(t)
    ensures var (w', t') := Advance(w, t, ack, now);
      && (forall x: nat :: Live(w'.pool, x) && x != t'.HeldId() ==> Live(w.pool, x))
      && (forall x: nat :: Live(w.pool, x) && !Live(w'.pool, x) ==> x == t.HeldId())
      && (t.HeldId() != 0 ==>
            (Live(w'.pool, t.HeldId()) && t'.HeldId() != t.HeldId() <==>
             Commits(w.services, t, ack) || CommitsNowhere(w.services, t, ack)))
  {
    match t.phase
    case Reserved => AllocateSpec(w.pool);
    case Allocated(id) => FreeIsSoundIffIssued(w.pool, id);
    case Releasing(id) => FreeIsSoundIffIssued(w.pool, id);
    case _ =>
  }

  // ----- steps of the system -----

  lemma TaskOwner(a: System, k: nat, ack: bool, now: nat, x: nat)
    requires Owned(a) && k < |a.tasks| && x != 0
    ensures var b, t := TaskStep(a, k, ack, now), a.tasks[k];
      HasOwner(b, x) <==>
        || (Held(a.services, x) && x != Overwritten(a.services, t, ack))
        || (Commits(a.services, t, ack) && x == t.HeldId())
        || x == b.tasks[k].HeldId()
        || (exists i :: 0 <= i < |a.tasks| && i != k && a.tasks[i].HeldId() == x)
        || x in a.pending
  {
    var b, t := TaskStep(a, k, ack, now), a.tasks[k];
    TaskNets(World(a.services, a.pool, []), t, ack, now);
    if i :| 0 <= i < |a.tasks| && i != k && a.tasks[i].HeldId() == x {
      assert b.tasks[i].HeldId() == x;
    }
    if i :| 0 <= i < |b.tasks| && b.tasks[i].HeldId() == x {
      assert i != k ==> a.tasks[i] == b.tasks[i];
    }
  }

  /** A network that is overwritten or removed without being released has no other owner. */
  lemma OverwrittenIsLost(a: System, k: nat, ack: bool, now: nat)
    requires Owned(a) && k < |a.tasks| && Overwritten(a.services, a.tasks[k], ack) != 0
    ensures var lost := Overwritten(a.services, a.tasks[k], ack);
      Live(TaskStep(a, k, ack, now).pool, lost) && !HasOwner(TaskStep(a, k, ack, now), lost)
  {
    var t, w := a.tasks[k], World(a.services, a.pool, []);
    var lost := Overwritten(a.services, t, ack);
    OverwrittenIsHeld(a.services, t, ack);
    assert Live(a.pool, lost) && lost != t.HeldId();
    TaskLive(w, t, ack, now);
    AdvanceMoves(w, t, ack, now);
    TaskOwner(a, k, ack, now, lost);
  }

  /** The network of a commit whose replica has gone has no owner. */
  lemma NowhereIsLost(a: System, k: nat, ack: bool, now: nat)
    requires Owned(a) && k < |a.tasks| && CommitsNowhere(a.services, a.tasks[k], ack)
    ensures var id := a.tasks[k].HeldId();
      Live(TaskStep(a, k, ack, now).pool, id) && !HasOwner(TaskStep(a, k, ack, now), id)
  {
    CommitOwnsIffReplica(a, k, now);
  }

  lemma TaskKeepsOwners(a: System, k: nat, ack: bool, now: nat)
    requires Owned(a) && AllOwned(a) && k < |a.tasks| && TaskKeeps(a.services, a.tasks[k], ack)
    ensures AllOwned(TaskStep(a, k, ack, now))
  {
    var b, t, w := TaskStep(a, k, ack, now), a.tasks[k], World(a.services, a.pool, []);
    TaskLive(w, t, ack, now);
    forall x: nat | Live(b.pool, x) ensures HasOwner(b, x) {
      TaskOwner(a, k, ack, now, x);
      if x != b.tasks[k].HeldId() {
        assert HasOwner(a, x);
      }
    }
  }

  /**
   A step of a task leaves every ID in use with an owner, as before, if and only if it neither commits to a replica
   that has gone nor overwrites, nor removes as its reserved slot, an entry that has a network by now.
   */
  lemma TaskKeepsIff(a: System, k: nat, ack: bool, now: nat)
    requires Owned(a) && AllOwned(a) && k < |a.tasks|
    ensures AllOwned(TaskStep(a, k, ack, now)) <==> TaskKeeps(a.services, a.tasks[k], ack)
  {
    if TaskKeeps(a.services, a.tasks[k], ack) {
      TaskKeepsOwners(a, k, ack, now);
    } else if Overwritten(a.services, a.tasks[k], ack) != 0 {
      OverwrittenIsLost(a, k, ack, now);
    } else {
      NowhereIsLost(a, k, ack, now);
    }
  }

  ghost predicate SectionStepKeeps(a: System, section: Section, b: System) {
    exists w': World ::
      && SectionKeeps(World(a.services, a.pool, []), section, w')
      && b == a.(services := w'.services, pending := a.pending + Ids(w'.downs))
  }

  lemma InIds(downs: seq<Down>, id: nat)
    ensures id in Ids(downs) <==> Releases(downs, id)
  {
    if Releases(downs, id) {
      var d :| d in downs && d.netId == id;
      var i :| 0 <= i < |downs| && downs[i] == d;
      assert Ids(downs)[i] == id;
    }
    if id in Ids(downs) {
      var i :| 0 <= i < |downs| && Ids(downs)[i] == id;
      assert downs[i] in downs;
    }
  }

  lemma SectionOwner(a: System, w': World, b: System, x: nat)
    requires b == a.(services := w'.services, pending := a.pending + Ids(w'.downs))
    ensures HasOwner(b, x) <==>
      || Held(w'.services, x) || (exists i :: 0 <= i < |a.tasks| && a.tasks[i].HeldId() == x)
      || x in a.pending || Releases(w'.downs, x)
  {
    InIds(w'.downs, x);
  }

  /** A section leaves every ID in use with an owner if and only if it releases every network that falls out of use. */
  lemma LeaklessIffOwned(a: System, section: Section, w': World, b: System)
    requires Owned(a) && AllOwned(a) && SectionRel(World(a.services, a.pool, []), section, w')
    requires b == a.(services := w'.services, pending := a.pending + Ids(w'.downs))
    ensures AllOwned(b) <==> Leakless(World(a.services, a.pool, []), w')
  {
    var w := World(a.services, a.pool, []);
    var sent := SectionSettles(w, section, w');
    assert Sent(w, w') == w'.downs;
    if Leakless(w, w') {
      forall x: nat | Live(b.pool, x) ensures HasOwner(b, x) {
        assert HasOwner(a, x);
        SectionOwner(a, w', b, x);
      }
    }
    if AllOwned(b) {
      forall x | Held(w.services, x) && !Held(w'.services, x) ensures Releases(w'.downs, x) {
        assert Live(b.pool, x);
        SectionOwner(a, w', b, x);
      }
    }
  }

  lemma SectionKeepsOwners(a: System, section: Section, b: System)
    requires Owned(a) && AllOwned(a) && SectionStepKeeps(a, section, b)
    ensures SectionStep(a, section, b) && AllOwned(b)
  {
    var w := World(a.services, a.pool, []);
    var w': World :| SectionKeeps(w, section, w')
      && b == a.(services := w'.services, pending := a.pending + Ids(w'.downs));
    match section {
      case Refresh(n, c, now) => RefreshIsLeakless(w, n, c, now);
      case _ => SectionKeepsIsLeakless(w, section, w');
    }
    LeaklessIffOwned(a, section, w', b);
  }

  /**
   So does a critical section of the table, if and only if in none of its teardowns a user is taken from a replica that
   is not meant, and no change drops a replica or a service that still has a network.
   */
  lemma SectionKeepsIff(a: System, section: Section, b: System)
    requires Owned(a) && AllOwned(a) && SectionStep(a, section, b)
    ensures AllOwned(b) <==> SectionStepKeeps(a, section, b)
  {
    var w := World(a.services, a.pool, []);
    var w': World :| SectionRel(w, section, w')
      && b == a.(services := w'.services, pending := a.pending + Ids(w'.downs));
    LeaklessIffOwned(a, section, w', b);
    if AllOwned(b) {
      LeaklessSectionKeeps(w, section, w');
    } else if SectionStepKeeps(a, section, b) {
      SectionKeepsOwners(a, section, b);
    }
  }

  lemma FreeKeepsOwners(a: System, k: nat)
    requires Owned(a) && AllOwned(a) && k < |a.pending|
    ensures AllOwned(FreeStep(a, k))
  {
    var b, id := FreeStep(a, k), a.pending[k];
    FreeIsSoundIffIssued(a.pool, id);
    forall x: nat | Live(b.pool, x) ensures HasOwner(b, x) {
      assert HasOwner(a, x) && x != id;
      if x in a.pending {
        var i :| 0 <= i < |a.pending| && a.pending[i] == x;
        assert b.pending[if i < k then i else i - 1] == x;
      }
    }
  }

  lemma SpawnKeepsOwners(a: System, edges: seq<RegisteredEdge>)
    requires AllOwned(a)
    ensures AllOwned(a.(tasks := a.tasks + Spawn(edges)))
  {
    var b := a.(tasks := a.tasks + Spawn(edges));
    forall x: nat | Live(b.pool, x) ensures HasOwner(b, x) {
      assert HasOwner(a, x);
      if i :| 0 <= i < |a.tasks| && a.tasks[i].HeldId() == x {
        assert b.tasks[i] == a.tasks[i];
      }
    }
  }

  /** A step that leaves no ID without an owner. */
  ghost predicate StepKeeps(a: System, b: System) {
    || (exists edges: seq<RegisteredEdge> :: AllSourced(edges) && b == a.(tasks := a.tasks + Spawn(edges)))
    || (exists k: nat, ack, now ::
          k < |a.tasks| && TaskKeeps(a.services, a.tasks[k], ack) && b == TaskStep(a, k, ack, now))
    || (exists section :: SectionStepKeeps(a, section, b))
    || (exists k: nat :: k < |a.pending| && b == FreeStep(a, k))
  }

  lemma StepKeepsOwners(a: System, b: System)
    requires Owned(a) && AllOwned(a) && StepKeeps(a, b)
    ensures AllOwned(b)
  {
    if edges: seq<RegisteredEdge> :| AllSourced(edges) && b == a.(tasks := a.tasks + Spawn(edges)) {
      SpawnKeepsOwners(a, edges);
    } else if k: nat, ack, now :|
      k < |a.tasks| && TaskKeeps(a.services, a.tasks[k], ack) && b == TaskStep(a, k, ack, now) {
      TaskKeepsIff(a, k, ack, now);
    } else if section :| SectionStepKeeps(a, section, b) {
      SectionKeepsOwners(a, section, b);
    } else {
      var k: nat :| k < |a.pending| && b == FreeStep(a, k);
      FreeKeepsOwners(a, k);
    }
  }

  lemma StepKeepsIff(a: System, b: System)
    requires Owned(a) && AllOwned(a) && Step(a, b)
    ensures AllOwned(b) <==> StepKeeps(a, b)
  {
    if StepKeeps(a, b) {
      StepKeepsOwners(a, b);
    } else if k: nat, ack, now :| k < |a.tasks| && b == TaskStep(a, k, ack, now) {
      TaskKeepsIff(a, k, ack, now);
    } else if section :| SectionStep(a, section, b) {
      SectionKeepsIff(a, section, b);
    }
  }

  /** Whatever has lost its owner has lost it for good. */
  lemma OwnedBefore(a: System, b: System)
    requires Owned(a) && Step(a, b) && AllOwned(b)
    ensures AllOwned(a)
  {
    forall id: nat | Live(a.pool, id) ensures HasOwner(a, id) {
      if !HasOwner(a, id) {
        OrphanStays(a, b, id);
        assert false;
      }
    }
  }

  ghost predicate AllKeep(run: seq<System>) {
    forall i :: 0 < i < |run| ==> StepKeeps(run[i - 1], run[i])
  }

  lemma AllKeepSplits(run: seq<System>)
    requires |run| > 1
    ensures AllKeep(run) <==> AllKeep(run[..|run| - 1]) && StepKeeps(run[|run| - 2], run[|run| - 1])
  {
    var before, last := run[..|run| - 1], |run| - 1;
    if AllKeep(before) && StepKeeps(run[last - 1], run[last]) {
      forall i | 0 < i < |run| ensures StepKeeps(run[i - 1], run[i]) {
        assert i < last ==> StepKeeps(before[i - 1], before[i]);
      }
    }
    if AllKeep(run) {
      forall i | 0 < i < |before| ensures StepKeeps(before[i - 1], before[i]) {
        assert StepKeeps(run[i - 1], run[i]);
      }
    }
  }

  lemma LastStep(run: seq<System>)
    requires Reachable(run) && |run| > 1
    ensures Owned(run[|run| - 2]) && Step(run[|run| - 2], run[|run| - 1])
    ensures AllOwned(run[|run| - 1]) <==>
      AllOwned(run[|run| - 2]) && StepKeeps(run[|run| - 2], run[|run| - 1])
  {
    var a, b := run[|run| - 2], run[|run| - 1];
    IdsAreExclusive(run);
    if AllOwned(b) {
      OwnedBefore(a, b);
    }
    if AllOwned(a) {
      StepKeepsIff(a, b);
    }
  }

  /**
   At the end of a run in any interleaving every ID in use has an owner if and only if every step of the run was one
   that leaves none without.
   */
  lemma {:induction false} RunKeepsIff(run: seq<System>)
    requires Reachable(run)
    ensures AllOwned(run[|run| - 1]) <==> AllKeep(run)
    decreases |run|
  {
    if |run| == 1 {
      assert forall id: nat :: !Live(run[0].pool, id);
    } else {
      ShorterRun(run);
      RunKeepsIff(run[..|run| - 1]);
      LastStep(run);
      AllKeepSplits(run);
    }
  }
}
