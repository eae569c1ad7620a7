/** Short interleavings in which an ID loses its owner, or a user comes to be on two replicas, with every replica there. */
module LostOwners {
  import opened Types
  import opened NetIdPool
  import opened ServiceTable
  import opened Chains
  import opened Teardown
  import opened Changes
  import opened Reconcile
  import opened Settlement
  import opened Setup
  import opened Requests
  import opened AtomicSetup
  import opened Success
  import opened Counterexamples
  import opened Interleaving
  import opened Leaks
  import opened Ownership

  const SECOND: ReplicaId := Counterexamples.SECOND

  /** One service without dependencies, with two replicas. */
  ghost predicate Pair(s: Services) {
    && s.Keys == {BACK} && s[BACK].Registered? && s[BACK].config == Config([], map[], Some(60), None)
    && |Reps(s, BACK)| == 2 && Reps(s, BACK)[0].Id() == FIRST && Reps(s, BACK)[1].Id() == SECOND
  }

  lemma PairFacts(s: Services)
    requires Pair(s)
    ensures Unique(s) && HasRep(s, BACK, FIRST) && HasRep(s, BACK, SECOND) && Acyclic(s)
  {
    assert IsRanking(s, _ => 0);
  }

  lemma PairStays(a: Services, b: Services)
    requires Pair(a) && SameShape(a, b)
    ensures Pair(b)
  {
  }

  /** These are the entries of the table. */
  ghost predicate EntriesAre(s: Services, links: set<Link>) {
    forall l :: Entry(s, l).Some? <==> l in links
  }

  function UserAt(req: Request, at: ReplicaId): Link {
    ProxyEdge(req, at).Link()
  }

  /** The table with these entries, and these tasks for the user; so many IDs are left at least. */
  ghost predicate Is(a: System, links: set<Link>, tasks: seq<Task>, spare: nat) {
    Pair(a.services) && EntriesAre(a.services, links) && a.tasks == tasks && Spare(a.pool) >= spare
  }

  predicate OfPair(at: ReplicaId) {
    at == FIRST || at == SECOND
  }

  // ----- single steps -----

  /** Task `k` reserves its slot. */
  lemma Reserves(a: System, k: nat, tasks: seq<Task>, spare: nat, req: Request, at: ReplicaId, now: nat)
    returns (b: System)
    requires Is(a, {}, tasks, spare) && req.service == BACK && OfPair(at)
    requires k < |tasks| && tasks[k] == Task(ProxyEdge(req, at), Start)
    ensures Step(a, b) && b.pool == a.pool
    ensures Is(b, {UserAt(req, at)}, tasks[k := Task(ProxyEdge(req, at), Reserved)], spare)
  {
    var e, w := ProxyEdge(req, at), World(a.services, a.pool, []);
    PairFacts(a.services);
    NobodyIsHeld(a.services, BACK, req.Client());
    StartEntry(w, e, true, now);
    AdvanceShape(w, tasks[k], true, now);
    assert !AlreadySetup(a.services, e);
    b := TaskStep(a, k, true, now);
    PairStays(a.services, b.services);
  }

  /** Task `k` takes an ID. */
  lemma Takes(a: System, k: nat, links: set<Link>, tasks: seq<Task>, spare: nat, e: RegisteredEdge)
    returns (b: System, id: nat)
    requires Is(a, links, tasks, spare + 1) && Valid(a.pool) && k < |tasks| && tasks[k] == Task(e, Reserved)
    ensures Step(a, b) && Is(b, links, tasks[k := Task(e, Allocated(id))], spare)
  {
    SpareTaken(a.pool);
    b := TaskStep(a, k, true, 0);
    id := b.tasks[k].phase.id;
  }

  /** Task `k` reserves its slot and takes an ID. */
  lemma TakesAnId(run: seq<System>, k: nat, tasks: seq<Task>, spare: nat, req: Request, at: ReplicaId, now: nat)
    returns (longer: seq<System>, id: nat)
    requires Reachable(run) && Is(run[|run| - 1], {}, tasks, spare + 1) && req.service == BACK && OfPair(at)
    requires k < |tasks| && tasks[k] == Task(ProxyEdge(req, at), Start)
    ensures Reachable(longer)
    ensures Is(longer[|longer| - 1], {UserAt(req, at)}, tasks[k := Task(ProxyEdge(req, at), Allocated(id))], spare)
  {
    IdsAreExclusive(run);
    var e, c := ProxyEdge(req, at), run[|run| - 1];
    var b := Reserves(c, k, tasks, spare + 1, req, at, now);
    c, id := Takes(b, k, {UserAt(req, at)}, tasks[k := Task(e, Reserved)], spare, e);
    assert tasks[k := Task(e, Reserved)][k := Task(e, Allocated(id))] == tasks[k := Task(e, Allocated(id))];
    InterleavingGoesOn(run, b);
    InterleavingGoesOn(run + [b], c);
    longer := run + [b] + [c];
  }

  lemma Spawns(run: seq<System>, links: set<Link>, tasks: seq<Task>, spare: nat, req: Request, at: ReplicaId)
    returns (longer: seq<System>)
    requires Reachable(run) && Is(run[|run| - 1], links, tasks, spare)
    ensures Reachable(longer)
    ensures Is(longer[|longer| - 1], links, tasks + [Task(ProxyEdge(req, at), Start)], spare)
  {
    var a, edges := run[|run| - 1], [ProxyEdge(req, at)];
    assert AllSourced(edges) && Spawn(edges) == [Task(ProxyEdge(req, at), Start)];
    var b := a.(tasks := a.tasks + Spawn(edges));
    InterleavingGoesOn(run, b);
    longer := run + [b];
  }

  /** Both endpoints of task `k` answer, and it puts its network into the table. */
  lemma CommitsItsId(a: System, k: nat, links: set<Link>, tasks: seq<Task>, spare: nat, req: Request, at: ReplicaId,
                     id: nat, now: nat)
    returns (b: System, t: Task)
    requires Is(a, links, tasks, spare) && req.service == BACK && OfPair(at)
    requires k < |tasks| && tasks[k] == Task(ProxyEdge(req, at), Allocated(id))
    ensures b == TaskStep(a, k, true, now) && Step(a, b)
    ensures Is(b, links + {UserAt(req, at)}, tasks[k := t], spare) && NetAt(b.services, UserAt(req, at)) == id
    ensures forall l :: l != UserAt(req, at) ==> NetAt(b.services, l) == NetAt(a.services, l)
    ensures t.edge == ProxyEdge(req, at) && t.phase.Succeeded?
  {
    var e, w := ProxyEdge(req, at), World(a.services, a.pool, []);
    PairFacts(a.services);
    CommitGains(w, e, id, now);
    CommitNets(w, tasks[k], now);
    AdvanceShape(w, tasks[k], true, now);
    b := TaskStep(a, k, true, now);
    PairStays(a.services, b.services);
    t := b.tasks[k];
  }

  // ----- teardowns of users of a service without dependencies -----

  lemma {:induction false} NothingBehind(w: World, targets: seq<Target>)
    requires Pair(w.services) && Walkable(w.services, targets)
    ensures TeardownDepChains(w, BACK, targets) == w
    decreases |targets|
  {
    if targets != [] {
      assert DepChainEdges(w.services, BACK, targets[0].at) == [];
      NothingBehind(w, targets[1..]);
    }
  }

  lemma UsersTornDown(w: World, f: ProxyFilter, targets: seq<Target>) returns (w': World)
    requires Pair(w.services) && Collected(w.services, BACK, f, targets)
    ensures OpRel(w, ChainOp(BACK, f), w') && w'.services == RemoveTargets(w.services, BACK, targets)
    ensures w' == FreeUnshared(w.(services := w'.services), BACK, targets, {})
  {
    PairFacts(w.services);
    NothingBehind(w, targets);
    w' := TeardownChain(w, BACK, targets);
    FreeUnsharedTable(w.(services := RemoveTargets(w.services, BACK, targets)), BACK, targets, {});
  }

  lemma OneOp(w: World, op: Op, w': World)
    requires OpRel(w, op, w')
    ensures OpsRel(w, [op], w')
  {
    OpsExtend(w, [], w, op, w');
    assert [] + [op] == [op];
  }

  lemma AppliesOne(a: System, change: ServiceChange, w': World) returns (b: System)
    requires ChangeRel(World(a.services, a.pool, []), change, w')
    ensures Step(a, b) && b == a.(services := w'.services, pending := a.pending + Ids(w'.downs))
  {
    var w, section := World(a.services, a.pool, []), Section.Apply([change]);
    ApplyOne(w, change, w');
    b := a.(services := w'.services, pending := a.pending + Ids(w'.downs));
    assert SectionRel(w, section, w');
    assert SectionStep(a, section, b);
  }

  lemma RemoveOnly(s: Services, t: Target)
    requires Pair(s) && Entry(s, t.Link(BACK)).Some? && EntriesAre(s, {t.Link(BACK)})
    ensures Pair(RemoveTargets(s, BACK, [t])) && EntriesAre(RemoveTargets(s, BACK, [t]), {})
  {
    PairFacts(s);
    var m := RemoveOne(s, BACK, t.client);
    RemoveTargetsShape(s, BACK, [t]);
    PairStays(s, RemoveTargets(s, BACK, [t]));
    assert RemoveTargets(s, BACK, [t]) == m;
    HolderSpec(s, BACK, t.client);
    assert t.client in Tab(s, BACK, t.at);
    var h := Holder(s, BACK, t.client).value;
    assert Entry(s, Link(t.client, BACK, h)).Some?;
  }

  /** The only user times out. */
  lemma TimesOut(a: System, tasks: seq<Task>, spare: nat, req: Request, at: ReplicaId) returns (b: System)
    requires Is(a, {UserAt(req, at)}, tasks, spare) && req.service == BACK
    ensures Step(a, b) && Is(b, {}, tasks, spare)
  {
    var w, c := World(a.services, a.pool, []), req.Client();
    var t := Target(c, Entry(a.services, UserAt(req, at)).value, at);
    assert t.Link(BACK) == UserAt(req, at);
    assert Collected(a.services, BACK, ByClient(c), [t]);
    var w' := UsersTornDown(w, ByClient(c), [t]);
    OneOp(w, ChainOp(BACK, ByClient(c)), w');
    var change := ProxyClientTimedOut(BACK, c);
    assert Plan(w, change, [ChainOp(BACK, ByClient(c))], w');
    assert ChangeRel(w, change, w') by {
      assert w' == w'.(services := Finish(w.services, w'.services, change));
    }
    b := AppliesOne(a, change, w');
    RemoveOnly(a.services, t);
  }

  // ----- the runs -----

  /** A user's setup is under way on the first replica with an ID; the user times out and asks again. */
  lemma AsksAgain(net: NetType, req: Request, at: ReplicaId, now: nat)
    returns (run: seq<System>, one: nat)
    requires req.service == BACK
    ensures Reachable(run)
    ensures Is(run[|run| - 1], {}, [Task(ProxyEdge(req, FIRST), Allocated(one)), Task(ProxyEdge(req, at), Start)], 1)
  {
    run := BeforeAll(net);
    var a1 := BothRegister(run[0]);
    NoEntries(a1.services);
    InterleavingGoesOn(run, a1);
    assert Spare(a1.pool) >= 2;
    run := Spawns(run + [a1], {}, [], 2, req, FIRST);
    run, one := TakesAnId(run, 0, [] + [Task(ProxyEdge(req, FIRST), Start)], 1, req, FIRST, now);
    var tasks := [Task(ProxyEdge(req, FIRST), Allocated(one))];
    var b := TimesOut(run[|run| - 1], tasks, 1, req, FIRST);
    InterleavingGoesOn(run, b);
    run := Spawns(run + [b], {}, tasks, 1, req, at);
    assert tasks + [Task(ProxyEdge(req, at), Start)] ==
           [Task(ProxyEdge(req, FIRST), Allocated(one)), Task(ProxyEdge(req, at), Start)];
  }

  /** The second setup is finished while the first one still waits for its endpoints. */
  lemma SecondIsFirst(net: NetType, req: Request, at: ReplicaId, now: nat)
    returns (run: seq<System>, one: nat, id: nat, t: Task)
    requires req.service == BACK && OfPair(at)
    ensures Reachable(run) && t.edge == ProxyEdge(req, at) && t.phase.Succeeded?
    ensures Is(run[|run| - 1], {UserAt(req, at)}, [Task(ProxyEdge(req, FIRST), Allocated(one)), t], 0)
    ensures NetAt(run[|run| - 1].services, UserAt(req, at)) == id != 0
  {
    run, one := AsksAgain(net, req, at, now);
    var tasks := [Task(ProxyEdge(req, FIRST), Allocated(one)), Task(ProxyEdge(req, at), Start)];
    run, id := TakesAnId(run, 1, tasks, 0, req, at, now);
    var b: System;
    b, t := CommitsItsId(run[|run| - 1], 1, {UserAt(req, at)}, tasks[1 := Task(ProxyEdge(req, at), Allocated(id))], 0,
                         req, at, id, now);
    HoldsRealId(run, 1);
    InterleavingGoesOn(run, b);
    run := run + [b];
  }

  lemma HoldsRealId(run: seq<System>, k: nat)
    requires Reachable(run) && k < |run[|run| - 1].tasks| && run[|run| - 1].tasks[k].phase.Allocated?
    ensures run[|run| - 1].tasks[k].phase.id != 0
  {
    IdsAreExclusive(run);
    assert Proper(run[|run| - 1].tasks[k]);
  }

  /** A task whose slot another one has filled commits over it, or removes it: the other's network has no owner then. */
  lemma LosesTheOther(run: seq<System>, ack: bool, now: nat, id: nat)
    requires Reachable(run) && run[|run| - 1].tasks != []
    requires Overwritten(run[|run| - 1].services, run[|run| - 1].tasks[0], ack) == id != 0
    ensures Live(TaskStep(run[|run| - 1], 0, ack, now).pool, id) && !HasOwner(TaskStep(run[|run| - 1], 0, ack, now), id)
  {
    IdsAreExclusive(run);
    OverwrittenIsLost(run[|run| - 1], 0, ack, now);
  }

  lemma LosesTheFirst(run: seq<System>, req: Request, now: nat, id: nat)
    requires Reachable(run) && Pair(run[|run| - 1].services) && run[|run| - 1].tasks != [] && req.service == BACK
    requires run[|run| - 1].tasks[0].edge == ProxyEdge(req, FIRST) && run[|run| - 1].tasks[0].phase.Allocated?
    requires NetAt(run[|run| - 1].services, UserAt(req, FIRST)) == id != 0
    ensures Live(TaskStep(run[|run| - 1], 0, true, now).pool, id) && !HasOwner(TaskStep(run[|run| - 1], 0, true, now), id)
  {
    PairFacts(run[|run| - 1].services);
    LosesTheOther(run, true, now, id);
  }

  /**
   Both replicas are there all the time, and both setups of the user succeed. If they lead to one replica, the network
   of the second is overwritten, and its ID stays in use though nothing owns it; if they lead to two, the user is on
   both.
   */
  lemma CommitOverCommit(net: NetType, req: Request, at: ReplicaId, now: nat)
    returns (run: seq<System>, one: nat, id: nat)
    requires req.service == BACK && OfPair(at)
    ensures Reachable(run) && Pair(run[|run| - 1].services)
    ensures |run[|run| - 1].tasks| == 2 && AllSucceeded(run[|run| - 1].tasks)
    ensures run[|run| - 1].tasks[0].edge == ProxyEdge(req, FIRST) && run[|run| - 1].tasks[1].edge == ProxyEdge(req, at)
    ensures EntriesAre(run[|run| - 1].services, {UserAt(req, FIRST), UserAt(req, at)})
    ensures at == FIRST ==> Live(run[|run| - 1].pool, id) && !HasOwner(run[|run| - 1], id)
    ensures at == SECOND ==> NetAt(run[|run| - 1].services, UserAt(req, FIRST)) == one != 0
    ensures at == SECOND ==> NetAt(run[|run| - 1].services, UserAt(req, SECOND)) == id != 0
  {
    var before, t;
    before, one, id, t := SecondIsFirst(net, req, at, now);
    var a, links := before[|before| - 1], {UserAt(req, at)};
    HoldsRealId(before, 0);
    var b, t0 := CommitsItsId(a, 0, links, [Task(ProxyEdge(req, FIRST), Allocated(one)), t], 0, req, FIRST, one, now);
    assert links + {UserAt(req, FIRST)} == {UserAt(req, FIRST), UserAt(req, at)};
    if at == FIRST {
      LosesTheFirst(before, req, now, id);
    }
    InterleavingGoesOn(before, b);
    run := before + [b];
  }

  /** The endpoints of the first setup do not answer: it removes the entry of the second, wherever that one leads. */
  lemma AbortAfterCommit(net: NetType, req: Request, at: ReplicaId, now: nat) returns (run: seq<System>, id: nat)
    requires req.service == BACK && OfPair(at)
    ensures Reachable(run) && |run[|run| - 1].tasks| == 2
    ensures run[|run| - 1].tasks[0] == Task(ProxyEdge(req, FIRST), Failed)
    ensures run[|run| - 1].tasks[1].edge == ProxyEdge(req, at) && run[|run| - 1].tasks[1].phase.Succeeded?
    ensures Live(run[|run| - 1].pool, id) && !HasOwner(run[|run| - 1], id)
  {
    var one, t;
    run, one, id, t := SecondIsFirst(net, req, at, now);
    var a := run[|run| - 1];
    var b := TaskStep(a, 0, false, now);
    InterleavingGoesOn(run, b);
    run := run + [b];
    OnlyHolder(b.services, UserAt(req, at));
    LosesTheOther(run, false, now, id);
    var c := TaskStep(b, 0, false, now);
    InterleavingGoesOn(run, c);
    run := run + [c];
  }

  lemma OnlyHolder(s: Services, l: Link)
    requires Pair(s) && EntriesAre(s, {l}) && l.server == BACK
    ensures Holder(s, BACK, l.client) == Some(l.at)
  {
    PairFacts(s);
    HolderSpec(s, BACK, l.client);
    assert Entry(s, l).Some? && l.client in Tab(s, BACK, l.at);
    var h := Holder(s, BACK, l.client).value;
    assert Entry(s, Link(l.client, BACK, h)).Some?;
  }

  // ----- a user on two replicas, one of which goes -----

  lemma BackendIsIdle(w: World, at: ReplicaId)
    requires Pair(w.services)
    ensures OpRel(w, BackendOp(BACK, at, None), w)
  {
    var ports: seq<nat> := [];
    assert Enumerates(ports, Triggers(w.services, BACK).Keys);
    assert TriggerEdges(w.services, BACK, at, None, ports) == [];
    assert BackendEdges(w.services, BACK, at, None, []);
    assert DecrementEdges(w, []) == w;
  }

  lemma SecondIsPlanned(w: World, w': World)
    requires Pair(w.services) && OpRel(w, ChainOp(BACK, OnReplica(SECOND)), w')
    requires forall l :: Entry(w.services, l).Some? ==> l.client.proxy.Some?
    ensures var ops := [BackendOp(BACK, SECOND, None), ChainOp(BACK, OnReplica(SECOND))];
      Plan(w, ReplicaRemoved(BACK, SECOND), ops, w') && OpsRel(w, ops, w')
  {
    var before, chain := BackendOp(BACK, SECOND, None), ChainOp(BACK, OnReplica(SECOND));
    var affected: seq<Client> := [];
    BackendIsIdle(w, SECOND);
    OneOp(w, before, w);
    OneOp(w, chain, w');
    OpsExtend(w, [before], w, chain, w');
    assert [before] + [chain] == [before, chain];
    NoServiceClients(w.services, OnReplica(SECOND));
    assert Covers(affected, Affected(w.services, BACK, OnReplica(SECOND)));
    assert UpstreamOps(BACK, affected) + [chain] == [chain];
    assert PartialPlan(w.services, BACK, OnReplica(SECOND), [chain]);
    assert ThenPartial(w, [before], BACK, OnReplica(SECOND), [before, chain], w');
  }

  lemma NoServiceClients(s: Services, f: ProxyFilter)
    requires Pair(s) && forall l :: Entry(s, l).Some? ==> l.client.proxy.Some?
    ensures Affected(s, BACK, f) == {}
  {
    PairFacts(s);
    forall i, c | 0 <= i < |Reps(s, BACK)| && c in Reps(s, BACK)[i].clients ensures c.proxy.Some? {
      TabAt(Reps(s, BACK), i);
      assert Entry(s, Link(c, BACK, Reps(s, BACK)[i].Id())).Some?;
    }
  }

  lemma FoundOnTheFirst(s: Services, req: Request, t: Target)
    requires Pair(s) && EntriesAre(s, {UserAt(req, FIRST), UserAt(req, SECOND)}) && req.service == BACK
    requires t.Link(BACK) == UserAt(req, SECOND) && Entry(s, UserAt(req, SECOND)) == Some(t.info)
    ensures var m := RemoveTargets(s, BACK, [t]);
      Pair(m) && EntriesAre(m, {UserAt(req, SECOND)}) && Entry(m, UserAt(req, SECOND)) == Some(t.info)
  {
    PairFacts(s);
    TabAt(Reps(s, BACK), 0);
    assert Entry(s, UserAt(req, FIRST)).Some?;
    assert Holder(s, BACK, t.client) == Some(FIRST);
    var m := RemoveOne(s, BACK, t.client);
    assert RemoveTargets(s, BACK, [t]) == m;
    RemoveTargetsShape(s, BACK, [t]);
    PairStays(s, m);
  }

  /** The removal of the second replica takes the user from the first. */
  lemma TakesTheWrongOne(w: World, req: Request) returns (w': World)
    requires Pair(w.services) && EntriesAre(w.services, {UserAt(req, FIRST), UserAt(req, SECOND)})
    requires req.service == BACK
    ensures OpRel(w, ChainOp(BACK, OnReplica(SECOND)), w') && w' == w.(services := w'.services)
    ensures Pair(w'.services) && EntriesAre(w'.services, {UserAt(req, SECOND)})
  {
    var s, l := w.services, UserAt(req, SECOND);
    assert Entry(s, l).Some?;
    var t := Target(req.Client(), Entry(s, l).value, SECOND);
    assert t.Link(BACK) == l;
    assert Collected(s, BACK, OnReplica(SECOND), [t]);
    w' := UsersTornDown(w, OnReplica(SECOND), [t]);
    FoundOnTheFirst(s, req, t);
    assert HasNetId(w'.services, BACK, t.info.netId);
    StillShared(w.(services := w'.services), t);
  }

  lemma StillShared(w: World, t: Target)
    requires HasNetId(w.services, BACK, t.info.netId)
    ensures FreeUnshared(w, BACK, [t], {}) == w
  {
    assert [t][1..] == [];
  }

  /**
   A user is on both replicas, and the host's next list leaves the second out. The search for the user finds the first
   replica and removes the user there; the second is dropped with its entry. Both networks stay in use without an owner.
   */
  lemma RemovalLosesBoth(net: NetType, req: Request, now: nat) returns (run: seq<System>, one: nat, id: nat)
    requires req.service == BACK
    ensures Reachable(run) && EntriesAre(run[|run| - 1].services, {}) && HasRep(run[|run| - 1].services, BACK, FIRST)
    ensures one != 0 && Live(run[|run| - 1].pool, one) && !HasOwner(run[|run| - 1], one)
    ensures id != 0 && Live(run[|run| - 1].pool, id) && !HasOwner(run[|run| - 1], id)
  {
    run, one, id := CommitOverCommit(net, req, SECOND, now);
    var a := run[|run| - 1];
    var b := SecondIsUnlisted(a, req);
    HeldIsNetAt(a.services, one);
    HeldIsNetAt(a.services, id);
    IdsAreExclusive(run);
    NobodyOwns(a, b, one);
    NobodyOwns(a, b, id);
    InterleavingGoesOn(run, b);
    run := run + [b];
  }

  lemma SecondChanges(w: World, mid: World)
    requires Pair(w.services) && OpRel(w, ChainOp(BACK, OnReplica(SECOND)), mid)
    requires forall l :: Entry(w.services, l).Some? ==> l.client.proxy.Some?
    ensures ChangeRel(w, ReplicaRemoved(BACK, SECOND),
                      mid.(services := DropReplicas(mid.services, BACK, OtherThan(SECOND))))
  {
    var ops := [BackendOp(BACK, SECOND, None), ChainOp(BACK, OnReplica(SECOND))];
    SecondIsPlanned(w, mid);
    assert Plan(w, ReplicaRemoved(BACK, SECOND), ops, mid) && OpsRel(w, ops, mid);
  }

  lemma SecondRemoved(w: World, req: Request) returns (w': World)
    requires Pair(w.services) && EntriesAre(w.services, {UserAt(req, FIRST), UserAt(req, SECOND)})
    requires req.service == BACK
    ensures ChangeRel(w, ReplicaRemoved(BACK, SECOND), w') && w' == w.(services := w'.services)
    ensures EntriesAre(w'.services, {}) && HasRep(w'.services, BACK, FIRST) && forall x :: !Held(w'.services, x)
  {
    var mid := TakesTheWrongOne(w, req);
    SecondChanges(w, mid);
    SecondIsDropped(mid.services, req);
    w' := mid.(services := DropReplicas(mid.services, BACK, OtherThan(SECOND)));
  }

  lemma SecondIsUnlisted(a: System, req: Request) returns (b: System)
    requires Pair(a.services) && EntriesAre(a.services, {UserAt(req, FIRST), UserAt(req, SECOND)})
    requires req.service == BACK
    ensures Step(a, b) && b == a.(services := b.services)
    ensures EntriesAre(b.services, {}) && HasRep(b.services, BACK, FIRST) && forall x :: !Held(b.services, x)
  {
    var w' := SecondRemoved(World(a.services, a.pool, []), req);
    b := AppliesOne(a, ReplicaRemoved(BACK, SECOND), w');
    assert a.pending + Ids([]) == a.pending;
  }

  lemma NobodyOwns(a: System, b: System, x: nat)
    requires Owned(a) && b == a.(services := b.services) && AllSucceeded(a.tasks)
    requires Held(a.services, x) && !Held(b.services, x)
    ensures x != 0 && Live(b.pool, x) && !HasOwner(b, x)
  {
    DoneHoldNothing(b.tasks, x);
  }

  lemma DoneHoldNothing(tasks: seq<Task>, x: nat)
    requires AllSucceeded(tasks) && x != 0
    ensures forall i :: 0 <= i < |tasks| ==> tasks[i].HeldId() != x
  {
  }

  lemma SecondIsDropped(s: Services, req: Request)
    requires Pair(s) && EntriesAre(s, {UserAt(req, SECOND)})
    ensures var b := DropReplicas(s, BACK, OtherThan(SECOND));
      EntriesAre(b, {}) && HasRep(b, BACK, FIRST) && forall x :: !Held(b, x)
  {
    var b := DropReplicas(s, BACK, OtherThan(SECOND));
    PairFacts(s);
    KeepPorts(s, BACK, OtherThan(SECOND));
    TabAt(Reps(s, BACK), 0);
    assert Port(s, BACK, FIRST).Some?;
    TabNeedsRep(b, BACK, FIRST);
    forall l ensures Entry(b, l).None? {
      if Entry(b, l).Some? {
        assert Entry(s, l).Some?;
      }
    }
  }
}
