/**
 No two networks in use share an address, and a network is taken down at the endpoints it was set up for, in every
 interleaving and in every run with shared networks.
 */
module Addresses {
  import opened Types
  import opened NetIdPool
  import opened Net
  import opened ServiceTable
  import opened Chains
  import opened Teardown
  import opened Changes
  import opened Reconcile
  import opened Settlement
  import opened Setup
  import opened ChainSetup
  import opened Requests
  import opened Sharing
  import opened AtomicSetup
  import opened AtomicRequests
  import opened Runs
  import Interleaving

  /**
   An entry with a network has the server address of its block and the endpoint at which its client is; a reserved slot
   has no address, so that nobody shares it.
   */
  ghost predicate Placed(net: NetType, l: Link, info: ClientInfo) {
    if info.netId == 0 then info.serverNet == info.clientNet == UNSPECIFIED
    else
      && InBlock(net, info.netId, info.serverNet) && info.serverNet == info.clientNet != UNSPECIFIED
      && SourceOf(l.client) == Some(ReplicaId(info.clientIp, info.docker))
  }

  ghost predicate Addressed(net: NetType, s: Services) {
    forall l :: Entry(s, l).Some? ==> Placed(net, l, Entry(s, l).value)
  }

  /** The pool hands out IDs of the range only, whatever was given back to it. */
  ghost predicate Ranged(p: PoolState) {
    MIN_NET_ID <= p.nextFresh && forall id: nat :: id in p.freed ==> MIN_NET_ID <= id <= MaxNetId(p.net)
  }

  ghost predicate TaskRanged(net: NetType, t: Task) {
    Sourced(t.edge) && (t.phase.Allocated? ==> MIN_NET_ID <= t.phase.id <= MaxNetId(net))
  }

  ghost predicate TasksRanged(net: NetType, tasks: seq<Task>) {
    forall i :: 0 <= i < |tasks| ==> TaskRanged(net, tasks[i])
  }

  /** Every entry was there before, on the same network. */
  ghost predicate NetsKept(a: Services, b: Services) {
    forall l :: Entry(b, l).Some? ==> Entry(a, l).Some? && OnNetwork(Entry(a, l).value, Entry(b, l).value)
  }

  lemma KeptAddressed(net: NetType, a: Services, b: Services)
    requires Addressed(net, a) && NetsKept(a, b)
    ensures Addressed(net, b)
  {
    forall l | Entry(b, l).Some? ensures Placed(net, l, Entry(b, l).value) {
      assert Entry(a, l).Some? && Placed(net, l, Entry(a, l).value);
    }
  }

  lemma ShrunkKept(a: Services, b: Services)
    requires Shrunk(a, b)
    ensures NetsKept(a, b)
  {
    forall l | Entry(b, l).Some?
      ensures Entry(a, l).Some? && SameNetwork(Entry(a, l).value, Entry(b, l).value) {}
  }

  lemma GrownKept(a: Services, b: Services)
    requires SameNets(a, b)
    ensures NetsKept(a, b)
  {
    forall l | Entry(b, l).Some? ensures Entry(a, l).Some? && OnNetwork(Entry(a, l).value, Entry(b, l).value) {}
  }

  lemma PutAddressed(net: NetType, a: Services, b: Services, l: Link, v: Option<ClientInfo>)
    requires Addressed(net, a) && Put(a, b, l, v)
    requires v.Some? ==> Placed(net, l, v.value)
    ensures Addressed(net, b)
  {
    PutEntries(a, b, l, v);
    forall x | Entry(b, x).Some? ensures Placed(net, x, Entry(b, x).value) {
      assert x != l ==> Entry(a, x) == Entry(b, x) && Placed(net, x, Entry(a, x).value);
    }
  }

  // ----- the steps of a task -----

  lemma AddChainAddressed(net: NetType, s: Services, n: Name, c: Client, now: nat)
    requires Unique(s) && Addressed(net, s)
    ensures Addressed(net, AddChain(s, n, c, now))
  {
    AddChainSpec(s, n, c, now);
    var h := Holder(s, n, c);
    if h.Some? {
      assert Placed(net, Link(c, n, h.value), Entry(s, Link(c, n, h.value)).value);
      PutAddressed(net, s, AddChain(s, n, c, now), Link(c, n, h.value), Some(Tab(s, n, h.value)[c].AddActiveChain(now)));
    }
  }

  lemma AddClientAddressed(net: NetType, s: Services, n: Name, r: ReplicaId, c: Client, info: ClientInfo)
    requires Unique(s) && Addressed(net, s) && Placed(net, Link(c, n, r), info)
    ensures Addressed(net, AddClientToReplica(s, n, r, c, info)) && Unique(AddClientToReplica(s, n, r, c, info))
  {
    AddClientSpec(s, n, r, c, info);
    AddClientShape(s, n, r, c, info);
    if HasRep(s, n, r) {
      PutAddressed(net, s, AddClientToReplica(s, n, r, c, info), Link(c, n, r), Some(info));
    }
  }

  lemma RemoveAddressed(net: NetType, s: Services, n: Name, c: Client)
    requires Unique(s) && Addressed(net, s)
    ensures Addressed(net, RemoveClient(s, n, c))
  {
    RemoveClientSpec(s, n, c);
    if Holder(s, n, c).Some? {
      PutAddressed(net, s, RemoveClient(s, n, c), Link(c, n, Holder(s, n, c).value), None);
    }
  }

  lemma CommittedAddressed(net: NetType, e: RegisteredEdge, id: nat, now: nat)
    requires MIN_NET_ID <= id <= MaxNetId(net) && Sourced(e)
    ensures Placed(net, e.Link(), Committed(net, e, id, now))
  {
    MadeIsServed(net, e, Committed(net, e, id, now).AddActiveChain(now));
    ServerAddressInBlock(net, id, e.at.docker);
  }

  lemma AllocateRanged(p: PoolState)
    requires Ranged(p)
    ensures Ranged(Allocate(p).0) && Allocate(p).0.net == p.net
    ensures Allocate(p).1.Some? ==> MIN_NET_ID <= Allocate(p).1.value <= MaxNetId(p.net)
  {
  }

  lemma AdvanceAddressed(w: World, t: Task, ack: bool, now: nat)
    requires Unique(w.services) && Addressed(w.pool.net, w.services) && Ranged(w.pool) && TaskRanged(w.pool.net, t)
    ensures var w', t' := Advance(w, t, ack, now).0, Advance(w, t, ack, now).1;
      && Addressed(w.pool.net, w'.services) && Ranged(w'.pool) && w'.pool.net == w.pool.net
      && TaskRanged(w.pool.net, t')
  {
    var e, s, net := t.edge, w.services, w.pool.net;
    match t.phase
    case Start =>
      AddChainAddressed(net, s, e.server, e.client, now);
      AddClientAddressed(net, s, e.server, e.at, e.client, Placeholder(e.clientIp, now));
    case Reserved => AllocateRanged(w.pool);
    case Allocated(id) =>
      CommittedAddressed(net, e, id, now);
      AddClientAddressed(net, s, e.server, e.at, e.client, Committed(net, e, id, now));
      AddChainAddressed(net, AddClientToReplica(s, e.server, e.at, e.client, Committed(net, e, id, now)),
                        e.server, e.client, now);
    case Aborting => RemoveAddressed(net, s, e.server, e.client);
    case _ =>
  }

  // ----- every interleaving -----

  ghost predicate SystemAddressed(a: Interleaving.System) {
    Addressed(a.pool.net, a.services) && Ranged(a.pool) && TasksRanged(a.pool.net, a.tasks)
  }

  lemma SectionKept(w: World, section: Interleaving.Section, w': World)
    requires Unique(w.services) && Exclusive(w.services) && Interleaving.SectionRel(w, section, w')
    ensures NetsKept(w.services, w'.services)
  {
    ExclusiveIsShared(w.services);
    match section
    case Rollback(edges) =>
      DecrementEdgesShrink(w, edges);
      ShrunkKept(w.services, w'.services);
    case Apply(changes) =>
      var sent := Interleaving.ApplySettles(w, changes, w');
      ShrunkKept(w.services, w'.services);
    case Reload(changes, loaded) =>
      var mid: World :| ApplyRel(w, changes, mid) && w' == mid.(services := Merge(mid.services, loaded));
      var sent := Interleaving.ApplySettles(w, changes, mid);
      Interleaving.MergeReps(mid.services, loaded);
      SameTablesShrunk(w.services, mid.services, w'.services);
      ShrunkKept(w.services, w'.services);
    case Register(changes, ip, list) =>
      var mid: World :| ApplyRel(w, changes, mid) && w' == mid.(services := AddListed(mid.services, ip, list));
      var sent := Interleaving.ApplySettles(w, changes, mid);
      AddListedPorts(mid.services, ip, list);
      SameTablesShrunk(w.services, mid.services, w'.services);
      ShrunkKept(w.services, w'.services);
    case Refresh(n, c, now) =>
      if Holder(w.services, n, c).Some? {
        LatestRefreshes(w.services, n, c, now);
        RefreshedNets(w.services, w'.services);
        GrownKept(w.services, w'.services);
      } else {
        SetLatestSpec(w.services, n, c, now);
      }
  }

  lemma SectionStepKept(a: Interleaving.System, section: Interleaving.Section, b: Interleaving.System)
    requires Interleaving.Owned(a) && Interleaving.SectionStep(a, section, b)
    ensures NetsKept(a.services, b.services) && b.pool == a.pool && b.tasks == a.tasks
  {
    var w := World(a.services, a.pool, []);
    var w': World :| Interleaving.SectionRel(w, section, w')
      && b == a.(services := w'.services, pending := a.pending + Interleaving.Ids(w'.downs));
    SectionKept(w, section, w');
  }

  lemma TaskStepAddressed(a: Interleaving.System, k: nat, ack: bool, now: nat)
    requires Interleaving.Owned(a) && SystemAddressed(a) && k < |a.tasks|
    ensures SystemAddressed(Interleaving.TaskStep(a, k, ack, now))
    ensures Interleaving.TaskStep(a, k, ack, now).pool.net == a.pool.net
  {
    AdvanceAddressed(World(a.services, a.pool, []), a.tasks[k], ack, now);
  }

  lemma SectionStepAddressed(a: Interleaving.System, section: Interleaving.Section, b: Interleaving.System)
    requires Interleaving.Owned(a) && SystemAddressed(a) && Interleaving.SectionStep(a, section, b)
    ensures SystemAddressed(b) && b.pool.net == a.pool.net
  {
    SectionStepKept(a, section, b);
    KeptAddressed(a.pool.net, a.services, b.services);
  }

  lemma StepAddressed(a: Interleaving.System, b: Interleaving.System)
    requires Interleaving.Owned(a) && SystemAddressed(a) && Interleaving.Step(a, b)
    ensures SystemAddressed(b) && b.pool.net == a.pool.net
  {
    if edges: seq<RegisteredEdge> :| AllSourced(edges) && b == a.(tasks := a.tasks + Spawn(edges)) {
    } else if k: nat, ack, now :| k < |a.tasks| && b == Interleaving.TaskStep(a, k, ack, now) {
      TaskStepAddressed(a, k, ack, now);
    } else if section :| Interleaving.SectionStep(a, section, b) {
      SectionStepAddressed(a, section, b);
    } else {
      var k: nat :| k < |a.pending| && b == Interleaving.FreeStep(a, k);
    }
  }

  lemma {:induction false} InterleavingsAreAddressed(run: seq<Interleaving.System>)
    requires Interleaving.Reachable(run)
    ensures SystemAddressed(run[|run| - 1])
    decreases |run|
  {
    if |run| == 1 {
      var net, loaded :| FromFile(loaded) && run[0] == Interleaving.System(loaded, Fresh(net), [], []);
      Interleaving.FreshTable(loaded);
    } else {
      var before, last := run[..|run| - 1], |run| - 1;
      Interleaving.ShorterRun(run);
      InterleavingsAreAddressed(before);
      Interleaving.IdsAreExclusive(before);
      assert before[last - 1] == run[last - 1];
      StepAddressed(run[last - 1], run[last]);
    }
  }

  /** In every interleaving two entries that have a network have different server addresses, in disjoint blocks. */
  lemma AddressesNeverClash(run: seq<Interleaving.System>, x: Link, y: Link)
    requires Interleaving.Reachable(run) && x != y
    requires var s := run[|run| - 1].services;
      && Entry(s, x).Some? && Entry(s, x).value.netId != 0
      && Entry(s, y).Some? && Entry(s, y).value.netId != 0
    ensures var s, net := run[|run| - 1].services, run[|run| - 1].pool.net;
      && Entry(s, x).value.serverNet != Entry(s, y).value.serverNet
      && forall a :: !(InBlock(net, Entry(s, x).value.netId, a) && InBlock(net, Entry(s, y).value.netId, a))
  {
    var s, net := run[|run| - 1].services, run[|run| - 1].pool.net;
    Interleaving.IdsAreExclusive(run);
    InterleavingsAreAddressed(run);
    assert !SameId(s, x, y);
    forall a ensures !(InBlock(net, Entry(s, x).value.netId, a) && InBlock(net, Entry(s, y).value.netId, a)) {
      if InBlock(net, Entry(s, x).value.netId, a) {
        BlocksAreDisjoint(net, Entry(s, x).value.netId, Entry(s, y).value.netId, a);
      }
    }
  }

  // ----- runs with shared networks -----

  lemma TaskInRange(w0: World, edges: seq<RegisteredEdge>, user: nat, x: ChainState, k: nat)
    requires AloneInv(w0, edges, user, x) && k < |edges| && AllSourced(edges)
    ensures TaskRanged(x.world.pool.net, x.tasks[k])
  {
    if x.tasks[k].phase.Allocated? {
      assert Interleaving.Proper(AsSystem(x).tasks[k]);
      assert Live(x.world.pool, x.tasks[k].HeldId());
    }
  }

  lemma ChainStepAddressed(w0: World, edges: seq<RegisteredEdge>, user: nat, x: ChainState, y: ChainState, start: nat)
    requires AloneInv(w0, edges, user, x) && ChainStep(x, y, start) && AllSourced(edges)
    requires Addressed(w0.pool.net, x.world.services)
    ensures Addressed(w0.pool.net, y.world.services)
  {
    var k: nat, ack, now :| start <= now && k < |x.tasks| && !x.tasks[k].Done() && y == StepOf(x, k, ack, now);
    TaskInRange(w0, edges, user, x, k);
    AdvanceAddressed(x.world, x.tasks[k], ack, now);
  }

  lemma {:induction false} TraceAddressed(w0: World, edges: seq<RegisteredEdge>, user: nat, trace: seq<ChainState>,
                                       start: nat)
    requires Orderly(w0) && OneUser(w0.services, edges, user) && AllSourced(edges)
    requires Addressed(w0.pool.net, w0.services)
    requires ChainTrace(trace, start) && trace[0] == ChainState(w0, Spawn(edges))
    ensures Addressed(w0.pool.net, trace[|trace| - 1].world.services)
    ensures Unique(trace[|trace| - 1].world.services)
    decreases |trace|
  {
    TraceAlone(w0, edges, user, trace, start);
    ShapeFacts(w0.services, trace[|trace| - 1].world.services);
    if |trace| > 1 {
      var before := trace[..|trace| - 1];
      TracePrefix(trace, start);
      TraceAlone(w0, edges, user, before, start);
      TraceAddressed(w0, edges, user, before, start);
      ChainStepAddressed(w0, edges, user, trace[|trace| - 2], trace[|trace| - 1], start);
    }
  }

  lemma ChainAddressed(w: World, edges: seq<RegisteredEdge>, user: nat, start: nat, w': World, ok: bool,
                       upstream: Option<Ipv4>)
    requires Orderly(w) && OneUser(w.services, edges, user) && AllSourced(edges)
    requires Addressed(w.pool.net, w.services)
    requires ChainSetupRel(w, edges, start, w', ok, upstream)
    ensures Addressed(w.pool.net, w'.services)
  {
    var trace: seq<ChainState> :|
      && ChainTrace(trace, start)
      && trace[0] == ChainState(w, Spawn(edges))
      && AllDone(trace[|trace| - 1].tasks)
      && Concluded(trace[|trace| - 1], w', ok, upstream);
    var last := trace[|trace| - 1];
    TraceAddressed(w, edges, user, trace, start);
    if !ok {
      var order :| Successful(last.tasks, order) && w' == DecrementEdges(last.world, EdgesAt(last.tasks, order));
      DecrementEdgesShrink(last.world, EdgesAt(last.tasks, order));
      ShrunkKept(last.world.services, w'.services);
      KeptAddressed(w.pool.net, last.world.services, w'.services);
    }
  }

  lemma JoinAddressed(w: World, l: Link, req: Request, now: nat, w': World)
    requires Orderly(w) && Addressed(w.pool.net, w.services)
    requires Reusable(w.services, req.service, req.proxy, l) && !HasHolder(w.services, req)
    requires ReuseRel(w, l, req.Client(), req.proxy, now, w')
    ensures Addressed(w.pool.net, w'.services)
  {
    var s, c, net := w.services, req.Client(), w.pool.net;
    var s1 := Joined(s, l, c, req.proxy, now);
    var info := JoinedSpec(s, l, c, req.proxy, now);
    assert Placed(net, l, Entry(s, l).value);
    PutAddressed(net, s, s1, Link(c, l.server, l.at), Some(info));
    ShapeFacts(s, s1);
    WalkIsService(s1, l.server, l.at);
    AddChainsKeepNets(s1, DepChainEdges(s1, l.server, l.at), now);
    GrownKept(s1, w'.services);
    KeptAddressed(net, s1, w'.services);
  }

  lemma RequestAddressed(w: World, req: Request, now: nat, w': World, answer: Answer)
    requires Orderly(w) && RequestRel(w, req, now, w', answer) && Addressed(w.pool.net, w.services)
    ensures Addressed(w.pool.net, w'.services)
  {
    var s, n := w.services, req.service;
    if n in s && s[n].config.timeout.Some? && s[n].Registered? {
      if HasHolder(s, req) {
        StickyIsOrderly(w, req, now, w', answer);
        RefreshedNets(s, w'.services);
        GrownKept(s, w'.services);
        KeptAddressed(w.pool.net, s, w'.services);
      } else if MustShare(s, n, req.proxy) {
        var l: Link :| LeastUsed(s, n, req.proxy, l) && ReuseRel(w, l, req.Client(), req.proxy, now, w')
          && answer == AnswerFrom(s, n, l.at, Entry(s, l).value);
        JoinAddressed(w, l, req, now, w');
      } else {
        NewChainAddressed(w, req, now, w', answer);
      }
    }
  }

  lemma ChainForSourced(s: Services, req: Request, at: ReplicaId)
    requires ChainFor(s, req, at).Some?
    ensures AllSourced(ChainFor(s, req, at).value)
  {
    BuiltAreSourced(s, Deps(s, req.service), req.service, Some(at));
  }

  lemma TriggeredAreSourced(s: Services, n: Name, at: ReplicaId, port: nat)
    requires TriggeredEdges(s, n, at, port).Some?
    ensures AllSourced(TriggeredEdges(s, n, at, port).value)
  {
    BuiltAreSourced(s, TriggerChain(s, n, port), n, Some(at));
  }

  lemma NewChainAddressed(w: World, req: Request, now: nat, w': World, answer: Answer)
    requires Orderly(w) && NewChainRel(w, req, now, w', answer) && !HasHolder(w.services, req)
    requires Addressed(w.pool.net, w.services)
    ensures Addressed(w.pool.net, w'.services)
  {
    var s, pick := w.services, PickReplica(w.services, req.service);
    if pick.Some? && ChainFor(s, req, pick.value).Some? {
      var edges := ChainFor(s, req, pick.value).value;
      var ok, upstream :| ChainSetupRel(w, edges, now, w', ok, upstream)
        && answer == ChainAnswer(ok, upstream, Port(s, req.service, pick.value));
      PickedIsThere(s, req.service);
      ChainForHasOneUser(s, req, pick.value);
      ChainForSourced(s, req, pick.value);
      ChainAddressed(w, edges, |edges| - 1, now, w', ok, upstream);
    }
  }

  lemma TriggerAddressed(w: World, n: Name, port: nat, sender: Ip, now: nat, w': World)
    requires Orderly(w) && TriggerRel(w, n, port, sender, now, w') && Addressed(w.pool.net, w.services)
    ensures Addressed(w.pool.net, w'.services)
  {
    if w' != w {
      var at := ReplicaOn(Reps(w.services, n), sender).value;
      var edges := TriggeredEdges(w.services, n, at, port).value;
      var ok, upstream :| ChainSetupRel(w, edges, now, w', ok, upstream);
      TriggeredAreServices(w.services, n, at, port);
      TriggeredAreSourced(w.services, n, at, port);
      ChainAddressed(w, edges, |edges|, now, w', ok, upstream);
    }
  }

  lemma EventAddressed(w: World, event: Event, w': World)
    requires Orderly(w) && EventRel(w, event, w') && Addressed(w.pool.net, w.services)
    ensures Addressed(w.pool.net, w'.services)
  {
    if event.Serve? {
      var answer :| RequestRel(w, event.req, event.now, w', answer);
      RequestAddressed(w, event.req, event.now, w', answer);
    } else if event.Trigger? {
      TriggerAddressed(w, event.name, event.port, event.sender, event.now, w');
    } else {
      EventOrderly(w, event, w');
      ShrunkKept(w.services, w'.services);
      KeptAddressed(w.pool.net, w.services, w'.services);
    }
  }

  lemma {:induction false} RunsAreAddressed(run: seq<World>)
    requires AtomicRun(run)
    ensures Addressed(run[0].pool.net, run[|run| - 1].services) && run[|run| - 1].pool.net == run[0].pool.net
    decreases |run|
  {
    InitiallyEmpty(run[0]);
    if |run| > 1 {
      var before, last := run[..|run| - 1], |run| - 1;
      Shorter(run);
      RunsAreAddressed(before);
      RunsAreOrderly(before);
      assert before[last - 1] == run[last - 1];
      assert Step(run[last - 1], run[last]);
      var a, b := run[last - 1], run[last];
      var event :| EventRel(a, event, b);
      EventOrderly(a, event, b);
      EventAddressed(a, event, b);
    }
  }

  /** In every run two entries have the same server address only if they are on the same network. */
  lemma SharedAddressIsSharedNetwork(run: seq<World>, x: Link, y: Link)
    requires AtomicRun(run)
    requires var s := run[|run| - 1].services;
      && Entry(s, x).Some? && Entry(s, x).value.netId != 0
      && Entry(s, y).Some? && Entry(s, y).value.netId != 0
      && Entry(s, x).value.serverNet == Entry(s, y).value.serverNet
    ensures x == y || SharedByProxy(x, y)
  {
    var s, net := run[|run| - 1].services, run[0].pool.net;
    RunsAreOrderly(run);
    RunsAreAddressed(run);
    var a, b := Entry(s, x).value, Entry(s, y).value;
    if a.netId != b.netId {
      BlocksAreDisjoint(net, a.netId, b.netId, a.serverNet);
    } else {
      assert SameId(s, x, y);
    }
  }

  /** In every run the teardown of an entry's network goes to where its client is and to the replica that serves it. */
  lemma TeardownReachesBothEnds(run: seq<World>, l: Link)
    requires AtomicRun(run)
    requires Entry(run[|run| - 1].services, l).Some? && Entry(run[|run| - 1].services, l).value.netId != 0
    ensures var info := Entry(run[|run| - 1].services, l).value;
      SourceOf(l.client).Some? &&
      DownOf(info, l.at) ==
      Down(SourceOf(l.client).value.ip, SourceOf(l.client).value.docker, l.at.ip, l.at.docker, info.netId)
  {
    RunsAreAddressed(run);
    assert Placed(run[0].pool.net, l, Entry(run[|run| - 1].services, l).value);
  }
}
