/**
 On how many replicas of a service a service client is (src/services/service_info.rs:264 calls one an invariant): the
 pick of the least used replica (src/services/service_info.rs:551) does not look where the client already is.
 */
module Stickiness {
  import opened Types
  import opened ServiceTable
  import opened Chains
  import opened Teardown
  import opened Settlement
  import opened Setup
  import opened ChainSetup
  import opened Requests
  import opened AtomicSetup
  import opened AtomicRequests
  import opened Runs
  import opened Success

  ghost predicate OnOneReplica(s: Services, n: Name, c: Client) {
    forall r, q :: c in Tab(s, n, r) && c in Tab(s, n, q) ==> r == q
  }

  /** Every service client is on at most one replica of a service. */
  ghost predicate ServiceOnce(s: Services) {
    forall n, c: Client :: c.proxy.None? ==> OnOneReplica(s, n, c)
  }

  // ----- one edge -----

  /**
   After an edge of a service client has started, the client is on one replica if and only if it was on no other one
   than the replica that was picked for the edge.
   */
  lemma StartSticksIff(w: World, e: RegisteredEdge, ack: bool, now: nat)
    requires Unique(w.services) && HasRep(w.services, e.server, e.at) && e.client.proxy.None?
    ensures OnOneReplica(Advance(w, Task(e, Start), ack, now).0.services, e.server, e.client) <==>
      OnlyHere(w.services, e)
  {
    StartEntry(w, e, ack, now);
    GainedOnce(w.services, Advance(w, Task(e, Start), ack, now).0.services, e);
  }

  lemma GainedOnce(s: Services, b: Services, e: RegisteredEdge)
    requires Gained(s, b, e.Link())
    ensures OnOneReplica(b, e.server, e.client) <==> OnlyHere(s, e)
  {
    forall r ensures e.client in Tab(b, e.server, r) <==> e.client in Tab(s, e.server, r) || r == e.at {
      var l := Link(e.client, e.server, r);
      assert Entry(b, l).Some? <==> Entry(s, l).Some? || l == e.Link();
    }
    assert e.client in Tab(b, e.server, e.at);
  }

  /** The start of a user's edge never puts the user on a second replica. */
  lemma UserStartStays(w: World, e: RegisteredEdge, ack: bool, now: nat)
    requires Unique(w.services) && e.client.proxy.Some? && OnOneReplica(w.services, e.server, e.client)
    ensures OnOneReplica(Advance(w, Task(e, Start), ack, now).0.services, e.server, e.client)
  {
    var s, b := w.services, Advance(w, Task(e, Start), ack, now).0.services;
    HolderSpec(s, e.server, e.client);
    AddChainKeepsEntries(s, e.server, e.client, now);
    AddClientGains(s, e.server, e.at, e.client, Placeholder(e.clientIp, now));
    forall r | e.client in Tab(b, e.server, r) ensures e.client in Tab(s, e.server, r) || (!AlreadySetup(s, e) && r == e.at) {
      assert Entry(b, Link(e.client, e.server, r)).Some?;
    }
  }

  /**
   Other setups, timeouts and removals run between the start of a setup and its commit; after the commit its client, a
   user or not, is on one replica if and only if it is on no other one by then.
   */
  lemma CommitSticksIff(w: World, e: RegisteredEdge, id: nat, now: nat)
    requires Unique(w.services) && HasRep(w.services, e.server, e.at)
    ensures OnOneReplica(Advance(w, Task(e, Allocated(id)), true, now).0.services, e.server, e.client) <==>
      OnlyHere(w.services, e)
  {
    CommitGains(w, e, id, now);
    GainedOnce(w.services, Advance(w, Task(e, Allocated(id)), true, now).0.services, e);
  }

  /** The picked replica is the one where the search across replicas finds the client, if it finds it at all. */
  predicate SticksTo(s: Services, e: RegisteredEdge) {
    var h := Holder(s, e.server, e.client);
    h.None? || h == Some(e.at)
  }

  predicate Sticks(s: Services, edges: seq<RegisteredEdge>) {
    forall k :: 0 <= k < |edges| && edges[k].client.proxy.None? ==> SticksTo(s, edges[k])
  }

  lemma SticksIsOnlyHere(s: Services, e: RegisteredEdge)
    requires Unique(s) && OnOneReplica(s, e.server, e.client)
    ensures SticksTo(s, e) <==> OnlyHere(s, e)
  {
    HolderSpec(s, e.server, e.client);
  }

  // ----- one chain -----

  /** Every edge leads to the replica that is picked for its service; they are picked from one table. */
  ghost predicate Picked(s: Services, edges: seq<RegisteredEdge>) {
    forall e :: e in edges && e.client.proxy.None? ==> PickReplica(s, e.server) == Some(e.at) && HasRep(s, e.server, e.at)
  }

  lemma {:induction false} BuiltArePicked(s: Services, deps: seq<Name>, n: Name, at: Option<ReplicaId>)
    requires AllRegistered(BuildChain(s, deps, n, at)).Some?
    ensures Picked(s, AllRegistered(BuildChain(s, deps, n, at)).value)
    decreases |deps|
  {
    if deps != [] {
      var next := PickReplica(s, deps[0]);
      assert BuildChain(s, deps, n, at)[1..] == BuildChain(s, deps[1..], deps[0], next);
      PickedIsThere(s, deps[0]);
      BuiltArePicked(s, deps[1..], deps[0], next);
    }
  }

  ghost predicate NoneFailed(tasks: seq<Task>) {
    forall k :: 0 <= k < |tasks| ==> !tasks[k].phase.Failed?
  }

  /** No entry comes but those of the chain; unless an edge fails none goes, and every edge that started has one. */
  ghost predicate EntriesInv(w: World, edges: seq<RegisteredEdge>, x: ChainState) {
    && SameShape(w.services, x.world.services) && Unique(x.world.services)
    && |x.tasks| == |edges| && (forall k :: 0 <= k < |edges| ==> x.tasks[k].edge == edges[k])
    && (forall l :: Entry(x.world.services, l).Some? ==> Entry(w.services, l).Some? || OnChain(edges, l))
    && (NoneFailed(x.tasks) ==> NothingLost(w.services, edges, x))
  }

  ghost predicate NothingLost(s: Services, edges: seq<RegisteredEdge>, x: ChainState)
    requires |x.tasks| == |edges|
  {
    && (forall l :: Entry(s, l).Some? ==> Entry(x.world.services, l).Some?)
    && forall k :: 0 <= k < |edges| && edges[k].client.proxy.None? && !x.tasks[k].phase.Start? ==>
         Entry(x.world.services, edges[k].Link()).Some?
  }

  lemma EntriesStep(w: World, edges: seq<RegisteredEdge>, x: ChainState, y: ChainState, start: nat)
    requires Picked(w.services, edges) && EntriesInv(w, edges, x) && ChainStep(x, y, start)
    ensures EntriesInv(w, edges, y)
  {
    var k: nat, ack, now :| start <= now && k < |x.tasks| && !x.tasks[k].Done() && y == StepOf(x, k, ack, now);
    AdvanceShape(x.world, x.tasks[k], ack, now);
    AdvanceEntries(x.world, x.tasks[k], ack, now);
    ShapeTrans(w.services, x.world.services, y.world.services);
    ShapeFacts(w.services, y.world.services);
    assert edges[k].Link() == x.tasks[k].edge.Link() && OnChain(edges, edges[k].Link());
    if NoneFailed(y.tasks) {
      StillNoneFailed(x, k, y);
      StartedHasEntry(w, edges, x, k, ack, now);
    }
  }

  lemma StillNoneFailed(x: ChainState, k: nat, y: ChainState)
    requires k < |x.tasks| && !x.tasks[k].Done() && |y.tasks| == |x.tasks| && NoneFailed(y.tasks)
    requires forall j :: 0 <= j < |x.tasks| && j != k ==> y.tasks[j] == x.tasks[j]
    ensures NoneFailed(x.tasks) && !y.tasks[k].phase.Failed?
  {
    forall j | 0 <= j < |x.tasks| ensures !x.tasks[j].phase.Failed? {
      assert !y.tasks[j].phase.Failed?;
    }
  }

  lemma StartedHasEntry(w: World, edges: seq<RegisteredEdge>, x: ChainState, k: nat, ack: bool, now: nat)
    requires Picked(w.services, edges) && EntriesInv(w, edges, x) && k < |edges| && !x.tasks[k].Done()
    requires NoneFailed(x.tasks) && !StepOf(x, k, ack, now).tasks[k].phase.Failed?
    ensures NothingLost(w.services, edges, StepOf(x, k, ack, now))
  {
    var y, e := StepOf(x, k, ack, now), edges[k];
    AdvanceEntries(x.world, x.tasks[k], ack, now);
    if x.tasks[k].phase.Start? && e.client.proxy.None? {
      assert e in edges && x.tasks[k] == Task(e, Start);
      ShapeFacts(w.services, x.world.services);
      StartEntry(x.world, e, ack, now);
      assert Entry(y.world.services, e.Link()).Some?;
    }
  }

  lemma {:induction false} TraceEntries(w: World, edges: seq<RegisteredEdge>, trace: seq<ChainState>, start: nat)
    requires Unique(w.services) && Picked(w.services, edges)
    requires ChainTrace(trace, start) && trace[0] == ChainState(w, Spawn(edges))
    ensures EntriesInv(w, edges, trace[|trace| - 1])
    decreases |trace|
  {
    if |trace| > 1 {
      TracePrefix(trace, start);
      TraceEntries(w, edges, trace[..|trace| - 1], start);
      EntriesStep(w, edges, trace[|trace| - 2], trace[|trace| - 1], start);
    }
  }

  lemma ChainEntries(w: World, edges: seq<RegisteredEdge>, start: nat, w': World, ok: bool, upstream: Option<Ipv4>)
    requires Unique(w.services) && Picked(w.services, edges) && ChainSetupRel(w, edges, start, w', ok, upstream)
    ensures forall l :: Entry(w'.services, l).Some? ==> Entry(w.services, l).Some? || OnChain(edges, l)
    ensures ok ==> forall l :: Entry(w.services, l).Some? ==> Entry(w'.services, l).Some?
    ensures ok ==> forall k :: 0 <= k < |edges| && edges[k].client.proxy.None? ==> Entry(w'.services, edges[k].Link()).Some?
  {
    var trace: seq<ChainState> :|
      && ChainTrace(trace, start)
      && trace[0] == ChainState(w, Spawn(edges))
      && AllDone(trace[|trace| - 1].tasks)
      && Concluded(trace[|trace| - 1], w', ok, upstream);
    var last := trace[|trace| - 1];
    TraceEntries(w, edges, trace, start);
    if ok {
      assert NoneFailed(last.tasks);
    } else {
      var order :| Successful(last.tasks, order) && w' == DecrementEdges(last.world, EdgesAt(last.tasks, order));
      DecrementEdgesShrink(last.world, EdgesAt(last.tasks, order));
    }
  }

  lemma StickyChain(a: Services, b: Services, edges: seq<RegisteredEdge>)
    requires Unique(a) && ServiceOnce(a) && Picked(a, edges) && Sticks(a, edges)
    requires forall l :: Entry(b, l).Some? ==> Entry(a, l).Some? || OnChain(edges, l)
    ensures ServiceOnce(b)
  {
    forall n, c: Client, r, q | c.proxy.None? && c in Tab(b, n, r) && c in Tab(b, n, q) ensures r == q {
      StickyPlace(a, b, edges, Link(c, n, r), Link(c, n, q));
    }
  }

  lemma StickyPlace(a: Services, b: Services, edges: seq<RegisteredEdge>, x: Link, y: Link)
    requires Unique(a) && ServiceOnce(a) && Picked(a, edges) && Sticks(a, edges)
    requires forall l :: Entry(b, l).Some? ==> Entry(a, l).Some? || OnChain(edges, l)
    requires Entry(b, x).Some? && Entry(b, y).Some? && x.client == y.client && x.server == y.server
    requires x.client.proxy.None?
    ensures x.at == y.at
  {
    assert OnOneReplica(a, x.server, x.client);
    if k :| 0 <= k < |edges| && edges[k].Link() == x {
      EdgePlace(a, b, edges, k, y);
    } else if k :| 0 <= k < |edges| && edges[k].Link() == y {
      EdgePlace(a, b, edges, k, x);
    }
  }

  lemma EdgePlace(a: Services, b: Services, edges: seq<RegisteredEdge>, k: nat, y: Link)
    requires Unique(a) && ServiceOnce(a) && Picked(a, edges) && Sticks(a, edges)
    requires forall l :: Entry(b, l).Some? ==> Entry(a, l).Some? || OnChain(edges, l)
    requires k < |edges| && edges[k].client == y.client && edges[k].server == y.server && y.client.proxy.None?
    requires Entry(b, y).Some?
    ensures y.at == edges[k].at
  {
    SticksIsOnlyHere(a, edges[k]);
    if j :| 0 <= j < |edges| && edges[j].Link() == y {
      assert edges[j] in edges && edges[k] in edges;
    }
  }

  lemma StrayEdge(a: Services, b: Services, edges: seq<RegisteredEdge>, k: nat)
    requires Unique(a) && k < |edges| && edges[k].client.proxy.None? && !SticksTo(a, edges[k])
    requires forall l :: Entry(a, l).Some? ==> Entry(b, l).Some?
    requires Entry(b, edges[k].Link()).Some?
    ensures !ServiceOnce(b)
  {
    var e := edges[k];
    var r := Holder(a, e.server, e.client).value;
    HolderSpec(a, e.server, e.client);
    assert Entry(a, Link(e.client, e.server, r)).Some?;
    assert e.client in Tab(b, e.server, r) && e.client in Tab(b, e.server, e.at);
    assert !OnOneReplica(b, e.server, e.client);
  }

  /**
   After a chain has been set up every service client is on one replica of a service, as it was before, if and only if
   each edge leads to the replica that holds its client already, or nobody holds it.
   */
  lemma ChainSticksIff(w: World, edges: seq<RegisteredEdge>, start: nat, w': World, upstream: Option<Ipv4>)
    requires Unique(w.services) && ServiceOnce(w.services) && Picked(w.services, edges)
    requires ChainSetupRel(w, edges, start, w', true, upstream)
    ensures ServiceOnce(w'.services) <==> Sticks(w.services, edges)
  {
    ChainEntries(w, edges, start, w', true, upstream);
    if Sticks(w.services, edges) {
      StickyChain(w.services, w'.services, edges);
    } else {
      var k :| 0 <= k < |edges| && edges[k].client.proxy.None? && !SticksTo(w.services, edges[k]);
      StrayEdge(w.services, w'.services, edges, k);
    }
  }

  // ----- requests, triggers and runs -----

  /** The chain that a request asks for, if it asks for one. */
  ghost function RequestedChain(s: Services, req: Request): Option<seq<RegisteredEdge>> {
    var at := PickReplica(s, req.service);
    if at.Some? && AsksForChain(s, req, at.value) then ChainFor(s, req, at.value) else None
  }

  ghost predicate ChainSticks(s: Services, chain: Option<seq<RegisteredEdge>>) {
    chain.Some? ==> Sticks(s, chain.value)
  }

  lemma SameClientsOnce(a: Services, b: Services)
    requires ServiceOnce(a)
    requires forall l: Link :: l.client.proxy.None? && Entry(b, l).Some? ==> Entry(a, l).Some?
    ensures ServiceOnce(b)
  {
    forall n, c: Client, r, q | c.proxy.None? && c in Tab(b, n, r) && c in Tab(b, n, q) ensures r == q {
      assert Entry(b, Link(c, n, r)).Some? && Entry(b, Link(c, n, q)).Some?;
      assert OnOneReplica(a, n, c);
    }
  }

  lemma {:induction false} AddChainsKeepEntries(s: Services, edges: seq<(Client, Name)>, now: nat)
    requires Unique(s)
    ensures forall x :: Entry(AddChains(s, edges, now), x).Some? ==> Entry(s, x).Some?
    decreases |edges|
  {
    if edges != [] {
      AddChainKeepsEntries(s, edges[0].1, edges[0].0, now);
      AddChainShape(s, edges[0].1, edges[0].0, now);
      AddChainsKeepEntries(AddChain(s, edges[0].1, edges[0].0, now), edges[1..], now);
    }
  }

  lemma JoinKeepsServices(w: World, l: Link, c: Client, proxy: Ip, now: nat, w': World)
    requires Unique(w.services) && Entry(w.services, l).Some? && c.proxy.Some? && ReuseRel(w, l, c, proxy, now, w')
    ensures forall x: Link :: x.client.proxy.None? && Entry(w'.services, x).Some? ==> Entry(w.services, x).Some?
  {
    var s, shared := w.services, Entry(w.services, l).value;
    var info := ClientInfo(proxy, shared.clientNet, shared.serverNet, shared.netId, 0, now, None);
    var m := AddClientToReplica(s, l.server, l.at, c, info);
    var joined := Joined(s, l, c, proxy, now);
    AddClientGains(s, l.server, l.at, c, info);
    AddClientShape(s, l.server, l.at, c, info);
    AddChainKeepsEntries(m, l.server, c, now);
    AddChainShape(m, l.server, c, now);
    AddChainsKeepEntries(joined, DepChainEdges(joined, l.server, l.at), now);
  }

  lemma ChainForPicked(s: Services, req: Request, at: ReplicaId)
    requires ChainFor(s, req, at).Some?
    ensures Picked(s, ChainFor(s, req, at).value)
  {
    BuiltArePicked(s, Deps(s, req.service), req.service, Some(at));
  }

  lemma StickyKeepsServices(w: World, req: Request, now: nat, w': World, answer: Answer)
    requires Orderly(w) && ServiceOnce(w.services) && RequestRel(w, req, now, w', answer) && HasHolder(w.services, req)
    requires req.service in w.services && w.services[req.service].config.timeout.Some?
    ensures ServiceOnce(w'.services)
  {
    StickyIsOrderly(w, req, now, w', answer);
    forall l | Entry(w'.services, l).Some? ensures Entry(w.services, l).Some? {
      assert Alike(Entry(w.services, l), Entry(w'.services, l));
    }
    SameClientsOnce(w.services, w'.services);
  }

  /**
   A request that is answered keeps every service client on one replica if and only if it asks for no new chain or the
   chain sticks to the replicas that hold its clients; a refused one keeps it if the chain would have stuck.
   */
  lemma RequestSticksIff(w: World, req: Request, now: nat, w': World, answer: Answer)
    requires Orderly(w) && ServiceOnce(w.services) && RequestRel(w, req, now, w', answer)
    ensures ChainSticks(w.services, RequestedChain(w.services, req)) ==> ServiceOnce(w'.services)
    ensures answer.Upstream? && ServiceOnce(w'.services) ==> ChainSticks(w.services, RequestedChain(w.services, req))
  {
    var s, n := w.services, req.service;
    if n in s && s[n].config.timeout.Some? && s[n].Registered? {
      if HasHolder(s, req) {
        StickyKeepsServices(w, req, now, w', answer);
      } else if MustShare(s, n, req.proxy) {
        var l: Link :| LeastUsed(s, n, req.proxy, l) && ReuseRel(w, l, req.Client(), req.proxy, now, w')
          && answer == AnswerFrom(s, n, l.at, Entry(s, l).value);
        JoinKeepsServices(w, l, req.Client(), req.proxy, now, w');
        SameClientsOnce(s, w'.services);
      } else {
        NewChainSticksIff(w, req, now, w', answer);
      }
    }
  }

  lemma NewChainSticksIff(w: World, req: Request, now: nat, w': World, answer: Answer)
    requires Orderly(w) && ServiceOnce(w.services) && NewChainRel(w, req, now, w', answer)
    requires req.service in w.services && w.services[req.service].config.timeout.Some?
    requires w.services[req.service].Registered?
    requires !HasHolder(w.services, req) && !MustShare(w.services, req.service, req.proxy)
    ensures ChainSticks(w.services, RequestedChain(w.services, req)) ==> ServiceOnce(w'.services)
    ensures answer.Upstream? && ServiceOnce(w'.services) ==> ChainSticks(w.services, RequestedChain(w.services, req))
  {
    var s, pick := w.services, PickReplica(w.services, req.service);
    if pick.Some? && ChainFor(s, req, pick.value).Some? {
      var edges := ChainFor(s, req, pick.value).value;
      var ok, upstream :| ChainSetupRel(w, edges, now, w', ok, upstream)
        && answer == ChainAnswer(ok, upstream, Port(s, req.service, pick.value));
      ChainForPicked(s, req, pick.value);
      if ok {
        ChainSticksIff(w, edges, now, w', upstream);
      } else if Sticks(s, edges) {
        ChainEntries(w, edges, now, w', ok, upstream);
        StickyChain(s, w'.services, edges);
      }
    }
  }

  /** The chain that a trigger asks for, if it asks for one. */
  function TriggeredChain(s: Services, n: Name, port: nat, sender: Ip): Option<seq<RegisteredEdge>> {
    var at := ReplicaOn(Reps(s, n), sender);
    if at.Some? then TriggeredEdges(s, n, at.value, port) else None
  }

  lemma TriggeredPicked(s: Services, n: Name, at: ReplicaId, port: nat)
    requires TriggeredEdges(s, n, at, port).Some?
    ensures Picked(s, TriggeredEdges(s, n, at, port).value)
  {
    var chain := TriggerChain(s, n, port);
    BuiltArePicked(s, chain, n, Some(at));
    var built := AllRegistered(BuildChain(s, chain, n, Some(at))).value;
    var edges := TriggeredEdges(s, n, at, port).value;
    forall e | e in edges && e.client.proxy.None? ensures PickReplica(s, e.server) == Some(e.at) && HasRep(s, e.server, e.at) {
      var k :| 0 <= k < |edges| && edges[k] == e;
      assert built[k] in built;
    }
  }

  /** The trigger's chain was set up, every edge of it. */
  ghost predicate TriggerSucceeds(w: World, n: Name, port: nat, sender: Ip, now: nat, w': World) {
    var chain := TriggeredChain(w.services, n, port, sender);
    chain.Some? && exists upstream :: ChainSetupRel(w, chain.value, now, w', true, upstream)
  }

  /**
   A backend trigger whose chain is set up keeps every service client on one replica if and only if the chain sticks to
   the replicas that hold its clients; any other one keeps it if the chain would have stuck.
   */
  lemma TriggerSticksIff(w: World, n: Name, port: nat, sender: Ip, now: nat, w': World)
    requires Unique(w.services) && ServiceOnce(w.services) && TriggerRel(w, n, port, sender, now, w')
    ensures ChainSticks(w.services, TriggeredChain(w.services, n, port, sender)) ==> ServiceOnce(w'.services)
    ensures TriggerSucceeds(w, n, port, sender, now, w') && ServiceOnce(w'.services) ==>
      ChainSticks(w.services, TriggeredChain(w.services, n, port, sender))
  {
    var chain := TriggeredChain(w.services, n, port, sender);
    if chain.Some? {
      TriggeredPicked(w.services, n, ReplicaOn(Reps(w.services, n), sender).value, port);
      if TriggerSucceeds(w, n, port, sender, now, w') {
        var upstream :| ChainSetupRel(w, chain.value, now, w', true, upstream);
        ChainSticksIff(w, chain.value, now, w', upstream);
      }
      if w' != w && Sticks(w.services, chain.value) {
        var ok, upstream :| ChainSetupRel(w, chain.value, now, w', ok, upstream);
        ChainEntries(w, chain.value, now, w', ok, upstream);
        StickyChain(w.services, w'.services, chain.value);
      }
    }
  }

  ghost predicate EventSticks(s: Services, event: Event) {
    match event
    case Serve(req, _) => ChainSticks(s, RequestedChain(s, req))
    case Trigger(n, port, sender, _) => ChainSticks(s, TriggeredChain(s, n, port, sender))
    case _ => true
  }

  ghost predicate StepSticks(w: World, w': World) {
    exists event :: EventRel(w, event, w') && EventSticks(w.services, event)
  }

  lemma StepKeepsOnce(w: World, w': World)
    requires Orderly(w) && ServiceOnce(w.services) && StepSticks(w, w')
    ensures ServiceOnce(w'.services)
  {
    var event :| EventRel(w, event, w') && EventSticks(w.services, event);
    match event
    case Serve(req, now) =>
      var answer :| RequestRel(w, req, now, w', answer);
      RequestSticksIff(w, req, now, w', answer);
    case Trigger(n, port, sender, now) => TriggerSticksIff(w, n, port, sender, now, w');
    case _ =>
      EventOrderly(w, event, w');
      SameClientsOnce(w.services, w'.services);
  }

  ghost predicate RunSticks(run: seq<World>) {
    forall i :: 0 < i < |run| ==> StepSticks(run[i - 1], run[i])
  }

  lemma OnceAtFirst(w: World)
    requires Initial(w)
    ensures ServiceOnce(w.services)
  {
    InitiallyEmpty(w);
    forall n, c: Client, r ensures c !in Tab(w.services, n, r) {
      assert Entry(w.services, Link(c, n, r)).None?;
    }
  }

  lemma {:induction false} OnceUpTo(run: seq<World>, i: nat)
    requires i < |run| && Initial(run[0]) && RunSticks(run) && forall j :: 0 <= j < |run| ==> Orderly(run[j])
    ensures ServiceOnce(run[i].services)
    decreases i
  {
    if i == 0 {
      OnceAtFirst(run[0]);
    } else {
      OnceUpTo(run, i - 1);
      assert StepSticks(run[i - 1], run[i]);
      StepKeepsOnce(run[i - 1], run[i]);
    }
  }

  /** In an atomic run in which every new chain sticks, every service client is on one replica of a service throughout. */
  lemma RunsStick(run: seq<World>)
    requires AtomicRun(run) && RunSticks(run)
    ensures forall i :: 0 <= i < |run| ==> ServiceOnce(run[i].services)
  {
    RunsAreOrderly(run);
    forall i | 0 <= i < |run| ensures ServiceOnce(run[i].services) {
      OnceUpTo(run, i);
    }
  }
}
