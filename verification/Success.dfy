/**
 A chain can be set up: if its replicas exist, the pool has an ID for every edge and all endpoints answer, there is a
 course of the setup in which every edge succeeds, and a request for the chain is answered.
 */
module Success {
  import opened Types
  import opened NetIdPool
  import opened ServiceTable
  import opened Chains
  import opened Teardown
  import opened Settlement
  import opened Setup
  import opened ChainSetup
  import opened Requests
  import opened AtomicSetup
  import opened AtomicRequests

  // ----- the IDs that are left -----

  function Spare(p: PoolState): int {
    |p.freed| + MaxNetId(p.net) + 1 - p.nextFresh
  }

  lemma SpareTaken(p: PoolState)
    requires Valid(p) && Spare(p) > 0
    ensures var (q, got) := Allocate(p);
      got.Some? && Valid(q) && Spare(q) == Spare(p) - 1 && q.net == p.net
  {
    AllocateSpec(p);
  }

  // ----- which entries exist -----

  /** The same entries exist, and the one at `l`. */
  ghost predicate Gained(a: Services, b: Services, l: Link) {
    forall x :: Entry(b, x).Some? <==> Entry(a, x).Some? || x == l
  }

  lemma AddChainKeepsEntries(s: Services, n: Name, c: Client, now: nat)
    requires Unique(s)
    ensures forall x :: Entry(AddChain(s, n, c, now), x).Some? <==> Entry(s, x).Some?
  {
    AddChainSpec(s, n, c, now);
    var h := Holder(s, n, c);
    if h.Some? {
      PutEntries(s, AddChain(s, n, c, now), Link(c, n, h.value), Some(Tab(s, n, h.value)[c].AddActiveChain(now)));
    }
  }

  lemma AddClientGains(s: Services, n: Name, r: ReplicaId, c: Client, info: ClientInfo)
    requires Unique(s)
    ensures HasRep(s, n, r) ==> Gained(s, AddClientToReplica(s, n, r, c, info), Link(c, n, r))
    ensures !HasRep(s, n, r) ==> AddClientToReplica(s, n, r, c, info) == s
  {
    AddClientSpec(s, n, r, c, info);
    if HasRep(s, n, r) {
      PutEntries(s, AddClientToReplica(s, n, r, c, info), Link(c, n, r), Some(info));
    }
  }

  lemma RemoveClientLoses(s: Services, n: Name, c: Client)
    requires Unique(s)
    ensures forall x :: Entry(RemoveClient(s, n, c), x).Some? ==> Entry(s, x).Some?
  {
    RemoveClientSpec(s, n, c);
    if Holder(s, n, c).Some? {
      PutEntries(s, RemoveClient(s, n, c), Link(c, n, Holder(s, n, c).value), None);
    }
  }

  lemma CommitGains(w: World, e: RegisteredEdge, id: nat, now: nat)
    requires Unique(w.services) && IsRegistered(w.services, e.server)
    ensures var b := Advance(w, Task(e, Allocated(id)), true, now).0.services;
      if HasRep(w.services, e.server, e.at) then Gained(w.services, b, e.Link())
      else forall x :: Entry(b, x).Some? <==> Entry(w.services, x).Some?
  {
    var s, info := w.services, Committed(w.pool.net, e, id, now);
    AddClientGains(s, e.server, e.at, e.client, info);
    AddClientShape(s, e.server, e.at, e.client, info);
    AddChainKeepsEntries(AddClientToReplica(s, e.server, e.at, e.client, info), e.server, e.client, now);
  }

  /** A task brings no entry but its own, and takes none away unless it fails. */
  lemma AdvanceEntries(w: World, t: Task, ack: bool, now: nat)
    requires Unique(w.services)
    ensures var w', t' := Advance(w, t, ack, now).0, Advance(w, t, ack, now).1;
      && (forall x :: Entry(w'.services, x).Some? ==> Entry(w.services, x).Some? || x == t.edge.Link())
      && (!t'.phase.Failed? ==> forall x :: Entry(w.services, x).Some? ==> Entry(w'.services, x).Some?)
  {
    var e, s := t.edge, w.services;
    match t.phase
    case Start =>
      AddChainKeepsEntries(s, e.server, e.client, now);
      AddClientGains(s, e.server, e.at, e.client, Placeholder(e.clientIp, now));
    case Allocated(id) =>
      if ack && IsRegistered(s, e.server) {
        assert t == Task(e, Allocated(id));
        CommitGains(w, e, id, now);
      }
    case Aborting => RemoveClientLoses(s, e.server, e.client);
    case _ =>
  }

  /** The start of a service edge leaves the edge with an entry. */
  lemma StartEntry(w: World, e: RegisteredEdge, ack: bool, now: nat)
    requires Unique(w.services) && HasRep(w.services, e.server, e.at)
    requires e.client.proxy.Some? ==> Holder(w.services, e.server, e.client).None?
    ensures var (w', t') := Advance(w, Task(e, Start), ack, now);
      && Gained(w.services, w'.services, e.Link()) && w'.pool == w.pool
      && t' == Task(e, if AlreadySetup(w.services, e) then Succeeded(None) else Reserved)
  {
    var s := w.services;
    RepIsRegistered(s, e.server, e.at);
    if AlreadySetup(s, e) {
      AddChainKeepsEntries(s, e.server, e.client, now);
      assert Entry(s, e.Link()).Some?;
    } else {
      AddClientGains(s, e.server, e.at, e.client, Placeholder(e.clientIp, now));
    }
  }

  lemma RepIsRegistered(s: Services, n: Name, r: ReplicaId)
    requires HasRep(s, n, r)
    ensures IsRegistered(s, n)
  {
  }

  // ----- one edge -----

  /** Task `k` may be run to its end: its replica exists, there is an ID, and its user, if it has one, is new. */
  ghost predicate Runnable(x: ChainState, k: nat, e: RegisteredEdge) {
    && k < |x.tasks| && x.tasks[k] == Task(e, Start)
    && Unique(x.world.services) && HasRep(x.world.services, e.server, e.at)
    && Valid(x.world.pool) && Spare(x.world.pool) > 0
    && (e.client.proxy.Some? ==> Holder(x.world.services, e.server, e.client).None?)
  }

  /** Task `k` has succeeded; its edge has an entry and no other entry came or went. */
  ghost predicate RanOne(x: ChainState, k: nat, e: RegisteredEdge, y: ChainState)
    requires k < |x.tasks|
  {
    && |y.tasks| == |x.tasks| && y.tasks == x.tasks[k := y.tasks[k]] && y.tasks[k].phase.Succeeded?
    && SameShape(x.world.services, y.world.services) && Unique(y.world.services)
    && Valid(y.world.pool) && Spare(y.world.pool) >= Spare(x.world.pool) - 1
    && Gained(x.world.services, y.world.services, e.Link())
  }

  lemma StepKeepsShape(x: ChainState, k: nat, now: nat)
    requires k < |x.tasks| && Unique(x.world.services)
    ensures var y := StepOf(x, k, true, now);
      SameShape(x.world.services, y.world.services) && Unique(y.world.services) && y.tasks[k].edge == x.tasks[k].edge
  {
    AdvanceShape(x.world, x.tasks[k], true, now);
    ShapeFacts(x.world.services, StepOf(x, k, true, now).world.services);
  }

  lemma GainedTwice(a: Services, m: Services, b: Services, l: Link)
    requires Gained(a, m, l) && Gained(m, b, l)
    ensures Gained(a, b, l)
  {
  }

  /** From the reserved slot to the committed entry. */
  lemma FinishReserved(x: ChainState, k: nat, e: RegisteredEdge, now: nat)
    requires k < |x.tasks| && x.tasks[k] == Task(e, Reserved)
    requires Unique(x.world.services) && HasRep(x.world.services, e.server, e.at)
    requires Valid(x.world.pool) && Spare(x.world.pool) > 0
    ensures var m := StepOf(x, k, true, now);
      !m.tasks[k].Done() && RanOne(x, k, e, StepOf(m, k, true, now))
  {
    var m := StepOf(x, k, true, now);
    SpareTaken(x.world.pool);
    StepKeepsShape(x, k, now);
    StepKeepsShape(m, k, now);
    RepIsRegistered(x.world.services, e.server, e.at);
    assert m.tasks[k] == Task(e, Allocated(m.tasks[k].phase.id));
    CommitGains(m.world, e, m.tasks[k].phase.id, now);
  }

  /** One more step of task `k` with both endpoints answering. */
  lemma Longer(trace: seq<ChainState>, start: nat, k: nat) returns (longer: seq<ChainState>)
    requires ChainTrace(trace, start) && k < |trace[|trace| - 1].tasks| && !trace[|trace| - 1].tasks[k].Done()
    ensures ChainTrace(longer, start) && longer[0] == trace[0]
    ensures longer[|longer| - 1] == StepOf(trace[|trace| - 1], k, true, start)
  {
    var y := StepOf(trace[|trace| - 1], k, true, start);
    TraceGrows(trace, start, k, true, start, y);
    longer := trace + [y];
  }

  lemma RanBoth(x: ChainState, k: nat, e: RegisteredEdge, y: ChainState, z: ChainState)
    requires k < |x.tasks| && |y.tasks| == |x.tasks| && y.tasks == x.tasks[k := y.tasks[k]] && y.world.pool == x.world.pool
    requires SameShape(x.world.services, y.world.services) && Gained(x.world.services, y.world.services, e.Link())
    requires RanOne(y, k, e, z)
    ensures RanOne(x, k, e, z)
  {
    ShapeTrans(x.world.services, y.world.services, z.world.services);
    GainedTwice(x.world.services, y.world.services, z.world.services, e.Link());
  }

  lemma {:induction false} RunOne(trace: seq<ChainState>, start: nat, k: nat, e: RegisteredEdge)
    returns (longer: seq<ChainState>)
    requires ChainTrace(trace, start) && Runnable(trace[|trace| - 1], k, e)
    ensures ChainTrace(longer, start) && longer[0] == trace[0]
    ensures RanOne(trace[|trace| - 1], k, e, longer[|longer| - 1])
  {
    var x := trace[|trace| - 1];
    var y := StepOf(x, k, true, start);
    StartEntry(x.world, e, true, start);
    StepKeepsShape(x, k, start);
    longer := Longer(trace, start, k);
    if !AlreadySetup(x.world.services, e) {
      ShapeFacts(x.world.services, y.world.services);
      FinishReserved(y, k, e, start);
      longer := Longer(longer, start, k);
      longer := Longer(longer, start, k);
      RanBoth(x, k, e, y, longer[|longer| - 1]);
    }
  }

  // ----- all edges, one after the other -----

  ghost predicate Settable(w: World, edges: seq<RegisteredEdge>, user: nat) {
    && Unique(w.services) && Valid(w.pool) && OneUser(w.services, edges, user)
    && Spare(w.pool) >= |edges|
    && forall k :: 0 <= k < |edges| ==> HasRep(w.services, edges[k].server, edges[k].at)
  }

  ghost predicate RanSome(w: World, edges: seq<RegisteredEdge>, k: nat, x: ChainState)
    requires k <= |edges|
  {
    && |x.tasks| == |edges|
    && (forall i :: 0 <= i < k ==> x.tasks[i].phase.Succeeded?)
    && (forall i :: k <= i < |edges| ==> x.tasks[i] == Task(edges[i], Start))
    && SameShape(w.services, x.world.services) && Unique(x.world.services)
    && Valid(x.world.pool) && Spare(x.world.pool) >= Spare(w.pool) - k
    && forall l :: Entry(x.world.services, l).Some? <==> Entry(w.services, l).Some? || OnChain(edges[..k], l)
  }

  /** The user of the chain is still on no replica when the turn of its edge comes. */
  lemma UserStillNew(w: World, edges: seq<RegisteredEdge>, user: nat, k: nat, x: ChainState)
    requires Settable(w, edges, user) && k < |edges| && RanSome(w, edges, k, x) && edges[k].client.proxy.Some?
    ensures Holder(x.world.services, edges[k].server, edges[k].client).None?
  {
    var e, s := edges[k], x.world.services;
    assert k == user;
    HolderSpec(s, e.server, e.client);
    forall r ensures e.client !in Tab(s, e.server, r) {
      var l := Link(e.client, e.server, r);
      assert Entry(w.services, l).None?;
      assert !OnChain(edges[..k], l) by {
        forall i | 0 <= i < k ensures edges[..k][i].Link() != l {
          assert edges[..k][i] == edges[i];
        }
      }
      assert Entry(s, l).None?;
    }
  }

  lemma NextIsRunnable(w: World, edges: seq<RegisteredEdge>, user: nat, k: nat, x: ChainState)
    requires Settable(w, edges, user) && k < |edges| && RanSome(w, edges, k, x)
    ensures Runnable(x, k, edges[k])
  {
    ShapeFacts(w.services, x.world.services);
    if edges[k].client.proxy.Some? {
      UserStillNew(w, edges, user, k, x);
    }
  }

  lemma RanNone(w: World, edges: seq<RegisteredEdge>)
    requires Unique(w.services) && Valid(w.pool)
    ensures RanSome(w, edges, 0, ChainState(w, Spawn(edges)))
  {
  }

  lemma RanNext(w: World, edges: seq<RegisteredEdge>, k: nat, x: ChainState, y: ChainState)
    requires k < |edges| && RanSome(w, edges, k, x) && RanOne(x, k, edges[k], y)
    ensures RanSome(w, edges, k + 1, y)
  {
    ShapeTrans(w.services, x.world.services, y.world.services);
    forall l ensures OnChain(edges[..k + 1], l) <==> OnChain(edges[..k], l) || l == edges[k].Link() {
      if OnChain(edges[..k], l) {
        var i :| 0 <= i < k && edges[..k][i].Link() == l;
        assert edges[..k + 1][i].Link() == l;
      }
      if l == edges[k].Link() {
        assert edges[..k + 1][k].Link() == l;
      }
    }
  }

  lemma RunNext(w: World, edges: seq<RegisteredEdge>, user: nat, start: nat, k: nat, before: seq<ChainState>)
    returns (trace: seq<ChainState>)
    requires Settable(w, edges, user) && k < |edges| && ChainTrace(before, start)
    requires RanSome(w, edges, k, before[|before| - 1])
    ensures ChainTrace(trace, start) && trace[0] == before[0] && RanSome(w, edges, k + 1, trace[|trace| - 1])
  {
    NextIsRunnable(w, edges, user, k, before[|before| - 1]);
    trace := RunOne(before, start, k, edges[k]);
    RanNext(w, edges, k, before[|before| - 1], trace[|trace| - 1]);
  }

  lemma {:induction false} RunEdges(w: World, edges: seq<RegisteredEdge>, user: nat, start: nat, k: nat)
    returns (trace: seq<ChainState>)
    requires Settable(w, edges, user) && k <= |edges|
    ensures ChainTrace(trace, start) && trace[0] == ChainState(w, Spawn(edges))
    ensures RanSome(w, edges, k, trace[|trace| - 1])
  {
    if k == 0 {
      trace := [ChainState(w, Spawn(edges))];
      RanNone(w, edges);
    } else {
      var before := RunEdges(w, edges, user, start, k - 1);
      trace := RunNext(w, edges, user, start, k - 1, before);
    }
  }

  /** The entries after the setup are those before and those of the chain. */
  ghost predicate ChainIsThere(w: World, edges: seq<RegisteredEdge>, w': World) {
    && SameShape(w.services, w'.services) && Spare(w'.pool) >= Spare(w.pool) - |edges|
    && forall l :: Entry(w'.services, l).Some? <==> Entry(w.services, l).Some? || OnChain(edges, l)
  }

  /** A chain whose replicas exist can be set up if there is an ID for every edge. */
  lemma ChainCanSucceed(w: World, edges: seq<RegisteredEdge>, user: nat, start: nat)
    returns (w': World, upstream: Option<Ipv4>)
    requires Settable(w, edges, user)
    ensures ChainSetupRel(w, edges, start, w', true, upstream) && ChainIsThere(w, edges, w')
  {
    var trace := RunEdges(w, edges, user, start, |edges|);
    var last := trace[|trace| - 1];
    assert edges[..|edges|] == edges;
    w', upstream := last.world, None;
    if a :| Brings(last.tasks, a) {
      upstream := Some(a);
    }
    assert Concluded(last, w', true, upstream);
  }

  // ----- a request -----

  lemma {:induction false} BuiltHaveReplicas(s: Services, deps: seq<Name>, n: Name, at: Option<ReplicaId>)
    requires AllRegistered(BuildChain(s, deps, n, at)).Some?
    ensures forall e :: e in AllRegistered(BuildChain(s, deps, n, at)).value ==> HasRep(s, e.server, e.at)
    decreases |deps|
  {
    if deps != [] {
      var next := PickReplica(s, deps[0]);
      assert BuildChain(s, deps, n, at)[1..] == BuildChain(s, deps[1..], deps[0], next);
      PickedIsThere(s, deps[0]);
      BuiltHaveReplicas(s, deps[1..], deps[0], next);
    }
  }

  /** The request leads to a new chain: nothing is there for the user yet, and there is nothing to share. */
  ghost predicate AsksForChain(s: Services, req: Request, at: ReplicaId) {
    && req.service in s && s[req.service].config.timeout.Some? && s[req.service].Registered?
    && !HasHolder(s, req) && !MustShare(s, req.service, req.proxy)
    && PickReplica(s, req.service) == Some(at) && ChainFor(s, req, at).Some?
  }

  /** A new user's request for a service with all its dependencies can be answered while there are IDs. */
  lemma RequestCanBeAnswered(w: World, req: Request, at: ReplicaId, now: nat) returns (w': World, answer: Answer)
    requires Orderly(w) && AsksForChain(w.services, req, at)
    requires Spare(w.pool) >= |ChainFor(w.services, req, at).value|
    ensures RequestRel(w, req, now, w', answer) && answer.Upstream? && Orderly(w')
    ensures ChainIsThere(w, ChainFor(w.services, req, at).value, w')
  {
    var edges := ChainFor(w.services, req, at).value;
    PickedIsThere(w.services, req.service);
    ChainForHasOneUser(w.services, req, at);
    BuiltHaveReplicas(w.services, Deps(w.services, req.service), req.service, Some(at));
    forall k | 0 <= k < |edges| ensures HasRep(w.services, edges[k].server, edges[k].at) {
      assert k < |edges| - 1 ==> edges[k] in edges[..|edges| - 1];
    }
    var upstream: Option<Ipv4>;
    w', upstream := ChainCanSucceed(w, edges, |edges| - 1, now);
    answer := ChainAnswer(true, upstream, Port(w.services, req.service, at));
    ChainIsOrderly(w, req, at, now, w', true, upstream, answer);
  }
}
