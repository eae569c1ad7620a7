/** The request handlers, working on the shared table in place (src/nullnet_grpc_impl.rs:107-182, 286-496, 519-710). */
module Server {
  import opened Types
  import opened ServiceTable
  import opened Chains
  import opened Teardown
  import opened Setup
  import opened Requests
  import opened AtomicSetup
  import opened ControlPlane

  // ----- one edge -----

  /** The next critical section in the setup of one edge. */
  method AdvanceTask(p: Plane, t: Task, ack: bool, now: nat) returns (t': Task)
    modifies p, p.pool
    ensures (p.State(), t') == Advance(old(p.State()), t, ack, now)
  {
    var e := t.edge;
    t' := t;
    match t.phase
    case Start =>
      if !IsRegistered(p.services, e.server) {
        t' := t.(phase := Failed);
      } else if AlreadySetup(p.services, e) {
        p.AddChain(e.server, e.client, now);
        t' := t.(phase := Succeeded(None));
      } else {
        p.AddClientToReplica(e.server, e.at, e.client, Placeholder(e.clientIp, now));
        t' := t.(phase := Reserved);
      }
    case Reserved =>
      var got := p.pool.Acquire();
      t' := t.(phase := if got.Some? then Allocated(got.value) else Aborting);
    case Allocated(id) =>
      if !ack {
        p.SendNetTeardown(EdgeDown(e, id));
        t' := t.(phase := Aborting);
      } else if IsRegistered(p.services, e.server) {
        var info := Committed(p.pool.net, e, id, now);
        p.AddClientToReplica(e.server, e.at, e.client, info);
        p.AddChain(e.server, e.client, now);
        t' := t.(phase := Succeeded(Setup.UpstreamOf(e, info)));
      } else {
        t' := t.(phase := Releasing(id));
      }
    case Releasing(id) =>
      p.SendNetTeardown(EdgeDown(e, id));
      t' := t.(phase := Failed);
    case Aborting =>
      p.RemoveClient(e.server, e.client);
      t' := t.(phase := Failed);
    case Failed =>
    case Succeeded(_) =>
  }

  // ----- all edges of a chain -----

  /** Critical sections that a task may still have. */
  function Left(t: Task): nat {
    match t.phase
    case Start => 4
    case Reserved => 3
    case Allocated(_) => 2
    case Releasing(_) => 1
    case Aborting => 1
    case Failed => 0
    case Succeeded(_) => 0
  }

  function Work(tasks: seq<Task>): nat {
    if tasks == [] then 0 else Left(tasks[0]) + Work(tasks[1..])
  }

  lemma {:induction false} WorkFalls(tasks: seq<Task>, k: nat, t: Task)
    requires k < |tasks|
    ensures Work(tasks[k := t]) == Work(tasks) - Left(tasks[k]) + Left(t)
  {
    if k > 0 {
      assert tasks[k := t][1..] == tasks[1..][k - 1 := t];
      WorkFalls(tasks[1..], k - 1, t);
    }
  }

  lemma AdvanceFalls(w: World, t: Task, ack: bool, now: nat)
    requires !t.Done()
    ensures Left(Advance(w, t, ack, now).1) < Left(t)
  {
  }

  lemma FinishOne(tasks: seq<Task>, order: seq<nat>, k: nat, t: Task)
    requires Successful(tasks, order) && k < |tasks| && !tasks[k].Done()
    ensures Successful(tasks[k := t], if t.phase.Succeeded? then order + [k] else order)
  {
    assert k !in order;
    if t.phase.Succeeded? {
      assert forall x: nat :: x in order + [k] <==> x in order || x == k;
    }
  }

  ghost predicate SomeFailed(tasks: seq<Task>) {
    exists k :: 0 <= k < |tasks| && tasks[k].phase.Failed?
  }

  lemma FailOne(tasks: seq<Task>, k: nat, t: Task)
    requires k < |tasks| && !tasks[k].Done()
    ensures SomeFailed(tasks[k := t]) <==> SomeFailed(tasks) || t.phase.Failed?
  {
    var after := tasks[k := t];
    if t.phase.Failed? {
      assert after[k].phase.Failed?;
    }
    if i :| 0 <= i < |tasks| && tasks[i].phase.Failed? {
      assert after[i].phase.Failed?;
    }
    if i :| 0 <= i < |after| && after[i].phase.Failed? {
      assert i == k || tasks[i].phase.Failed?;
    }
  }

  /** Every edge is set up on its own; critical sections come in any order, with any answers of the endpoints. */
  method RunTasks(p: Plane, edges: seq<RegisteredEdge>, start: nat)
    returns (tasks: seq<Task>, order: seq<nat>, anyFailure: bool, ghost trace: seq<ChainState>)
    modifies p, p.pool
    ensures ChainTrace(trace, start) && trace[0] == ChainState(old(p.State()), Spawn(edges))
    ensures trace[|trace| - 1] == ChainState(p.State(), tasks)
    ensures AllDone(tasks) && Successful(tasks, order) && (anyFailure <==> SomeFailed(tasks))
  {
    tasks, order, anyFailure := Spawn(edges), [], false;
    trace := [ChainState(p.State(), tasks)];
    while exists k :: 0 <= k < |tasks| && !tasks[k].Done()
      invariant ChainTrace(trace, start) && trace[0] == ChainState(old(p.State()), Spawn(edges))
      invariant trace[|trace| - 1] == ChainState(p.State(), tasks)
      invariant Successful(tasks, order) && (anyFailure <==> SomeFailed(tasks))
      decreases Work(tasks)
    {
      var k: nat :| k < |tasks| && !tasks[k].Done();
      var ack: bool := *;
      var now: nat :| start <= now;
      ghost var w := p.State();
      var t := AdvanceTask(p, tasks[k], ack, now);
      AdvanceFalls(w, tasks[k], ack, now);
      WorkFalls(tasks, k, t);
      FinishOne(tasks, order, k, t);
      FailOne(tasks, k, t);
      TraceGrows(trace, start, k, ack, now, ChainState(p.State(), tasks[k := t]));
      trace := trace + [ChainState(p.State(), tasks[k := t])];
      tasks := tasks[k := t];
      if t.phase.Succeeded? {
        order := order + [k];
      } else if t.phase.Failed? {
        anyFailure := true;
      }
    }
  }

  ghost predicate BringsNothing(tasks: seq<Task>, k: nat) {
    k < |tasks| && tasks[k].phase == Succeeded(None)
  }

  method FindUpstream(tasks: seq<Task>, order: seq<nat>) returns (upstream: Option<Ipv4>)
    requires Successful(tasks, order)
    ensures upstream.Some? ==> Brings(tasks, upstream.value)
    ensures upstream.None? ==> forall a :: !Brings(tasks, a)
  {
    for i := 0 to |order|
      invariant forall j :: 0 <= j < i ==> BringsNothing(tasks, order[j])
    {
      assert order[i] in order;
      var phase := tasks[order[i]].phase;
      if phase.upstream.Some? {
        return phase.upstream;
      }
    }
    forall a ensures !Brings(tasks, a) {
      forall k: nat | k < |tasks| ensures tasks[k].phase != Succeeded(Some(a)) {
        if tasks[k].phase.Succeeded? {
          assert k in order;
          var j :| 0 <= j < |order| && order[j] == k;
        }
      }
    }
    return None;
  }

  /** Sets up every edge of the chain, or takes back those that were set up. */
  method NetChainSetup(p: Plane, edges: seq<RegisteredEdge>, start: nat) returns (ok: bool, upstream: Option<Ipv4>)
    modifies p, p.pool
    ensures ChainSetupRel(old(p.State()), edges, start, p.State(), ok, upstream)
  {
    var tasks, order, anyFailure, trace := RunTasks(p, edges, start);
    ok, upstream := !anyFailure, None;
    if anyFailure {
      p.DecrementAll(EdgesAt(tasks, order));
    } else {
      forall k: nat | k < |tasks| ensures tasks[k].phase.Succeeded? {
        assert tasks[k].Done();
      }
      upstream := FindUpstream(tasks, order);
    }
    assert Concluded(trace[|trace| - 1], p.State(), ok, upstream);
  }

  // ----- a proxy request -----

  predicate OfProxy(c: Client, info: ClientInfo, proxy: Ip) {
    c.proxy == Some(proxy) && info.serverNet != UNSPECIFIED
  }

  /** The search has come to replica `j`; what it has found so far comes before entry `c` there. */
  ghost predicate FoundBefore(s: Services, n: Name, best: Option<Link>, j: nat, c: Client)
    requires j < |Reps(s, n)| && c in Reps(s, n)[j].clients
  {
    best.Some? && Entry(s, best.value).Some? &&
    var x, y := Entry(s, best.value).value.activeChains, Reps(s, n)[j].clients[c].activeChains;
    x < y || (x == y && IndexOf(Reps(s, n), best.value.at) <= j)
  }

  /** The least used entry among the users of the proxy on the first `i` replicas. */
  ghost predicate LeastSoFar(s: Services, n: Name, proxy: Ip, i: nat, best: Option<Link>)
    requires i <= |Reps(s, n)|
  {
    forall j, c :: 0 <= j < i && c in Reps(s, n)[j].clients && OfProxy(c, Reps(s, n)[j].clients[c], proxy) ==>
      FoundBefore(s, n, best, j, c)
  }

  ghost predicate Found(s: Services, n: Name, proxy: Ip, i: nat, best: Option<Link>) {
    best.Some? ==> Reusable(s, n, proxy, best.value) && IndexOf(Reps(s, n), best.value.at) <= i
  }

  /** A less used entry comes before all that the best one so far came before. */
  lemma BetterStays(s: Services, n: Name, proxy: Ip, i: nat, best: Option<Link>, l: Link)
    requires i < |Reps(s, n)| && Entry(s, l).Some? && IndexOf(Reps(s, n), l.at) == i
    requires LeastSoFar(s, n, proxy, i, best) && Found(s, n, proxy, i, best)
    requires best.Some? ==> Entry(s, l).value.activeChains < Entry(s, best.value).value.activeChains
    ensures LeastSoFar(s, n, proxy, i, Some(l))
    ensures forall c :: c in Reps(s, n)[i].clients && FoundBefore(s, n, best, i, c) ==> FoundBefore(s, n, Some(l), i, c)
  {
    forall j, c | 0 <= j < i && c in Reps(s, n)[j].clients && OfProxy(c, Reps(s, n)[j].clients[c], proxy)
      ensures FoundBefore(s, n, Some(l), j, c)
    {
      assert FoundBefore(s, n, best, j, c);
    }
  }

  /** The search goes through the clients of replica `i`, in an arbitrary order. */
  method LeastOnReplica(s: Services, n: Name, proxy: Ip, i: nat, before: Option<Link>) returns (best: Option<Link>)
    requires Unique(s) && i < |Reps(s, n)|
    requires LeastSoFar(s, n, proxy, i, before) && Found(s, n, proxy, i, before)
    ensures LeastSoFar(s, n, proxy, i + 1, best) && Found(s, n, proxy, i, best)
  {
    best := before;
    var rep := Reps(s, n)[i];
    TabAt(Reps(s, n), i);
    var todo := rep.clients.Keys;
    while todo != {}
      invariant todo <= rep.clients.Keys
      invariant LeastSoFar(s, n, proxy, i, best) && Found(s, n, proxy, i, best)
      invariant forall c :: c in rep.clients && c !in todo && OfProxy(c, rep.clients[c], proxy) ==>
        FoundBefore(s, n, best, i, c)
    {
      var c :| c in todo;
      todo := todo - {c};
      var info := rep.clients[c];
      if OfProxy(c, info, proxy) {
        var l := Link(c, n, rep.Id());
        assert Entry(s, l) == Some(info) && IndexOf(Reps(s, n), l.at) == i;
        if best.None? || info.activeChains < Entry(s, best.value).value.activeChains {
          BetterStays(s, n, proxy, i, best, l);
          best := Some(l);
        }
      }
    }
  }

  method FindReusableNetwork(s: Services, n: Name, proxy: Ip) returns (best: Option<Link>)
    requires Unique(s)
    ensures best.Some? ==> LeastUsed(s, n, proxy, best.value)
    ensures best.None? ==> forall l :: !Reusable(s, n, proxy, l)
  {
    best := None;
    var reps := Reps(s, n);
    for i := 0 to |reps|
      invariant LeastSoFar(s, n, proxy, i, best) && Found(s, n, proxy, i, best)
    {
      best := LeastOnReplica(s, n, proxy, i, best);
    }
    forall l | Reusable(s, n, proxy, l) ensures best.Some? && ComesFirst(s, best.value, l) {
      EntryNeedsRep(s, l);
      var j :| 0 <= j < |reps| && reps[j].Id() == l.at;
      TabAt(reps, j);
      assert OfProxy(l.client, reps[j].clients[l.client], proxy) && IndexOf(reps, l.at) == j;
    }
  }

  method AddChainsTo(p: Plane, edges: seq<(Client, Name)>, now: nat)
    modifies p`services
    ensures p.services == AddChains(old(p.services), edges, now)
  {
    for k := 0 to |edges|
      invariant AddChains(p.services, edges[k..], now) == AddChains(old(p.services), edges, now)
    {
      assert edges[k..][0] == edges[k] && edges[k..][1..] == edges[k + 1..];
      p.AddChain(edges[k].1, edges[k].0, now);
    }
    assert edges[|edges|..] == [];
  }

  lemma JoinedShape(s: Services, l: Link, c: Client, proxy: Ip, now: nat)
    requires Unique(s) && Acyclic(s) && Entry(s, l).Some?
    ensures Acyclic(Joined(s, l, c, proxy, now))
  {
    var shared := Entry(s, l).value;
    var info := ClientInfo(proxy, shared.clientNet, shared.serverNet, shared.netId, 0, now, None);
    var m := AddClientToReplica(s, l.server, l.at, c, info);
    AddClientShape(s, l.server, l.at, c, info);
    AddChainShape(m, l.server, c, now);
    ShapeTrans(s, m, Joined(s, l, c, proxy, now));
    ShapeKeepsAcyclic(s, Joined(s, l, c, proxy, now));
  }

  /** The user joins the network of the entry at `l`; every edge behind it counts one chain more. */
  method ReuseNetwork(p: Plane, l: Link, c: Client, proxy: Ip, now: nat)
    requires Unique(p.services) && Acyclic(p.services) && Entry(p.services, l).Some?
    modifies p, p.pool
    ensures ReuseRel(old(p.State()), l, c, proxy, now, p.State())
  {
    var shared := Entry(p.services, l).value;
    JoinedShape(p.services, l, c, proxy, now);
    p.AddClientToReplica(l.server, l.at, c,
      ClientInfo(proxy, shared.clientNet, shared.serverNet, shared.netId, 0, now, None));
    p.AddChain(l.server, c, now);
    var edges := CollectDepChainEdges(p.services, l.server, l.at);
    AddChainsTo(p, edges, now);
  }

  method SetupProxyChain(p: Plane, req: Request, now: nat) returns (answer: Answer)
    modifies p, p.pool
    ensures NewChainRel(old(p.State()), req, now, p.State(), answer)
  {
    var at := PickReplica(p.services, req.service);
    if at.None? {
      return Refused(NoReplicas);
    }
    var port := Port(p.services, req.service, at.value);
    var chain := BuildLinearChain(p.services, Deps(p.services, req.service), req.service, at.value);
    var built := AllRegistered(chain);
    if built.None? {
      return Refused(DependencyNotRegistered);
    }
    var ok, upstream := NetChainSetup(p, built.value + [ProxyEdge(req, at.value)], now);
    return ChainAnswer(ok, upstream, port);
  }

  /** A new user that must share a network joins one; only then are dependencies walked. */
  ghost predicate Joins(s: Services, req: Request) {
    && req.service in s && s[req.service].config.timeout.Some?
    && !HasHolder(s, req) && MustShare(s, req.service, req.proxy)
  }

  method HandleProxyRequest(p: Plane, req: Request, now: nat) returns (answer: Answer)
    requires Unique(p.services)
    requires Joins(p.services, req) ==> Acyclic(p.services)
    modifies p, p.pool
    ensures RequestRel(old(p.State()), req, now, p.State(), answer)
  {
    var s, n, c := p.services, req.service, req.Client();
    if n !in s {
      return Refused(NotFound);
    }
    if s[n].config.timeout.None? {
      return Refused(NotAnEntryPoint);
    }
    if s[n].Unregistered? {
      return Refused(NotRegistered);
    }
    var holder := Holder(s, n, c);
    if holder.Some? {
      HolderSpec(s, n, c);
      answer := AnswerFrom(s, n, holder.value, Tab(s, n, holder.value)[c]);
      p.SetLatestNow(n, c, now);
      return;
    }
    if s[n].config.maxNetworks.Some? && ProxyClientsCount(s[n].replicas) >= s[n].config.maxNetworks.value {
      var best := FindReusableNetwork(s, n, req.proxy);
      if best.Some? {
        answer := AnswerFrom(s, n, best.value.at, Entry(s, best.value).value);
        ReuseNetwork(p, best.value, c, req.proxy, now);
        return;
      }
    }
    answer := SetupProxyChain(p, req, now);
  }

  // ----- a backend trigger -----

  method FindReplicaOn(reps: seq<Replica>, ip: Ip) returns (at: Option<ReplicaId>)
    ensures at == ReplicaOn(reps, ip)
  {
    for i := 0 to |reps|
      invariant ReplicaOn(reps[i..], ip) == ReplicaOn(reps, ip)
    {
      assert reps[i..][0] == reps[i] && reps[i..][1..] == reps[i + 1..];
      if reps[i].ip == ip {
        return Some(reps[i].Id());
      }
    }
    assert reps[|reps|..] == [];
    return None;
  }

  method HandleBackendTrigger(p: Plane, n: Name, port: nat, sender: Ip, now: nat)
    modifies p, p.pool
    ensures TriggerRel(old(p.State()), n, port, sender, now, p.State())
  {
    var s := p.services;
    if n !in s || s[n].config.timeout.None? || s[n].Unregistered? {
      return;
    }
    var at := FindReplicaOn(s[n].replicas, sender);
    if at.None? {
      return;
    }
    var chain := TriggerChain(s, n, port);
    if chain == [] || Holder(s, chain[0], ServiceClient(n, at.value)).Some? {
      return;
    }
    var raw := BuildLinearChain(s, chain, n, at.value);
    var built := AllRegistered(raw);
    if built.None? || built.value == [] {
      return;
    }
    var ok, upstream := NetChainSetup(p, built.value[0 := built.value[0].(entryPort := Some(port))], now);
  }
}
