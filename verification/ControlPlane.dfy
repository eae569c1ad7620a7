/**
 The control plane as the program runs it: one table that the methods change in place, a pool of IDs, and the log of
 networks taken down. Hash maps are visited in an arbitrary order.
 */
module ControlPlane {
  import opened Types
  import opened NetIdPool
  import opened ServiceTable
  import opened Chains
  import opened Teardown
  import opened Changes
  import opened Detection
  import opened Timeout
  import Reconcile
  import Users

  // ----- facts about the specifications -----

  lemma {:induction false} BackendOpsOfShape(n: Name, a: seq<Replica>, b: seq<Replica>, through: Option<Name>)
    requires |a| == |b| && forall i :: 0 <= i < |a| ==> a[i].Id() == b[i].Id()
    ensures BackendOps(n, a, through) == BackendOps(n, b, through)
  {
    if a != [] {
      BackendOpsOfShape(n, a[..|a| - 1], b[..|b| - 1], through);
    }
  }

  lemma IdleChainOp(w: World, n: Name, f: ProxyFilter)
    requires Reps(w.services, n) == []
    ensures OpRel(w, ChainOp(n, f), w)
  {
    forall l: Link | l.server == n ensures Entry(w.services, l).None? {
      TabNeedsRep(w.services, n, l.at);
    }
    assert Collected(w.services, n, f, []);
    assert TeardownChain(w, n, []) == w;
  }

  /** The teardowns `ops` lead from `w` to `w'`, and further ones may follow. */
  ghost predicate Did(w: World, ops: seq<Op>, w': World) {
    && OpsRel(w, ops, w') && SameShape(w.services, w'.services) && Unique(w'.services)
    && (Acyclic(w.services) ==> Acyclic(w'.services))
  }

  lemma DidNothing(w: World)
    requires Unique(w.services)
    ensures Did(w, [], w)
  {
  }

  lemma DidOne(w: World, ops: seq<Op>, mid: World, op: Op, w': World)
    requires Did(w, ops, mid) && OpRel(mid, op, w')
    ensures Did(w, ops + [op], w')
  {
    OpsExtend(w, ops, mid, op, w');
    OpShape(mid, op, w');
    ShapeTrans(w.services, mid.services, w'.services);
    ShapeFacts(mid.services, w'.services);
    if Acyclic(w.services) {
      ShapeKeepsAcyclic(mid.services, w'.services);
    }
  }

  lemma DidFirst(w: World, op: Op, w': World)
    requires Unique(w.services) && OpRel(w, op, w')
    ensures Did(w, [op], w')
  {
    DidNothing(w);
    DidOne(w, [], w, op, w');
    assert [] + [op] == [op];
  }

  lemma DidBoth(w: World, a: seq<Op>, mid: World, b: seq<Op>, w': World)
    requires Did(w, a, mid) && Did(mid, b, w')
    ensures Did(w, a + b, w')
  {
    OpsConcat(w, a, mid, b, w');
    ShapeTrans(w.services, mid.services, w'.services);
  }

  lemma SameBackendOps(a: Services, b: Services, n: Name, through: Option<Name>)
    requires SameShape(a, b)
    ensures BackendOps(n, Reps(a, n), through) == BackendOps(n, Reps(b, n), through)
  {
    if n in a {
      BackendOpsOfShape(n, Reps(a, n), Reps(b, n), through);
    }
  }

  /** What one affected client of `n` asks for. */
  ghost function UpstreamOf(n: Name, c: Client): seq<Op> {
    if c.replica.Some? then [ChainOp(c.name, OnReplica(c.replica.value)), BackendOp(c.name, c.replica.value, Some(n))]
    else []
  }

  ghost predicate PartialRel(w: World, n: Name, f: ProxyFilter, w': World) {
    exists partial :: PartialPlan(w.services, n, f, partial) && Did(w, partial, w')
  }

  ghost predicate ThenPartialDid(w: World, before: seq<Op>, n: Name, f: ProxyFilter, w': World) {
    exists cut: World :: Did(w, before, cut) && PartialRel(cut, n, f, w')
  }

  /** The cascade, with what it takes to go on from it. */
  ghost predicate CascadeDid(w: World, x: Name, failed: bool, w': World) {
    exists ops, mid: World :: CleanupPlan(w.services, x, ops) && Did(w, ops, mid)
      && w' == if failed then mid.(services := Unregister(mid.services, x)) else mid
  }

  lemma CascadeDone(w: World, x: Name, failed: bool, w': World)
    requires CascadeDid(w, x, failed, w')
    ensures CascadeRel(w, x, failed, w')
  {
  }

  lemma ChangeDone(w: World, change: ServiceChange, ops: seq<Op>, mid: World, w': World)
    requires Plan(w, change, ops, mid) && Did(w, ops, mid)
    requires w' == mid.(services := Finish(w.services, mid.services, change))
    ensures Changed(w, change, w')
  {
    Users.FinishShrinks(w.services, mid.services, change);
    FinishSubConfig(w.services, mid.services, change);
    if Acyclic(w.services) {
      AcyclicKept(mid.services, w'.services);
    }
  }

  lemma FinishSubConfig(s0: Services, s: Services, change: ServiceChange)
    ensures SubConfig(s, Finish(s0, s, change))
  {
  }

  /** The targets among the clients of the first `i` replicas. */
  ghost predicate CollectedFrom(reps: seq<Replica>, i: nat, f: ProxyFilter, targets: seq<Target>)
    requires i <= |reps|
  {
    && (forall t :: t in targets ==> exists j :: 0 <= j < i && FromReplica(reps[j], f, t))
    && (forall j, c :: 0 <= j < i && c in reps[j].clients && Matches(f, c, reps[j].Id()) ==>
          Target(c, reps[j].clients[c], reps[j].Id()) in targets)
    && (forall x, y :: 0 <= x < y < |targets| ==>
          targets[x].client != targets[y].client || targets[x].at != targets[y].at)
  }

  ghost predicate FromReplica(rep: Replica, f: ProxyFilter, t: Target) {
    t.client in rep.clients && t.info == rep.clients[t.client] && t.at == rep.Id() && Matches(f, t.client, t.at)
  }

  lemma CollectedFromAll(s: Services, n: Name, f: ProxyFilter, targets: seq<Target>)
    requires Unique(s) && CollectedFrom(Reps(s, n), |Reps(s, n)|, f, targets)
    ensures Collected(s, n, f, targets)
  {
    var reps := Reps(s, n);
    forall t | t in targets ensures Entry(s, t.Link(n)) == Some(t.info) && Matches(f, t.client, t.at) {
      var j :| 0 <= j < |reps| && FromReplica(reps[j], f, t);
      TabAt(reps, j);
    }
    forall l: Link | l.server == n && Entry(s, l).Some? && Matches(f, l.client, l.at)
      ensures Target(l.client, Entry(s, l).value, l.at) in targets
    {
      EntryNeedsRep(s, l);
      var j :| 0 <= j < |reps| && reps[j].Id() == l.at;
      TabAt(reps, j);
    }
  }

  // ----- the state -----

  class Plane {
    var services: Services
    const pool: IdPool
    ghost var downs: seq<Down>

    ghost function State(): World
      reads this, pool
    {
      World(services, pool.State(), downs)
    }

    constructor (loaded: Services, net: NetType)
      ensures State() == World(loaded, Fresh(net), []) && fresh(pool)
    {
      services := loaded;
      pool := new IdPool(net);
      downs := [];
    }

    // ----- the clients of one service -----

    method SetClients(n: Name, i: nat, clients: map<Client, ClientInfo>)
      requires i < |Reps(services, n)|
      modifies this`services
      ensures services == WithClients(old(services), n, i, clients)
    {
      var reps := services[n].replicas;
      services := services[n := services[n].(replicas := reps[i := reps[i].(clients := clients)])];
    }

    method AddChain(n: Name, c: Client, now: nat)
      modifies this`services
      ensures services == ServiceTable.AddChain(old(services), n, c, now)
    {
      if n in services && services[n].Registered? {
        var reps := services[n].replicas;
        for i := 0 to |reps|
          invariant services == old(services)
          invariant forall j :: 0 <= j < i ==> c !in reps[j].clients
        {
          if c in reps[i].clients {
            var info := reps[i].clients[c].AddActiveChain(now);
            SetClients(n, i, reps[i].clients[c := info]);
            return;
          }
        }
      }
    }

    method SetLatestNow(n: Name, c: Client, now: nat)
      modifies this`services
      ensures services == SetLatest(old(services), n, c, now)
    {
      if n in services && services[n].Registered? {
        var reps := services[n].replicas;
        for i := 0 to |reps|
          invariant services == old(services)
          invariant forall j :: 0 <= j < i ==> c !in reps[j].clients
        {
          if c in reps[i].clients {
            var info := reps[i].clients[c].(latest := now);
            SetClients(n, i, reps[i].clients[c := info]);
            return;
          }
        }
      }
    }

    method RemoveClient(n: Name, c: Client)
      modifies this`services
      ensures services == ServiceTable.RemoveClient(old(services), n, c)
    {
      if n in services && services[n].Registered? {
        var reps := services[n].replicas;
        for i := 0 to |reps|
          invariant services == old(services)
          invariant forall j :: 0 <= j < i ==> c !in reps[j].clients
        {
          if c in reps[i].clients {
            SetClients(n, i, reps[i].clients - {c});
            return;
          }
        }
      }
    }

    method AddClientToReplica(n: Name, at: ReplicaId, c: Client, info: ClientInfo)
      modifies this`services
      ensures services == ServiceTable.AddClientToReplica(old(services), n, at, c, info)
    {
      if n in services && services[n].Registered? {
        var reps := services[n].replicas;
        for i := 0 to |reps|
          invariant services == old(services)
          invariant forall j :: 0 <= j < i ==> reps[j].Id() != at
        {
          if reps[i].Id() == at {
            SetClients(n, i, reps[i].clients[c := info]);
            return;
          }
        }
      }
    }

    /** Both endpoints are told, then the ID is given back. */
    method SendNetTeardown(d: Down)
      modifies this`downs, pool
      ensures State() == SendTeardown(old(State()), d)
    {
      downs := downs + [d];
      pool.Release(d.netId);
    }

    method DecrementChain(n: Name, c: Client)
      modifies this, pool
      ensures State() == Teardown.DecrementChain(old(State()), n, c)
    {
      if n in services && services[n].Registered? {
        var reps := services[n].replicas;
        for i := 0 to |reps|
          invariant State() == old(State())
          invariant forall j :: 0 <= j < i ==> c !in reps[j].clients
        {
          if c in reps[i].clients {
            var info := reps[i].clients[c].RemoveActiveChain();
            var clients := if info.activeChains == 0 then reps[i].clients - {c} else reps[i].clients[c := info];
            SetClients(n, i, clients);
            if info.activeChains == 0 {
              SendNetTeardown(DownOf(info, reps[i].Id()));
            }
            return;
          }
        }
      }
    }

    // ----- teardown of one chain -----

    method DecrementAll(edges: seq<(Client, Name)>)
      modifies this, pool
      ensures State() == DecrementEdges(old(State()), edges)
    {
      for k := 0 to |edges|
        invariant DecrementEdges(State(), edges[k..]) == DecrementEdges(old(State()), edges)
      {
        assert edges[k..][0] == edges[k] && edges[k..][1..] == edges[k + 1..];
        DecrementChain(edges[k].1, edges[k].0);
      }
      assert edges[|edges|..] == [];
    }

    method TeardownDepChain(n: Name, at: ReplicaId)
      requires Acyclic(services)
      modifies this, pool
      ensures State() == Teardown.TeardownDepChain(old(State()), n, at)
    {
      var edges := CollectDepChainEdges(services, n, at);
      DecrementAll(edges);
    }

    method TeardownBackendChain(n: Name, at: ReplicaId, through: Option<Name>)
      modifies this, pool
      ensures OpRel(old(State()), BackendOp(n, at, through), State())
    {
      var edges := CollectBackendChainEdges(services, n, at, through);
      DecrementAll(edges);
    }

    /** The matching users of one replica, appended to those found so far. */
    method TargetsOn(rep: Replica, f: ProxyFilter) returns (targets: seq<Target>)
      ensures CollectedFrom([rep], 1, f, targets)
    {
      targets := [];
      var todo := rep.clients.Keys;
      while todo != {}
        invariant todo <= rep.clients.Keys
        invariant forall t :: t in targets ==> FromReplica(rep, f, t) && t.client !in todo
        invariant forall c :: c in rep.clients && c !in todo && Matches(f, c, rep.Id()) ==>
          Target(c, rep.clients[c], rep.Id()) in targets
        invariant forall x, y :: 0 <= x < y < |targets| ==> targets[x].client != targets[y].client
      {
        var c :| c in todo;
        todo := todo - {c};
        if Matches(f, c, rep.Id()) {
          targets := targets + [Target(c, rep.clients[c], rep.Id())];
        }
      }
      assert [rep][0] == rep;
    }

    method CollectTargets(n: Name, f: ProxyFilter) returns (targets: seq<Target>)
      requires Unique(services)
      ensures Collected(services, n, f, targets)
    {
      targets := [];
      var reps := Reps(services, n);
      for i := 0 to |reps|
        invariant CollectedFrom(reps, i, f, targets)
      {
        var more := TargetsOn(reps[i], f);
        CollectedAppend(reps, i, f, targets, more);
        targets := targets + more;
      }
      CollectedFromAll(services, n, f, targets);
    }

    method HasClientsWithNetId(n: Name, id: nat) returns (found: bool)
      requires Unique(services)
      ensures found <==> HasNetId(services, n, id)
    {
      var reps := Reps(services, n);
      for i := 0 to |reps|
        invariant forall j, c :: 0 <= j < i && c in reps[j].clients ==> reps[j].clients[c].netId != id
      {
        if c :| c in reps[i].clients && reps[i].clients[c].netId == id {
          TabAt(reps, i);
          assert Entry(services, Link(c, n, reps[i].Id())) == Some(reps[i].clients[c]);
          return true;
        }
      }
      if HasNetId(services, n, id) {
        NoNetIdAnywhere(services, n, id);
      }
      return false;
    }

    method TeardownChain(n: Name, f: ProxyFilter)
      requires Unique(services) && Acyclic(services)
      modifies this, pool
      ensures OpRel(old(State()), ChainOp(n, f), State())
      ensures SameShape(old(services), services) && Unique(services) && Acyclic(services)
    {
      ghost var w := State();
      if n !in services || services[n].Unregistered? {
        IdleChainOp(w, n, f);
        return;
      }
      var targets := CollectTargets(n, f);
      TeardownDepChainsOf(n, targets);
      RemoveTargetsShape(services, n, targets);
      ShapeFacts(services, RemoveTargets(services, n, targets));
      RemoveClientsOf(n, targets);
      FreeNetworksOf(n, targets);
      ChainOpDone(w, n, f, targets, State());
    }

    method TeardownDepChainsOf(n: Name, targets: seq<Target>)
      requires Unique(services) && Acyclic(services)
      modifies this, pool
      ensures State() == TeardownDepChains(old(State()), n, targets)
      ensures Unique(services) && Acyclic(services)
    {
      for k := 0 to |targets|
        invariant Unique(services) && Acyclic(services)
        invariant TeardownDepChains(State(), n, targets[k..]) == TeardownDepChains(old(State()), n, targets)
      {
        ghost var w := State();
        assert targets[k..][0] == targets[k] && targets[k..][1..] == targets[k + 1..];
        TeardownDepChain(n, targets[k].at);
        DecrementEdgesShape(w, DepChainEdges(w.services, n, targets[k].at));
        ShapeKeepsAcyclic(w.services, services);
        ShapeFacts(w.services, services);
      }
      assert targets[|targets|..] == [];
    }

    method RemoveClientsOf(n: Name, targets: seq<Target>)
      modifies this`services
      ensures services == RemoveTargets(old(services), n, targets)
    {
      for k := 0 to |targets|
        invariant RemoveTargets(services, n, targets[k..]) == RemoveTargets(old(services), n, targets)
      {
        assert targets[k..][0] == targets[k] && targets[k..][1..] == targets[k + 1..];
        RemoveClient(n, targets[k].client);
      }
      assert targets[|targets|..] == [];
    }

    method FreeNetworksOf(n: Name, targets: seq<Target>)
      requires Unique(services)
      modifies this`downs, pool
      ensures State() == FreeUnshared(old(State()), n, targets, {})
    {
      var seen: set<nat> := {};
      for k := 0 to |targets|
        invariant FreeUnshared(State(), n, targets[k..], seen) == FreeUnshared(old(State()), n, targets, {})
      {
        assert targets[k..][0] == targets[k] && targets[k..][1..] == targets[k + 1..];
        var id := targets[k].info.netId;
        if id !in seen {
          var shared := HasClientsWithNetId(n, id);
          if !shared {
            SendNetTeardown(DownOf(targets[k].info, targets[k].at));
          }
        }
        seen := seen + {id};
      }
      assert targets[|targets|..] == [];
    }

    // ----- cascades -----

    method TeardownAllBackendChainsFor(n: Name, through: Option<Name>)
      requires Unique(services)
      modifies this, pool
      ensures Did(old(State()), BackendOps(n, Reps(old(services), n), through), State())
    {
      ghost var w := State();
      var reps := Reps(services, n);
      DidNothing(w);
      for i := 0 to |reps|
        invariant Did(w, BackendOps(n, reps[..i], through), State())
      {
        ghost var before := State();
        TeardownBackendChain(n, reps[i].Id(), through);
        DidOne(w, BackendOps(n, reps[..i], through), before, BackendOp(n, reps[i].Id(), through), State());
        assert reps[..i + 1][..i] == reps[..i];
      }
      assert reps[..|reps|] == reps;
    }

    method ServicesToCleanup(x: Name) returns (order: seq<Name>)
      ensures Enumerates(order, CleanupNames(services, x))
    {
      order := [];
      var todo := services.Keys;
      while todo != {}
        invariant todo <= services.Keys
        invariant Enumerates(order, CleanupNames(services, x) - todo)
      {
        var n :| n in todo;
        todo := todo - {n};
        if n == x || (services[n].Registered? && DepsContain(services[n].config, x)) {
          order := order + [n];
        }
      }
      assert CleanupNames(services, x) - {} == CleanupNames(services, x);
    }

    method TeardownInvalidatedService(x: Name, failed: bool)
      requires Unique(services) && Acyclic(services)
      modifies this, pool
      ensures CascadeDid(old(State()), x, failed, State()) && CascadeRel(old(State()), x, failed, State())
    {
      ghost var w := State();
      var order := ServicesToCleanup(x);
      DidNothing(w);
      for k := 0 to |order|
        invariant Did(w, CleanupOps(w.services, x, order[..k]), State())
      {
        var n := order[k];
        ghost var done, before := CleanupOps(w.services, x, order[..k]), State();
        TeardownChain(n, All);
        ghost var mid := State();
        DidOne(w, done, before, ChainOp(n, All), mid);
        var through := if n == x then None else Some(x);
        TeardownAllBackendChainsFor(n, through);
        SameBackendOps(w.services, mid.services, n, through);
        DidBoth(w, done + [ChainOp(n, All)], mid, BackendOps(n, Reps(mid.services, n), through), State());
        assert order[..k + 1][..k] == order[..k];
      }
      assert order[..|order|] == order;
      ghost var mid := State();
      if failed && x in services && services[x].Registered? {
        services := services[x := Unregistered(services[x].config)];
      }
      assert State() == if failed then mid.(services := Unregister(mid.services, x)) else mid;
      CascadeDone(w, x, failed, State());
    }

    /** The service clients of the replicas that the filter selects. */
    method CollectAffected(n: Name, f: ProxyFilter) returns (affected: seq<Client>)
      ensures Covers(affected, Affected(services, n, f))
    {
      affected := [];
      var reps := Reps(services, n);
      for i := 0 to |reps|
        invariant forall c :: c in affected <==>
          exists j :: 0 <= j < i && c in reps[j].clients && Selects(f, reps[j].Id()) && c.proxy.None?
      {
        if Selects(f, reps[i].Id()) {
          ghost var before := affected;
          var todo := reps[i].clients.Keys;
          while todo != {}
            invariant todo <= reps[i].clients.Keys
            invariant forall c :: c in affected <==>
              c in before || (c in reps[i].clients && c !in todo && c.proxy.None?)
          {
            var c :| c in todo;
            todo := todo - {c};
            if c.proxy.None? {
              affected := affected + [c];
            }
          }
        }
      }
    }

    method TeardownUpstream(n: Name, c: Client)
      requires Unique(services) && Acyclic(services)
      modifies this, pool
      ensures Did(old(State()), UpstreamOf(n, c), State())
    {
      ghost var w := State();
      DidNothing(w);
      if c.replica.Some? {
        ghost var first := ChainOp(c.name, OnReplica(c.replica.value));
        TeardownChain(c.name, OnReplica(c.replica.value));
        ghost var mid := State();
        DidFirst(w, first, mid);
        TeardownBackendChain(c.name, c.replica.value, Some(n));
        DidOne(w, [first], mid, BackendOp(c.name, c.replica.value, Some(n)), State());
        assert UpstreamOf(n, c) == [first] + [BackendOp(c.name, c.replica.value, Some(n))];
      }
    }

    method TeardownPartialReplicas(n: Name, f: ProxyFilter)
      requires Unique(services) && Acyclic(services)
      modifies this, pool
      ensures PartialRel(old(State()), n, f, State())
    {
      ghost var w := State();
      var affected := CollectAffected(n, f);
      DidNothing(w);
      for k := 0 to |affected|
        invariant Did(w, UpstreamOps(n, affected[..k]), State())
      {
        ghost var before := State();
        TeardownUpstream(n, affected[k]);
        DidBoth(w, UpstreamOps(n, affected[..k]), before, UpstreamOf(n, affected[k]), State());
        assert affected[..k + 1][..k] == affected[..k];
      }
      assert affected[..|affected|] == affected;
      ghost var mid := State();
      TeardownChain(n, f);
      DidOne(w, UpstreamOps(n, affected), mid, ChainOp(n, f), State());
    }

    // ----- changes -----

    method RepsOnIp(n: Name, ip: Ip) returns (reps: seq<Replica>)
      ensures reps == RepsOn(Reps(services, n), ip)
    {
      reps := [];
      var all := Reps(services, n);
      for i := 0 to |all|
        invariant reps == RepsOn(all[..i], ip)
      {
        assert all[..i + 1][..i] == all[..i];
        if all[i].ip == ip {
          reps := reps + [all[i]];
        }
      }
      assert all[..|all|] == all;
    }

    method TeardownBackendChainsOf(n: Name, reps: seq<Replica>)
      requires Unique(services)
      modifies this, pool
      ensures Did(old(State()), BackendOps(n, reps, None), State())
    {
      ghost var w := State();
      DidNothing(w);
      for i := 0 to |reps|
        invariant Did(w, BackendOps(n, reps[..i], None), State())
      {
        ghost var before := State();
        TeardownBackendChain(n, reps[i].Id(), None);
        DidOne(w, BackendOps(n, reps[..i], None), before, BackendOp(n, reps[i].Id(), None), State());
        assert reps[..i + 1][..i] == reps[..i];
      }
      assert reps[..|reps|] == reps;
    }

    method RemoveReplicas(n: Name, keep: ReplicaId -> bool)
      modifies this`services
      ensures services == DropReplicas(old(services), n, keep)
    {
      if n in services {
        services := services[n := KeepReplicas(services[n], keep)];
      }
    }

    method ApplyReplicasRemoved(n: Name, ip: Ip)
      requires Unique(services) && Acyclic(services)
      modifies this, pool
      ensures Changed(old(State()), ReplicasRemoved(n, ip), State())
    {
      ghost var w := State();
      if AllOnIp(services, n, ip) {
        TeardownInvalidatedService(n, true);
        LastReplicas(w, n, ReplicasRemoved(n, ip), State());
      } else {
        TeardownReplicasOn(n, ip);
        ghost var mid := State();
        RemoveReplicas(n, OffIp(ip));
        SomeReplicas(w, BackendOps(n, RepsOn(Reps(w.services, n), ip), None), n, OnIp(ip), mid,
                     ReplicasRemoved(n, ip), State());
      }
    }

    /** The backend chains of the replicas on the host, then whatever else runs through these replicas. */
    method TeardownReplicasOn(n: Name, ip: Ip)
      requires Unique(services) && Acyclic(services)
      modifies this, pool
      ensures ThenPartialDid(old(State()), BackendOps(n, RepsOn(Reps(old(services), n), ip), None), n, OnIp(ip), State())
    {
      var reps := RepsOnIp(n, ip);
      TeardownBackendChainsOf(n, reps);
      TeardownPartialReplicas(n, OnIp(ip));
    }

    method ApplyReplicaRemoved(n: Name, at: ReplicaId)
      requires Unique(services) && Acyclic(services)
      modifies this, pool
      ensures Changed(old(State()), ReplicaRemoved(n, at), State())
    {
      ghost var w := State();
      if OnlyOne(services, n) {
        TeardownInvalidatedService(n, true);
        LastReplicas(w, n, ReplicaRemoved(n, at), State());
      } else {
        TeardownReplica(n, at);
        ghost var mid := State();
        RemoveReplicas(n, OtherThan(at));
        SomeReplicas(w, [BackendOp(n, at, None)], n, OnReplica(at), mid, ReplicaRemoved(n, at), State());
      }
    }

    method TeardownReplica(n: Name, at: ReplicaId)
      requires Unique(services) && Acyclic(services)
      modifies this, pool
      ensures ThenPartialDid(old(State()), [BackendOp(n, at, None)], n, OnReplica(at), State())
    {
      ghost var w := State();
      TeardownBackendChain(n, at, None);
      DidFirst(w, BackendOp(n, at, None), State());
      TeardownPartialReplicas(n, OnReplica(at));
    }

    method ServicesOfProxy(ip: Ip) returns (order: seq<Name>)
      ensures Enumerates(order, NamesOfProxy(services, ip))
    {
      order := [];
      var todo := services.Keys;
      while todo != {}
        invariant todo <= services.Keys
        invariant Enumerates(order, NamesOfProxy(services, ip) - todo)
      {
        var n :| n in todo;
        todo := todo - {n};
        if HasUserOf(services, n, ip) {
          assert n in NamesOfProxy(services, ip);
          order := order + [n];
        } else {
          UserNamesHave(services, ip, n);
        }
      }
      forall n ensures n in NamesOfProxy(services, ip) ==> n in services {
        UserNamesHave(services, ip, n);
      }
      assert NamesOfProxy(services, ip) - {} == NamesOfProxy(services, ip);
    }

    method ApplyProxyDisconnected(ip: Ip)
      requires Unique(services) && Acyclic(services)
      modifies this, pool
      ensures Changed(old(State()), ProxyDisconnected(ip), State())
    {
      ghost var w := State();
      var order := ServicesOfProxy(ip);
      DidNothing(w);
      for k := 0 to |order|
        invariant Did(w, ProxyOps(order[..k], ip), State())
      {
        ghost var before := State();
        TeardownChain(order[k], ByIp(ip));
        DidOne(w, ProxyOps(order[..k], ip), before, ChainOp(order[k], ByIp(ip)), State());
        assert order[..k + 1][..k] == order[..k];
      }
      assert order[..|order|] == order;
      ChangeDone(w, ProxyDisconnected(ip), ProxyOps(order, ip), State(), State());
    }

    method ApplyInvalidated(x: Name, change: ServiceChange)
      requires Unique(services) && Acyclic(services)
      requires change == Removed(x) || change == ProxyDepsChanged(x)
      modifies this, pool
      ensures Changed(old(State()), change, State())
    {
      ghost var w := State();
      TeardownInvalidatedService(x, change.Removed?);
      ghost var mid := State();
      if change.Removed? {
        services := services - {x};
      }
      Invalidated(w, x, change, mid, State());
    }

    method ApplyReachabilityChanged(n: Name)
      requires Unique(services) && Acyclic(services)
      modifies this, pool
      ensures Changed(old(State()), ReachabilityChanged(n), State())
    {
      ghost var w := State();
      TeardownChain(n, All);
      ghost var cut := State();
      DidFirst(w, ChainOp(n, All), cut);
      TeardownAllBackendChainsFor(n, None);
      SameBackendOps(w.services, cut.services, n, None);
      DidBoth(w, [ChainOp(n, All)], cut, BackendOps(n, Reps(w.services, n), None), State());
      ghost var ops := [ChainOp(n, All)] + BackendOps(n, Reps(w.services, n), None);
      ChangeDone(w, ReachabilityChanged(n), ops, State(), State());
    }

    method ApplyTimedOut(n: Name, c: Client)
      requires Unique(services) && Acyclic(services)
      modifies this, pool
      ensures Changed(old(State()), ProxyClientTimedOut(n, c), State())
    {
      ghost var w := State();
      TeardownChain(n, ByClient(c));
      DidFirst(w, ChainOp(n, ByClient(c)), State());
      ChangeDone(w, ProxyClientTimedOut(n, c), [ChainOp(n, ByClient(c))], State(), State());
    }

    method ApplyChange(change: ServiceChange)
      requires Unique(services) && Acyclic(services)
      modifies this, pool
      ensures Changed(old(State()), change, State())
    {
      match change
      case Removed(x) => ApplyInvalidated(x, change);
      case ProxyDepsChanged(x) => ApplyInvalidated(x, change);
      case TriggersChanged(n) =>
        ghost var w := State();
        TeardownAllBackendChainsFor(n, None);
        ChangeDone(w, change, BackendOps(n, Reps(w.services, n), None), State(), State());
      case ReachabilityChanged(n) => ApplyReachabilityChanged(n);
      case ReplicasRemoved(n, ip) => ApplyReplicasRemoved(n, ip);
      case ReplicaRemoved(n, at) => ApplyReplicaRemoved(n, at);
      case ProxyDisconnected(ip) => ApplyProxyDisconnected(ip);
      case ProxyClientTimedOut(n, c) => ApplyTimedOut(n, c);
    }

    method ApplyChanges(changes: seq<ServiceChange>)
      requires Unique(services) && Acyclic(services)
      modifies this, pool
      ensures ApplyRel(old(State()), changes, State()) && Unique(services) && Acyclic(services)
    {
      ghost var w := State();
      for k := 0 to |changes|
        invariant ApplyRel(w, changes[..k], State()) && Unique(services) && Acyclic(services)
      {
        ghost var before := State();
        ApplyChange(changes[k]);
        ApplyExtend(w, changes, k, before, State());
      }
      assert changes[..|changes|] == changes;
    }

    // ----- the sources of changes -----

    /** A node has gone: its replicas and the users of its proxy go with it. */
    method HandleNodeDisconnect(ip: Ip)
      requires Unique(services) && Acyclic(services)
      modifies this, pool
      ensures DisconnectRel(old(State()), ip, State()) && Unique(services) && Acyclic(services)
    {
      var changes := DetectNodeDisconnectChanges(services, ip);
      ApplyChanges(changes);
    }

    method ApplyTimeouts(now: nat)
      requires Unique(services) && Acyclic(services)
      modifies this, pool
      ensures TimeoutsRel(old(State()), now, State()) && Unique(services) && Acyclic(services)
    {
      var changes := CollectTimedOutClients(services, now);
      if changes != [] {
        ApplyChanges(changes);
      }
    }

    /** A host sends the list of what it runs. */
    method ApplyServicesList(ip: Ip, list: seq<Listed>)
      requires Unique(services) && Acyclic(services)
      modifies this, pool
      ensures ServicesListRel(old(State()), ip, list, State()) && Unique(services)
    {
      var changes := DetectServicesListChanges(services, ip, list);
      ApplyChanges(changes);
      ghost var mid := State();
      for k := 0 to |list|
        invariant State() == mid.(services := AddListed(mid.services, ip, list[..k]))
      {
        assert list[..k + 1][..k] == list[..k];
        var item := list[k];
        if item.name in services {
          services := services[item.name := AddReplica(services[item.name], ip, item.port, item.docker)];
        }
      }
      assert list[..|list|] == list;
      Reconcile.AddListedPorts(mid.services, ip, list);
    }

    /** Existing services take the loaded configuration, new ones are inserted. */
    method MergeLoaded(loaded: Services)
      modifies this`services
      ensures services == Merge(old(services), loaded)
    {
      ghost var s := services;
      var todo := loaded.Keys;
      while todo != {}
        invariant todo <= loaded.Keys && services == Merge(s, Without(loaded, todo))
      {
        var n :| n in todo;
        MergeStep(s, loaded, todo, n);
        services := services[n := if n in services then services[n].(config := loaded[n].config) else loaded[n]];
        todo := todo - {n};
      }
      assert Without(loaded, {}) == loaded;
    }

    method ApplyConfigUpdate(loaded: Services, now: nat)
      requires Unique(services) && Acyclic(services)
      modifies this, pool
      ensures ReloadRel(old(State()), loaded, now, State())
    {
      var changes := DetectConfigChanges(services, loaded, now);
      ApplyChanges(changes);
      MergeLoaded(loaded);
    }
  }

  /** The change has been applied, and further ones may follow. */
  ghost predicate Changed(w: World, change: ServiceChange, w': World) {
    ChangeRel(w, change, w') && Unique(w'.services) && (Acyclic(w.services) ==> Acyclic(w'.services))
  }

  ghost function Without(loaded: Services, names: set<Name>): Services {
    map n | n in loaded && n !in names :: loaded[n]
  }

  lemma MergeStep(s: Services, loaded: Services, todo: set<Name>, n: Name)
    requires n in todo && n in loaded
    ensures var now := Merge(s, Without(loaded, todo));
      Merge(s, Without(loaded, todo - {n})) ==
      now[n := if n in now then now[n].(config := loaded[n].config) else loaded[n]]
  {
  }

  lemma ApplyExtend(w: World, changes: seq<ServiceChange>, k: nat, mid: World, w': World)
    requires k < |changes| && ApplyRel(w, changes[..k], mid) && ChangeRel(mid, changes[k], w')
    ensures ApplyRel(w, changes[..k + 1], w')
  {
    assert changes[..k + 1][..k] == changes[..k];
  }

  /** The change takes the last replicas of `n`. */
  predicate TakesLast(s: Services, n: Name, change: ServiceChange) {
    match change
    case ReplicasRemoved(m, ip) => m == n && AllOnIp(s, n, ip)
    case ReplicaRemoved(m, _) => m == n && OnlyOne(s, n)
    case _ => false
  }

  lemma LastPlan(w: World, n: Name, change: ServiceChange, ops: seq<Op>, mid: World)
    requires CleanupPlan(w.services, n, ops) && TakesLast(w.services, n, change)
    ensures Plan(w, change, ops, mid)
    ensures Finish(w.services, mid.services, change) == Unregister(mid.services, n)
  {
  }

  lemma LastReplicas(w: World, n: Name, change: ServiceChange, w': World)
    requires CascadeDid(w, n, true, w') && TakesLast(w.services, n, change)
    ensures Changed(w, change, w')
  {
    var ops, mid: World :| CleanupPlan(w.services, n, ops) && Did(w, ops, mid)
      && w' == mid.(services := Unregister(mid.services, n));
    LastPlan(w, n, change, ops, mid);
    ChangeDone(w, change, ops, mid, w');
  }

  lemma SomeReplicas(w: World, before: seq<Op>, n: Name, f: ProxyFilter, mid: World, change: ServiceChange, w': World)
    requires ThenPartialDid(w, before, n, f, mid)
    requires (change.ReplicasRemoved? && change.name == n && f == OnIp(change.ip) && !AllOnIp(w.services, n, change.ip)
              && before == BackendOps(n, RepsOn(Reps(w.services, n), change.ip), None))
      || (change.ReplicaRemoved? && change.name == n && f == OnReplica(change.at) && !OnlyOne(w.services, n)
          && before == [BackendOp(n, change.at, None)])
    requires w' == mid.(services := Finish(w.services, mid.services, change))
    ensures Changed(w, change, w')
  {
    var cut: World :| Did(w, before, cut) && PartialRel(cut, n, f, mid);
    var partial :| PartialPlan(cut.services, n, f, partial) && Did(cut, partial, mid);
    DidBoth(w, before, cut, partial, mid);
    assert ThenPartial(w, before, n, f, before + partial, mid);
    ChangeDone(w, change, before + partial, mid, w');
  }

  lemma Invalidated(w: World, x: Name, change: ServiceChange, mid: World, w': World)
    requires change == Removed(x) || change == ProxyDepsChanged(x)
    requires CascadeDid(w, x, change.Removed?, mid)
    requires w' == if change.Removed? then mid.(services := mid.services - {x}) else mid
    ensures Changed(w, change, w')
  {
    var ops, cut: World :| CleanupPlan(w.services, x, ops) && Did(w, ops, cut)
      && mid == if change.Removed? then cut.(services := Unregister(cut.services, x)) else cut;
    ChangeDone(w, change, ops, cut, w');
  }

  lemma ChainOpDone(w: World, n: Name, f: ProxyFilter, targets: seq<Target>, w': World)
    requires Unique(w.services) && Acyclic(w.services) && Collected(w.services, n, f, targets)
    requires w' == TeardownChain(w, n, targets)
    ensures OpRel(w, ChainOp(n, f), w')
    ensures SameShape(w.services, w'.services) && Unique(w'.services) && Acyclic(w'.services)
  {
    OpShape(w, ChainOp(n, f), w');
    ShapeFacts(w.services, w'.services);
    ShapeKeepsAcyclic(w.services, w'.services);
  }

  lemma CollectedAppend(reps: seq<Replica>, i: nat, f: ProxyFilter, targets: seq<Target>, more: seq<Target>)
    requires i < |reps| && UniqueReps(reps)
    requires CollectedFrom(reps, i, f, targets) && CollectedFrom([reps[i]], 1, f, more)
    ensures CollectedFrom(reps, i + 1, f, targets + more)
  {
    var all := targets + more;
    forall t | t in all ensures exists j :: 0 <= j < i + 1 && FromReplica(reps[j], f, t) {
      if t in more {
        assert FromReplica([reps[i]][0], f, t);
        assert FromReplica(reps[i], f, t);
      }
    }
    forall j, c | 0 <= j < i + 1 && c in reps[j].clients && Matches(f, c, reps[j].Id())
      ensures Target(c, reps[j].clients[c], reps[j].Id()) in all
    {
      if j == i {
        assert c in [reps[i]][0].clients;
      }
    }
    forall x, y | 0 <= x < y < |all| ensures all[x].client != all[y].client || all[x].at != all[y].at {
      if x < |targets| <= y {
        assert all[x] in targets && all[y] in more;
        var j :| 0 <= j < i && FromReplica(reps[j], f, all[x]);
        assert FromReplica([reps[i]][0], f, all[y]);
      }
    }
  }

  lemma NoNetIdAnywhere(s: Services, n: Name, id: nat)
    requires Unique(s)
    requires forall j, c :: 0 <= j < |Reps(s, n)| && c in Reps(s, n)[j].clients ==> Reps(s, n)[j].clients[c].netId != id
    ensures !HasNetId(s, n, id)
  {
    forall l: Link | l.server == n && Entry(s, l).Some? ensures Entry(s, l).value.netId != id {
      EntryNeedsRep(s, l);
      var j :| 0 <= j < |Reps(s, n)| && Reps(s, n)[j].Id() == l.at;
      TabAt(Reps(s, n), j);
    }
  }
}
