/** In the flow regime a request keeps the flow invariant, and a chain that times out leaves no trace. */
module FlowSetup {
  import opened Types
  import opened NetIdPool
  import opened ServiceTable
  import opened Chains
  import opened Teardown
  import opened Settlement
  import opened Setup
  import opened ChainSetup
  import opened Requests
  import opened Sharing
  import opened Flow
  import opened FlowTeardown
  import opened Conservation
  import opened FlowTriggers
  import opened FlowChanges

  // ----- time stamps do not matter -----

  lemma SameLoadsBalance(a: Services, b: Services)
    requires SameShape(a, b) && Balanced(a, {})
    requires forall l :: Load(b, l) == Load(a, l)
    ensures Balanced(b, {})
  {
    ShapeFacts(a, b);
    forall n, r | HasRep(b, n, r) && Deps(b, n) != [] ensures Load(b, OutLink(b, n, r)) == Inflow(b, n, r, {}) {
      SameSole(a, b, Deps(b, n)[0]);
      assert HasRep(a, n, r) && OutLink(b, n, r) == OutLink(a, n, r);
      forall l ensures LoadWithout(b, {}, l) == LoadWithout(a, {}, l) {
        assert Load(b, l) == Load(a, l);
      }
      InflowShift(a, {}, b, {}, Link(ServiceClient(n, r), n, r), 0);
    }
  }

  lemma LoadOfEntry(s: Services, l: Link)
    ensures Load(s, l) == if Entry(s, l).Some? then Entry(s, l).value.activeChains else 0
  {
  }

  lemma RefreshedKeepsFlow(a: Services, b: Services)
    requires FlowInvariant(a) && Refreshed(a, b)
    ensures FlowInvariant(b)
  {
    RegimeShape(a, b);
    ShapeFacts(a, b);
    SameEdgeKinds(a, b);
    forall l | Entry(b, l).Some? ensures LinkOk(b, l, Entry(b, l).value) {
      assert Alike(Entry(a, l), Entry(b, l));
      assert LinkOk(a, l, Entry(a, l).value);
    }
    forall n, c: Client, r, q | c.proxy.Some? && c in Tab(b, n, r) && c in Tab(b, n, q) ensures r == q {
      assert Alike(Entry(a, Link(c, n, r)), Entry(b, Link(c, n, r)));
      assert Alike(Entry(a, Link(c, n, q)), Entry(b, Link(c, n, q)));
    }
    forall l ensures Load(b, l) == Load(a, l) {
      assert Alike(Entry(a, l), Entry(b, l));
      LoadOfEntry(a, l);
      LoadOfEntry(b, l);
    }
    SameLoadsBalance(a, b);
  }

  lemma RefreshedHolds(a: Services, b: Services)
    requires Refreshed(a, b)
    ensures forall id :: Held(a, id) <==> Held(b, id)
    ensures ProperlyShared(a) ==> ProperlyShared(b)
  {
    forall id ensures Held(a, id) <==> Held(b, id) {
      if Held(a, id) {
        var l :| Entry(a, l).Some? && Entry(a, l).value.netId == id;
        assert Alike(Entry(a, l), Entry(b, l));
        assert Entry(b, l).Some?;
      }
      if Held(b, id) {
        var l :| Entry(b, l).Some? && Entry(b, l).value.netId == id;
        assert Alike(Entry(a, l), Entry(b, l));
        assert Entry(a, l).Some?;
      }
    }
    forall x, y | SameId(b, x, y) ensures SameId(a, x, y) {
      assert Alike(Entry(a, x), Entry(b, x)) && Alike(Entry(a, y), Entry(b, y));
    }
  }

  // ----- the edges of a new chain -----

  lemma BuiltHead(s: Services, deps: seq<Name>, n: Name, at: Option<ReplicaId>)
    requires deps != [] && AllRegistered(BuildChain(s, deps, n, at)).Some?
    ensures |Reps(s, deps[0])| >= 1
    ensures AllRegistered(BuildChain(s, deps[1..], deps[0], PickReplica(s, deps[0]))).Some?
  {
    var chain := BuildChain(s, deps, n, at);
    assert chain[1..] == BuildChain(s, deps[1..], deps[0], PickReplica(s, deps[0]));
    assert chain[0].IntoRegistered().Some?;
  }

  lemma {:induction false} BuiltNeedsReplicas(s: Services, deps: seq<Name>, n: Name, at: Option<ReplicaId>, j: nat)
    requires AllRegistered(BuildChain(s, deps, n, at)).Some? && j < |deps|
    ensures |Reps(s, deps[j])| >= 1
    decreases |deps|
  {
    BuiltHead(s, deps, n, at);
    if j > 0 {
      BuiltNeedsReplicas(s, deps[1..], deps[0], PickReplica(s, deps[0]), j - 1);
    }
  }

  /** The edges are the chain of replica `at` followed by the edge of the user. */
  ghost predicate ChainOf(s: Services, req: Request, at: ReplicaId, edges: seq<RegisteredEdge>) {
    var deps := Deps(s, req.service);
    && |edges| == |deps| + 1
    && (forall j :: 0 <= j < |deps| ==> edges[j].Link() == LinkAt(s, ServiceClient(req.service, at), deps, j))
    && edges[|deps|] == ProxyEdge(req, at)
    && (forall j :: 0 <= j < |deps| ==> |Reps(s, deps[j])| == 1)
  }

  lemma ChainForSpec(s: Services, req: Request, at: ReplicaId)
    requires Sticky(s) && ChainFor(s, req, at).Some?
    ensures ChainOf(s, req, at, ChainFor(s, req, at).value)
  {
    var n := req.service;
    var deps := Deps(s, n);
    forall j | 0 <= j < |deps| ensures |Reps(s, deps[j])| == 1 {
      BuiltNeedsReplicas(s, deps, n, Some(at), j);
      assert deps[j] in Deps(s, n);
    }
    BuilderIsShape(s, ServiceClient(n, at), n, at, deps);
  }

  lemma DistinctServers(s: Services, req: Request, at: ReplicaId, edges: seq<RegisteredEdge>, j: nat, k: nat)
    requires Coherent(s) && ChainOf(s, req, at, edges) && j < k < |edges|
    ensures edges[j].server != edges[k].server
  {
    var deps := Deps(s, req.service);
    assert edges[j].Link().server == deps[j];
    if k == |deps| {
      NotOwnDep(s, req.service);
    } else {
      assert edges[k].Link().server == deps[k];
      LinksDistinct(s, req.service, at, j, k);
    }
  }

  lemma SoleHasRep(s: Services, n: Name, c: Client, e: RegisteredEdge)
    requires |Reps(s, n)| == 1 && e.server == n && e.at == Sole(s, n)
    ensures HasRep(s, n, Sole(s, n)) && OnlyHere(s, e)
  {
    assert Reps(s, n)[0].Id() == Sole(s, n);
    forall r | e.client in Tab(s, n, r) ensures r == e.at {
      TabNeedsRep(s, n, r);
      SoleOf(s, n, r);
    }
  }

  lemma ChainIsReady(s: Services, req: Request, at: ReplicaId, edges: seq<RegisteredEdge>)
    requires FlowInvariant(s) && ChainOf(s, req, at, edges)
    requires HasRep(s, req.service, at) && Holder(s, req.service, req.Client()).None?
    ensures Ready(s, edges)
  {
    var deps := Deps(s, req.service);
    forall k | 0 <= k < |edges| ensures HasRep(s, edges[k].server, edges[k].at) && OnlyHere(s, edges[k]) {
      if k < |deps| {
        assert edges[k].Link() == LinkAt(s, ServiceClient(req.service, at), deps, k);
        SoleHasRep(s, deps[k], edges[k].client, edges[k]);
      } else {
        HolderSpec(s, req.service, req.Client());
      }
    }
    forall j, k | 0 <= j < k < |edges| ensures edges[j].server != edges[k].server {
      DistinctServers(s, req, at, edges, j, k);
    }
    forall k | 0 <= k < |edges| && Entry(s, edges[k].Link()).Some?
      ensures Entry(s, edges[k].Link()).value.activeChains >= 1
    {
      assert LinkOk(s, edges[k].Link(), Entry(s, edges[k].Link()).value);
    }
  }

  lemma OnChainOf(s: Services, req: Request, at: ReplicaId, edges: seq<RegisteredEdge>, l: Link)
    requires ChainOf(s, req, at, edges)
    ensures OnChain(edges, l) <==>
      l == Link(req.Client(), req.service, at) || l in ChainLinks(s, ServiceClient(req.service, at), Deps(s, req.service))
  {
    var deps := Deps(s, req.service);
    var links := ChainLinks(s, ServiceClient(req.service, at), deps);
    if l in links {
      var j :| 0 <= j < |links| && links[j] == l;
      assert edges[j].Link() == l;
    }
    if l == Link(req.Client(), req.service, at) {
      assert edges[|deps|].Link() == l;
    }
    if OnChain(edges, l) {
      var k :| 0 <= k < |edges| && edges[k].Link() == l;
      if k < |deps| {
        assert links[k] == l;
      }
    }
  }

  // ----- a chain and the edge that it starts with -----

  /** A chain may start with `p`: a new user, or a trigger of an existing replica; its replicas exist. */
  ghost predicate MayStart(s: Services, p: Link) {
    && Entry(s, p).None? && HasRep(s, p.server, p.at) && !IsOut(s, p)
    && (forall j :: 0 <= j < |Deps(s, p.server)| ==> |Reps(s, Deps(s, p.server)[j])| == 1)
    && if p.client.proxy.Some? then p.client.replica.None? && Holder(s, p.server, p.client).None?
       else
         && p.client.replica.Some? && HasRep(s, p.client.name, p.client.replica.value)
         && TriggersTo(s, p.client.name, p.server)
  }

  /** The edges are `p` and the chain behind it. */
  ghost predicate StartsWith(s: Services, edges: seq<RegisteredEdge>, p: Link) {
    && MayStart(s, p)
    && forall l :: OnChain(edges, l) <==>
         l == p || l in ChainLinks(s, ServiceClient(p.server, p.at), Deps(s, p.server))
  }

  lemma IsConfigured(s: Services, p: Link)
    requires MayStart(s, p)
    ensures Configured(s, p.server)
  {
    forall i | 0 <= i < |Deps(s, p.server)| ensures Deps(s, p.server)[i] in s {
      assert |Reps(s, Deps(s, p.server)[i])| == 1;
    }
  }

  lemma UserChainStarts(s: Services, req: Request, at: ReplicaId, edges: seq<RegisteredEdge>)
    requires Unique(s) && ChainOf(s, req, at, edges)
    requires HasRep(s, req.service, at) && Holder(s, req.service, req.Client()).None?
    ensures StartsWith(s, edges, Link(req.Client(), req.service, at))
  {
    HolderSpec(s, req.service, req.Client());
    forall l ensures OnChain(edges, l) <==>
      l == Link(req.Client(), req.service, at) || l in ChainLinks(s, ServiceClient(req.service, at), Deps(s, req.service))
    {
      OnChainOf(s, req, at, edges, l);
    }
  }

  // ----- a new chain keeps the invariant -----

  lemma SetUpIsOneChain(w: World, edges: seq<RegisteredEdge>, p: Link, w': World)
    requires StartsWith(w.services, edges, p) && SetUp(w, edges, w')
    ensures OneChain(w.services, {}, w'.services, {}, p.server, p.at, p, 1)
  {
    var s, s' := w.services, w'.services;
    var links := ChainLinks(s, ServiceClient(p.server, p.at), Deps(s, p.server));
    forall l ensures LoadWithout(s', {}, l) == LoadWithout(s, {}, l) + if l == p || l in links then 1 else 0 {
      LoadOfEntry(s, l);
      LoadOfEntry(s', l);
      if OnChain(edges, l) {
        var k :| 0 <= k < |edges| && edges[k].Link() == l;
        assert EdgeUp(w, edges[k], w');
      }
    }
  }

  /** An edge behind starts at an existing replica and leads to the first service that the replica depends on. */
  lemma LinkSource(s: Services, p: Link, l: Link)
    requires Coherent(s) && MayStart(s, p)
    requires l in ChainLinks(s, ServiceClient(p.server, p.at), Deps(s, p.server))
    ensures IsOut(s, l) && l.client.replica.Some? && HasRep(s, l.client.name, l.client.replica.value)
  {
    var deps, links := Deps(s, p.server), ChainLinks(s, ServiceClient(p.server, p.at), Deps(s, p.server));
    IsConfigured(s, p);
    LinksAreOut(s, p.server, p.at, l);
    var j :| 0 <= j < |links| && links[j] == l;
    if j > 0 {
      assert Reps(s, deps[j - 1])[0].Id() == Sole(s, deps[j - 1]);
    }
  }

  lemma UpCounts(w: World, e: RegisteredEdge, w': World)
    requires EdgeUp(w, e, w')
    ensures Entry(w'.services, e.Link()).value.activeChains >= 1
    ensures IsNew(w.services, e) ==>
      Entry(w'.services, e.Link()).value.activeChains == 1
      && Entry(w'.services, e.Link()).value.serverNet != UNSPECIFIED
  {
    if IsNew(w.services, e) {
      MadeIsServed(w.pool.net, e, Entry(w'.services, e.Link()).value);
    }
  }

  lemma UserIsNew(s: Services, req: Request, at: ReplicaId)
    requires Unique(s) && Holder(s, req.service, req.Client()).None?
    ensures IsNew(s, ProxyEdge(req, at))
  {
    HolderSpec(s, req.service, req.Client());
  }

  lemma NewLinkOk(w: World, edges: seq<RegisteredEdge>, p: Link, w': World, k: nat)
    requires Coherent(w.services) && StartsWith(w.services, edges, p) && k < |edges|
    requires SameShape(w.services, w'.services) && EdgeUp(w, edges[k], w')
    ensures var l := edges[k].Link(); Entry(w'.services, l).Some? && LinkOk(w'.services, l, Entry(w'.services, l).value)
  {
    var l := edges[k].Link();
    UpCounts(w, edges[k], w');
    SameEdgeKinds(w.services, w'.services);
    ShapeFacts(w.services, w'.services);
    assert OnChain(edges, l);
    if l != p {
      LinkSource(w.services, p, l);
    }
  }

  lemma SetUpLinked(w: World, edges: seq<RegisteredEdge>, p: Link, w': World)
    requires FlowInvariant(w.services) && StartsWith(w.services, edges, p) && SetUp(w, edges, w')
    ensures Linked(w'.services)
  {
    SameEdgeKinds(w.services, w'.services);
    forall l | Entry(w'.services, l).Some? ensures LinkOk(w'.services, l, Entry(w'.services, l).value) {
      if OnChain(edges, l) {
        var k :| 0 <= k < |edges| && edges[k].Link() == l;
        assert EdgeUp(w, edges[k], w');
        NewLinkOk(w, edges, p, w', k);
      } else {
        assert LinkOk(w.services, l, Entry(w.services, l).value);
      }
    }
  }

  /** No other edge that a chain starts with is touched. */
  lemma SetUpRoots(w: World, edges: seq<RegisteredEdge>, p: Link, w': World, l: Link)
    requires Coherent(w.services) && StartsWith(w.services, edges, p) && SetUp(w, edges, w') && !IsOut(w.services, l)
    ensures l == p || Entry(w'.services, l) == Entry(w.services, l)
  {
    if l in ChainLinks(w.services, ServiceClient(p.server, p.at), Deps(w.services, p.server)) {
      LinkSource(w.services, p, l);
    }
  }

  lemma SetUpOnce(w: World, edges: seq<RegisteredEdge>, p: Link, w': World)
    requires Unique(w.services) && Coherent(w.services) && ProxyOnce(w.services)
    requires StartsWith(w.services, edges, p) && SetUp(w, edges, w')
    ensures ProxyOnce(w'.services)
  {
    var s, s' := w.services, w'.services;
    if p.client.proxy.Some? {
      HolderSpec(s, p.server, p.client);
    }
    forall n, c: Client, r, q | c.proxy.Some? && c in Tab(s', n, r) && c in Tab(s', n, q) ensures r == q {
      SetUpRoots(w, edges, p, w', Link(c, n, r));
      SetUpRoots(w, edges, p, w', Link(c, n, q));
      assert Entry(s', Link(c, n, r)).Some? && Entry(s', Link(c, n, q)).Some?;
      assert Entry(s, Link(c, n, r)).Some? ==> c in Tab(s, n, r);
      assert Entry(s, Link(c, n, q)).Some? ==> c in Tab(s, n, q);
    }
  }

  // ----- networks -----

  /** The IDs in use are exactly those of the entries. */
  ghost predicate PoolExact(w: World) {
    Valid(w.pool) && forall id: nat :: Live(w.pool, id) <==> Held(w.services, id)
  }

  /** Where the network of an entry comes from. */
  lemma IdOrigin(w: World, edges: seq<RegisteredEdge>, w': World, l: Link)
    requires SetUp(w, edges, w') && Entry(w'.services, l).Some?
    ensures if Entry(w.services, l).Some? then Entry(w'.services, l).value.netId == Entry(w.services, l).value.netId
            else exists k :: 0 <= k < |edges| && edges[k].Link() == l && IsNew(w.services, edges[k])
                             && !Live(w.pool, Entry(w'.services, l).value.netId)
  {
    if OnChain(edges, l) {
      var k :| 0 <= k < |edges| && edges[k].Link() == l;
      assert EdgeUp(w, edges[k], w');
      assert Entry(w.services, l).None? ==> IsNew(w.services, edges[k]);
    }
  }

  lemma OldIdsApart(w: World, edges: seq<RegisteredEdge>, w': World, x: Link, y: Link)
    requires SetUp(w, edges, w') && PoolExact(w) && SameId(w'.services, x, y) && Entry(w.services, x).Some?
    ensures SameId(w.services, x, y)
  {
    IdOrigin(w, edges, w', x);
    IdOrigin(w, edges, w', y);
    assert Held(w.services, Entry(w'.services, x).value.netId);
  }

  lemma SetUpShared(w: World, edges: seq<RegisteredEdge>, w': World)
    requires SetUp(w, edges, w') && PoolExact(w) && ProperlyShared(w.services)
    ensures ProperlyShared(w'.services)
  {
    var s, s' := w.services, w'.services;
    forall x, y | SameId(s', x, y) ensures x == y || SharedByProxy(x, y) {
      if Entry(s, x).Some? {
        OldIdsApart(w, edges, w', x, y);
      } else if Entry(s, y).Some? {
        OldIdsApart(w, edges, w', y, x);
      } else {
        IdOrigin(w, edges, w', x);
        IdOrigin(w, edges, w', y);
      }
    }
  }

  lemma SetUpExact(w: World, edges: seq<RegisteredEdge>, w': World)
    requires SetUp(w, edges, w') && PoolExact(w)
    ensures PoolExact(w')
  {
    var s, s' := w.services, w'.services;
    forall id: nat ensures Live(w'.pool, id) <==> Held(s', id) {
      if Held(s', id) {
        var l :| Entry(s', l).Some? && Entry(s', l).value.netId == id;
        IdOrigin(w, edges, w', l);
        if Entry(s, l).Some? {
          assert Held(s, id);
        } else {
          assert NewId(w, edges, w', id);
        }
      }
      if Live(w'.pool, id) {
        if Live(w.pool, id) {
          var l :| Entry(s, l).Some? && Entry(s, l).value.netId == id;
          EntryStays(w, edges, w', l);
        } else {
          var k :| 0 <= k < |edges| && IsNew(s, edges[k])
            && Entry(s', edges[k].Link()).Some? && Entry(s', edges[k].Link()).value.netId == id;
          assert EdgeUp(w, edges[k], w');
        }
      }
    }
  }

  lemma EntryStays(w: World, edges: seq<RegisteredEdge>, w': World, l: Link)
    requires SetUp(w, edges, w') && Entry(w.services, l).Some?
    ensures Entry(w'.services, l).Some? && Entry(w'.services, l).value.netId == Entry(w.services, l).value.netId
  {
    if OnChain(edges, l) {
      var k :| 0 <= k < |edges| && edges[k].Link() == l;
      assert EdgeUp(w, edges[k], w');
    }
  }

  /** A new chain, of a user or of a trigger, keeps the flow conserved, networks properly shared and the pool exact. */
  lemma SetUpKeepsFlow(w: World, edges: seq<RegisteredEdge>, p: Link, w': World)
    requires Sound(w.services) && PoolExact(w) && StartsWith(w.services, edges, p) && SetUp(w, edges, w')
    ensures Sound(w'.services) && PoolExact(w')
  {
    var s, s' := w.services, w'.services;
    SetUpLinked(w, edges, p, w');
    SetUpOnce(w, edges, p, w');
    SetUpShared(w, edges, w');
    SetUpExact(w, edges, w');
    RegimeShape(s, s');
    SetUpIsOneChain(w, edges, p, w');
    IsConfigured(s, p);
    Rebalance(s, {}, s', {}, p.server, p.at, p, 1);
  }

  // ----- what grows -----

  /** A chain starts with `p` now; every other edge that a chain starts with is as before, and no entry goes. */
  ghost predicate Arrived(a: Services, b: Services, p: Link) {
    && SameShape(a, b) && Grown(a, b)
    && Entry(a, p).None? && Entry(b, p).Some? && !IsOut(a, p)
    && forall l: Link :: !IsOut(a, l) && l != p ==> Entry(b, l) == Entry(a, l)
  }

  lemma SetUpArrives(w: World, edges: seq<RegisteredEdge>, p: Link, w': World)
    requires Coherent(w.services) && StartsWith(w.services, edges, p) && SetUp(w, edges, w')
    ensures Arrived(w.services, w'.services, p)
  {
    var s, s' := w.services, w'.services;
    assert OnChain(edges, p);
    var i :| 0 <= i < |edges| && edges[i].Link() == p;
    assert EdgeUp(w, edges[i], w');
    forall l | Entry(s, l).Some? ensures Entry(s', l).Some? && OnNetwork(Entry(s, l).value, Entry(s', l).value) {
      if OnChain(edges, l) {
        var k :| 0 <= k < |edges| && edges[k].Link() == l;
        assert EdgeUp(w, edges[k], w');
      }
    }
    forall l: Link | !IsOut(s, l) && l != p ensures Entry(s', l) == Entry(s, l) {
      SetUpRoots(w, edges, p, w', l);
    }
  }

  // ----- the chain of a trigger -----

  /** The edges are those of the trigger chain, in order. */
  ghost predicate TriggerChainOf(s: Services, n: Name, at: ReplicaId, port: nat, edges: seq<RegisteredEdge>) {
    var chain := TriggerAt(s, n, port);
    && chain != [] && |edges| == |chain|
    && (forall j :: 0 <= j < |chain| ==> edges[j].Link() == LinkAt(s, ServiceClient(n, at), chain, j))
    && (forall j :: 0 <= j < |chain| ==> |Reps(s, chain[j])| == 1)
    && Deps(s, chain[0]) == chain[1..]
  }

  lemma TriggerChainSpec(s: Services, n: Name, at: ReplicaId, port: nat)
    requires Regime(s) && TriggeredEdges(s, n, at, port).Some?
    ensures TriggerChainOf(s, n, at, port, TriggeredEdges(s, n, at, port).value)
  {
    var chain := TriggerAt(s, n, port);
    assert TriggerChain(s, n, port) == chain && chain != [];
    assert ChainApart(s, n, port);
    forall j | 0 <= j < |chain| ensures |Reps(s, chain[j])| >= 1 {
      BuiltNeedsReplicas(s, chain, n, Some(at), j);
    }
    forall j | 0 < j < |chain| ensures |Reps(s, chain[j])| == 1 {
      assert chain[j] == Deps(s, chain[0])[j - 1];
    }
    BuilderIsShape(s, ServiceClient(n, at), n, at, chain);
  }

  lemma {:induction false} TriggerServersDiffer(s: Services, n: Name, at: ReplicaId, port: nat,
                                                edges: seq<RegisteredEdge>, j: nat, k: nat)
    requires Coherent(s) && TriggerChainOf(s, n, at, port, edges) && j < k < |edges|
    ensures edges[j].server != edges[k].server
  {
    var chain := TriggerAt(s, n, port);
    assert edges[j].Link().server == chain[j] && edges[k].Link().server == chain[k];
    assert chain[k] == Deps(s, chain[0])[k - 1];
    NotOwnDep(s, chain[0]);
    if j > 0 {
      assert chain[j] == Deps(s, chain[0])[j - 1] && |Reps(s, chain[j])| == 1;
      LinksDistinct(s, chain[0], at, j - 1, k - 1);
    }
  }

  lemma TriggerChainIsReady(s: Services, n: Name, at: ReplicaId, port: nat, edges: seq<RegisteredEdge>)
    requires FlowInvariant(s) && TriggerChainOf(s, n, at, port, edges)
    ensures Ready(s, edges)
  {
    var chain := TriggerAt(s, n, port);
    forall k | 0 <= k < |edges| ensures HasRep(s, edges[k].server, edges[k].at) && OnlyHere(s, edges[k]) {
      assert edges[k].Link() == LinkAt(s, ServiceClient(n, at), chain, k);
      SoleHasRep(s, chain[k], edges[k].client, edges[k]);
    }
    forall j, k | 0 <= j < k < |edges| ensures edges[j].server != edges[k].server {
      TriggerServersDiffer(s, n, at, port, edges, j, k);
    }
    forall k | 0 <= k < |edges| && Entry(s, edges[k].Link()).Some?
      ensures Entry(s, edges[k].Link()).value.activeChains >= 1
    {
      assert LinkOk(s, edges[k].Link(), Entry(s, edges[k].Link()).value);
    }
  }

  lemma TriggerChainStarts(s: Services, n: Name, at: ReplicaId, port: nat, edges: seq<RegisteredEdge>)
    requires Regime(s) && TriggerChainOf(s, n, at, port, edges) && HasRep(s, n, at)
    requires Holder(s, TriggerAt(s, n, port)[0], ServiceClient(n, at)).None?
    ensures StartsWith(s, edges, TriggerRoot(s, n, at, port))
  {
    var c, chain, p := ServiceClient(n, at), TriggerAt(s, n, port), TriggerRoot(s, n, at, port);
    assert ChainApart(s, n, port);
    HolderSpec(s, chain[0], c);
    SoleHasRep(s, chain[0], c, edges[0]);
    assert TriggersTo(s, n, chain[0]);
    forall j | 0 <= j < |Deps(s, p.server)| ensures |Reps(s, Deps(s, p.server)[j])| == 1 {
      assert Deps(s, p.server)[j] == chain[j + 1];
    }
    forall l ensures OnChain(edges, l) <==>
      l == p || l in ChainLinks(s, ServiceClient(p.server, p.at), Deps(s, p.server))
    {
      OnTriggerChain(s, n, at, port, edges, l);
    }
  }

  lemma OnTriggerChain(s: Services, n: Name, at: ReplicaId, port: nat, edges: seq<RegisteredEdge>, l: Link)
    requires TriggerChainOf(s, n, at, port, edges)
    ensures var p := TriggerRoot(s, n, at, port);
      OnChain(edges, l) <==> l == p || l in ChainLinks(s, ServiceClient(p.server, p.at), Deps(s, p.server))
  {
    var c, chain, p := ServiceClient(n, at), TriggerAt(s, n, port), TriggerRoot(s, n, at, port);
    var rest := ChainLinks(s, ServiceClient(p.server, p.at), Deps(s, p.server));
    forall j | 0 <= j < |rest| ensures rest[j] == edges[j + 1].Link() {
      ChainTail(s, c, chain, j);
    }
    assert edges[0].Link() == p;
    if OnChain(edges, l) {
      var k :| 0 <= k < |edges| && edges[k].Link() == l;
      assert k > 0 ==> rest[k - 1] == l;
    }
    if l in rest {
      var j :| 0 <= j < |rest| && rest[j] == l;
      assert edges[j + 1].Link() == l;
    }
  }
}
