/** In the flow regime the teardown of backend chains keeps the flow invariant and removes exactly the chains it walks. */
module FlowTriggers {
  import opened Types
  import opened ServiceTable
  import opened Chains
  import opened Teardown
  import opened Settlement
  import opened Flow
  import opened FlowTeardown
  import opened Conservation

  /** The first edge of the chain that a trigger at `p` sets up for replica `at` of `n`. */
  function TriggerRoot(s: Services, n: Name, at: ReplicaId, p: nat): Link
    requires TriggerAt(s, n, p) != []
  {
    LinkAt(s, ServiceClient(n, at), TriggerAt(s, n, p), 0)
  }

  lemma HolderOfSole(s: Services, d: Name, c: Client)
    requires Unique(s) && |Reps(s, d)| <= 1
    ensures Holder(s, d, c) == if Entry(s, Link(c, d, Sole(s, d))).Some? then Some(Sole(s, d)) else None
  {
    HolderSpec(s, d, c);
    var h := Holder(s, d, c);
    if h.Some? {
      SoleOf(s, d, h.value);
    } else {
      assert c !in Tab(s, d, Sole(s, d));
    }
  }

  // ----- the walk of one chain -----

  lemma {:induction false} AliveWalk(s: Services, c: Client, chain: seq<Name>)
    requires Unique(s) && Alive(s, c, chain) && forall i :: 0 <= i < |chain| ==> |Reps(s, chain[i])| <= 1
    ensures TriggerWalk(s, c, chain) == Targets(ChainLinks(s, c, chain))
    decreases |chain|
  {
    if chain != [] {
      assert Entry(s, LinkAt(s, c, chain, 0)).Some?;
      HolderOfSole(s, chain[0], c);
      TailAlive(s, c, chain);
      AliveWalk(s, ServiceClient(chain[0], Sole(s, chain[0])), chain[1..]);
      TargetsTail(s, c, chain);
    }
  }

  /** The names of a trigger chain whose first edge exists. */
  lemma ChainIsSole(s: Services, n: Name, at: ReplicaId, p: nat)
    requires Regime(s) && TriggerAt(s, n, p) != [] && Entry(s, TriggerRoot(s, n, at, p)).Some?
    ensures var chain := TriggerAt(s, n, p);
      && HasRep(s, chain[0], Sole(s, chain[0])) && Deps(s, chain[0]) == chain[1..]
      && (forall i :: 0 <= i < |chain| ==> |Reps(s, chain[i])| <= 1)
      && !IsOut(s, TriggerRoot(s, n, at, p))
  {
    var chain := TriggerAt(s, n, p);
    assert ChainApart(s, n, p);
    EntryNeedsRep(s, TriggerRoot(s, n, at, p));
    forall i | 0 < i < |chain| ensures |Reps(s, chain[i])| <= 1 {
      assert chain[i] == Deps(s, chain[0])[i - 1];
    }
  }

  lemma RootAlive(s: Services, n: Name, at: ReplicaId, p: nat)
    requires FlowInvariant(s) && TriggerAt(s, n, p) != [] && Entry(s, TriggerRoot(s, n, at, p)).Some?
    ensures Alive(s, ServiceClient(n, at), TriggerAt(s, n, p))
  {
    var c, chain, root := ServiceClient(n, at), TriggerAt(s, n, p), TriggerRoot(s, n, at, p);
    ChainIsSole(s, n, at, p);
    assert LinkOk(s, root, Entry(s, root).value);
    InflowCounts(s, root, {});
    forall j | 0 <= j < |chain| ensures Entry(s, LinkAt(s, c, chain, j)).Some? {
      if j > 0 {
        ChainAlive(s, {}, chain[0], Sole(s, chain[0]), j - 1);
        ChainTail(s, c, chain, j - 1);
      }
    }
  }

  /** What the walk of a trigger chain meets: the whole chain if it is set up, or an edge without an entry. */
  lemma TriggerWalkIs(s: Services, n: Name, at: ReplicaId, p: nat)
    requires FlowInvariant(s) && TriggerAt(s, n, p) != []
    ensures var c, chain := ServiceClient(n, at), TriggerAt(s, n, p);
      TriggerWalk(s, c, chain) ==
      if Entry(s, TriggerRoot(s, n, at, p)).Some? then Targets(ChainLinks(s, c, chain)) else [(c, chain[0])]
  {
    var c, chain := ServiceClient(n, at), TriggerAt(s, n, p);
    if Entry(s, TriggerRoot(s, n, at, p)).Some? {
      ChainIsSole(s, n, at, p);
      RootAlive(s, n, at, p);
      AliveWalk(s, c, chain);
    } else {
      assert ChainApart(s, n, p);
      HolderOfSole(s, chain[0], c);
    }
  }

  lemma SameTriggerWalk(a: Services, b: Services, n: Name, at: ReplicaId, p: nat)
    requires FlowInvariant(a) && FlowInvariant(b) && SameShape(a, b)
    requires TriggerAt(a, n, p) != [] ==>
      Entry(a, TriggerRoot(a, n, at, p)).Some? == Entry(b, TriggerRoot(a, n, at, p)).Some?
    ensures TriggerAt(b, n, p) == TriggerAt(a, n, p)
    ensures TriggerWalk(b, ServiceClient(n, at), TriggerAt(a, n, p)) == TriggerWalk(a, ServiceClient(n, at), TriggerAt(a, n, p))
  {
    SameEdgeKinds(a, b);
    if TriggerAt(a, n, p) != [] {
      SameSole(a, b, TriggerAt(a, n, p)[0]);
      TriggerWalkIs(a, n, at, p);
      TriggerWalkIs(b, n, at, p);
      WalkOfShape(a, b, ServiceClient(n, at), TriggerAt(a, n, p));
    }
  }

  // ----- one chain less -----

  /** The links lead to the only replicas of different services, and exist. */
  ghost predicate SoleLinks(s: Services, links: seq<Link>) {
    && Unique(s)
    && (forall j :: 0 <= j < |links| ==>
          |Reps(s, links[j].server)| <= 1 && links[j].at == Sole(s, links[j].server) && Entry(s, links[j]).Some?)
    && forall i, j :: 0 <= i < j < |links| ==> links[i].server != links[j].server
  }

  lemma FirstLowers(w: World, links: seq<Link>)
    requires SoleLinks(w.services, links) && links != []
    ensures var m := DecrementChain(w, links[0].server, links[0].client);
      Lowered(w.services, m.services, [links[0]]) && SoleLinks(m.services, links[1..]) && links[0] !in links[1..]
  {
    var s, l := w.services, links[0];
    HolderOfSole(s, l.server, l.client);
    DecrementSpec(w, l.server, l.client);
    var m := DecrementChain(w, l.server, l.client);
    PutEntries(s, m.services, l, OneLess(Entry(s, l)));
    ShapeFacts(s, m.services);
    var rest := links[1..];
    forall j | 0 <= j < |rest|
      ensures |Reps(m.services, rest[j].server)| <= 1 && rest[j].at == Sole(m.services, rest[j].server)
      ensures Entry(m.services, rest[j]).Some? && rest[j] != l
    {
      assert rest[j] == links[j + 1] && links[0].server != links[j + 1].server;
      SameSole(s, m.services, rest[j].server);
    }
  }

  lemma TargetsStep(w: World, links: seq<Link>)
    requires links != []
    ensures DecrementEdges(w, Targets(links)) ==
      DecrementEdges(DecrementChain(w, links[0].server, links[0].client), Targets(links[1..]))
  {
    assert Targets(links)[0] == (links[0].client, links[0].server) && Targets(links)[1..] == Targets(links[1..]);
  }

  lemma LoweredNext(a: Services, m: Services, b: Services, links: seq<Link>)
    requires links != [] && links[0] !in links[1..] && Lowered(a, m, [links[0]]) && Lowered(m, b, links[1..])
    ensures Lowered(a, b, links)
  {
    LoweredJoin(a, m, b, links[0], links[1..]);
    assert [links[0]] + links[1..] == links;
  }

  lemma {:induction false} TargetsLower(w: World, links: seq<Link>)
    requires SoleLinks(w.services, links)
    ensures Lowered(w.services, DecrementEdges(w, Targets(links)).services, links)
    decreases |links|
  {
    if links == [] {
      assert Targets(links) == [];
    } else {
      var m := DecrementChain(w, links[0].server, links[0].client);
      FirstLowers(w, links);
      TargetsLower(m, links[1..]);
      TargetsStep(w, links);
      LoweredNext(w.services, m.services, DecrementEdges(m, Targets(links[1..])).services, links);
    }
  }

  lemma ChainIsSoleLinks(s: Services, n: Name, at: ReplicaId, p: nat)
    requires FlowInvariant(s) && TriggerAt(s, n, p) != [] && Entry(s, TriggerRoot(s, n, at, p)).Some?
    ensures SoleLinks(s, ChainLinks(s, ServiceClient(n, at), TriggerAt(s, n, p)))
  {
    var c, chain := ServiceClient(n, at), TriggerAt(s, n, p);
    ChainIsSole(s, n, at, p);
    RootAlive(s, n, at, p);
    forall i | 0 <= i < |chain| ensures Entry(s, LinkAt(s, c, chain, i)).Some? && chain[i] in s {
      EntryNeedsRep(s, LinkAt(s, c, chain, i));
    }
    forall i, j | 0 <= i < j < |chain| ensures chain[i] != chain[j] {
      NamesDiffer(s, chain, i, j);
    }
  }

  /** A list that goes on as its first service does names no service twice. */
  lemma NamesDiffer(s: Services, chain: seq<Name>, i: nat, j: nat)
    requires Coherent(s) && i < j < |chain| && chain[i] in s && Deps(s, chain[0]) == chain[1..]
    ensures chain[i] != chain[j]
  {
    assert chain[j] == Deps(s, chain[0])[j - 1];
    NotOwnDep(s, chain[0]);
    if i > 0 {
      assert chain[i] == Deps(s, chain[0])[i - 1];
      LinksDistinct(s, chain[0], Sole(s, chain[0]), i - 1, j - 1);
    }
  }

  /** The chain is its first edge and the chain of the replica that the edge leads to. */
  lemma RootAndRest(s: Services, n: Name, at: ReplicaId, p: nat)
    requires FlowInvariant(s) && TriggerAt(s, n, p) != [] && Entry(s, TriggerRoot(s, n, at, p)).Some?
    ensures var root := TriggerRoot(s, n, at, p);
      ChainLinks(s, ServiceClient(n, at), TriggerAt(s, n, p)) ==
      [root] + ChainLinks(s, ServiceClient(root.server, root.at), Deps(s, root.server))
  {
    var c, chain := ServiceClient(n, at), TriggerAt(s, n, p);
    ChainIsSole(s, n, at, p);
    forall j | 0 <= j < |chain| - 1
      ensures LinkAt(s, c, chain, j + 1) == LinkAt(s, ServiceClient(chain[0], Sole(s, chain[0])), chain[1..], j)
    {
      ChainTail(s, c, chain, j);
    }
  }

  /** Edges behind a replica are the outgoing edges of their sources. */
  lemma LinksAreOut(s: Services, n: Name, r: ReplicaId, l: Link)
    requires Coherent(s) && Configured(s, n) && l in ChainLinks(s, ServiceClient(n, r), Deps(s, n))
    ensures IsOut(s, l)
  {
    var deps, links := Deps(s, n), ChainLinks(s, ServiceClient(n, r), Deps(s, n));
    var j :| 0 <= j < |links| && links[j] == l;
    if j > 0 {
      assert Deps(s, deps[j - 1]) == deps[j..];
    }
  }

  lemma AliveIsConfigured(s: Services, n: Name, r: ReplicaId)
    requires Alive(s, ServiceClient(n, r), Deps(s, n))
    ensures Configured(s, n)
  {
    forall i | 0 <= i < |Deps(s, n)| ensures Deps(s, n)[i] in s {
      assert Entry(s, LinkAt(s, ServiceClient(n, r), Deps(s, n), i)).Some?;
      EntryNeedsRep(s, LinkAt(s, ServiceClient(n, r), Deps(s, n), i));
    }
  }

  lemma LinksAreUp(s: Services, n: Name, r: ReplicaId, l: Link)
    requires Regime(s) && Linked(s) && Alive(s, ServiceClient(n, r), Deps(s, n))
    requires l in ChainLinks(s, ServiceClient(n, r), Deps(s, n))
    ensures IsOut(s, l) && Entry(s, l).Some? && Entry(s, l).value.activeChains >= 1
  {
    var links := ChainLinks(s, ServiceClient(n, r), Deps(s, n));
    AliveIsConfigured(s, n, r);
    LinksAreOut(s, n, r, l);
    var j :| 0 <= j < |links| && links[j] == l;
    assert Entry(s, LinkAt(s, ServiceClient(n, r), Deps(s, n), j)).Some?;
    assert LinkOk(s, l, Entry(s, l).value);
  }

  lemma LoweredLoads(a: Services, b: Services, links: seq<Link>)
    requires Lowered(a, b, links)
    requires forall l :: l in links ==> Entry(a, l).Some? && Entry(a, l).value.activeChains >= 1
    ensures forall l :: LoadWithout(b, {}, l) == LoadWithout(a, {}, l) + if l in links then -1 else 0
  {
    forall l ensures Load(b, l) == Load(a, l) + if l in links then -1 else 0 {
      assert Entry(b, l) == if l in links then OneLess(Entry(a, l)) else Entry(a, l);
    }
  }

  /** The first edge counts one chain, all edges behind are outgoing edges that count at least one. */
  lemma RootIsUp(s: Services, n: Name, at: ReplicaId, p: nat)
    requires FlowInvariant(s) && TriggerAt(s, n, p) != [] && Entry(s, TriggerRoot(s, n, at, p)).Some?
    ensures var root := TriggerRoot(s, n, at, p);
      var rest := ChainLinks(s, ServiceClient(root.server, root.at), Deps(s, root.server));
      && Configured(s, root.server) && !IsOut(s, root) && Entry(s, root).value.activeChains == 1
      && forall l :: l in rest ==> IsOut(s, l) && Entry(s, l).Some? && Entry(s, l).value.activeChains >= 1
  {
    var root := TriggerRoot(s, n, at, p);
    ChainIsSole(s, n, at, p);
    RootAlive(s, n, at, p);
    TailAlive(s, ServiceClient(n, at), TriggerAt(s, n, p));
    AliveIsConfigured(s, root.server, root.at);
    assert LinkOk(s, root, Entry(s, root).value);
    forall l | l in ChainLinks(s, ServiceClient(root.server, root.at), Deps(s, root.server))
      ensures IsOut(s, l) && Entry(s, l).Some? && Entry(s, l).value.activeChains >= 1
    {
      LinksAreUp(s, root.server, root.at, l);
    }
  }

  /** The root is gone, every edge behind it has one chain less, and no other root changed. */
  lemma LoweredRoot(a: Services, b: Services, n: Name, at: ReplicaId, p: nat)
    requires FlowInvariant(a) && TriggerAt(a, n, p) != [] && Entry(a, TriggerRoot(a, n, at, p)).Some?
    requires Lowered(a, b, ChainLinks(a, ServiceClient(n, at), TriggerAt(a, n, p)))
    ensures var root := TriggerRoot(a, n, at, p);
      && OneChain(a, {}, b, {}, root.server, root.at, root, -1) && Configured(a, root.server)
      && Entry(b, root).None? && forall l :: !IsOut(a, l) && l != root ==> Entry(b, l) == Entry(a, l)
  {
    var links := ChainLinks(a, ServiceClient(n, at), TriggerAt(a, n, p));
    RootAndRest(a, n, at, p);
    RootIsUp(a, n, at, p);
    LoweredLoads(a, b, links);
  }

  /** The teardown of one trigger chain removes its first edge and takes one chain from every edge behind. */
  lemma TriggerKeepsFlow(w: World, n: Name, at: ReplicaId, p: nat)
    requires FlowInvariant(w.services) && TriggerAt(w.services, n, p) != []
    ensures var s := w.services; var b := DecrementEdges(w, TriggerWalk(s, ServiceClient(n, at), TriggerAt(s, n, p))).services;
      && FlowInvariant(b) && SameShape(s, b) && Entry(b, TriggerRoot(s, n, at, p)).None?
      && forall l :: !IsOut(s, l) && l != TriggerRoot(s, n, at, p) ==> Entry(b, l) == Entry(s, l)
  {
    var s, c, chain, root := w.services, ServiceClient(n, at), TriggerAt(w.services, n, p), TriggerRoot(w.services, n, at, p);
    TriggerWalkIs(s, n, at, p);
    if Entry(s, root).Some? {
      var b := DecrementEdges(w, Targets(ChainLinks(s, c, chain))).services;
      ChainIsSoleLinks(s, n, at, p);
      TargetsLower(w, ChainLinks(s, c, chain));
      LoweredRoot(s, b, n, at, p);
      ChainIsSole(s, n, at, p);
      LoweredKeeps(s, b, ChainLinks(s, c, chain));
      Rebalance(s, {}, b, {}, root.server, root.at, root, -1);
    } else {
      assert ChainApart(s, n, p);
      HolderOfSole(s, chain[0], c);
      DecrementSpec(w, chain[0], c);
      assert [(c, chain[0])][1..] == [];
    }
  }

  // ----- the chains of one replica -----

  predicate PassesThrough(chain: seq<Name>, through: Option<Name>) {
    through.None? || through.value in chain
  }

  /** The backend teardown of replica `at` of `n` concerns the chain of the trigger at `p`, which starts with `l`. */
  ghost predicate TakesAt(s: Services, n: Name, at: ReplicaId, through: Option<Name>, p: nat, l: Link) {
    TriggerAt(s, n, p) != [] && PassesThrough(TriggerAt(s, n, p), through) && l == TriggerRoot(s, n, at, p)
  }

  ghost predicate TakesFirst(s: Services, n: Name, at: ReplicaId, through: Option<Name>, l: Link) {
    exists p :: TakesAt(s, n, at, through, p, l)
  }

  ghost predicate TakesSome(s: Services, n: Name, at: ReplicaId, through: Option<Name>, ports: seq<nat>, l: Link) {
    exists p :: p in ports && TakesAt(s, n, at, through, p, l)
  }

  /** All edges that chains start with, but those that `gone` holds of, are as before. */
  ghost predicate RootsLeft(a: Services, b: Services, gone: Link -> bool) {
    forall l :: !IsOut(a, l) ==> Entry(b, l) == if gone(l) then None else Entry(a, l)
  }

  /** The edges of the first port are walked, the rest is to follow. */
  function FirstWalk(s: Services, n: Name, at: ReplicaId, through: Option<Name>, p: nat): seq<(Client, Name)> {
    if PassesThrough(TriggerAt(s, n, p), through) then TriggerWalk(s, ServiceClient(n, at), TriggerAt(s, n, p)) else []
  }

  lemma FirstPort(w: World, s0: Services, n: Name, at: ReplicaId, through: Option<Name>, p: nat)
    requires FlowInvariant(w.services) && FlowInvariant(s0) && SameShape(s0, w.services)
    requires TriggerAt(s0, n, p) != [] ==>
      Entry(s0, TriggerRoot(s0, n, at, p)).Some? == Entry(w.services, TriggerRoot(s0, n, at, p)).Some?
    ensures var b := DecrementEdges(w, FirstWalk(s0, n, at, through, p)).services;
      && FlowInvariant(b) && SameShape(w.services, b)
      && forall l :: !IsOut(s0, l) ==>
           Entry(b, l) == if TakesAt(s0, n, at, through, p, l) then None else Entry(w.services, l)
  {
    SameTriggerWalk(s0, w.services, n, at, p);
    SameEdgeKinds(s0, w.services);
    if TriggerAt(s0, n, p) != [] && PassesThrough(TriggerAt(s0, n, p), through) {
      SameSole(s0, w.services, TriggerAt(s0, n, p)[0]);
      TriggerKeepsFlow(w, n, at, p);
    }
  }

  /** Triggers of one replica at different ports start with different edges. */
  lemma RootsApart(s: Services, n: Name, at: ReplicaId, p: nat, q: nat)
    requires TriggersApart(s) && p != q && TriggerAt(s, n, p) != [] && TriggerAt(s, n, q) != []
    ensures TriggerRoot(s, n, at, p) != TriggerRoot(s, n, at, q) && !IsOut(s, TriggerRoot(s, n, at, q))
  {
    assert ChainApart(s, n, p) && ChainApart(s, n, q);
  }

  /** The chains of these ports are set up in `s` as far as they are in `s0`. */
  ghost predicate AsFound(s0: Services, s: Services, n: Name, at: ReplicaId, ports: seq<nat>) {
    forall p :: p in ports && TriggerAt(s0, n, p) != [] ==>
      Entry(s0, TriggerRoot(s0, n, at, p)).Some? == Entry(s, TriggerRoot(s0, n, at, p)).Some?
  }

  ghost predicate NoPortTwice(ports: seq<nat>) {
    forall i, j :: 0 <= i < j < |ports| ==> ports[i] != ports[j]
  }

  /** From `a` to `b` exactly the chains of these ports went, as far as the teardown concerns them. */
  ghost predicate PortsGone(s0: Services, a: Services, b: Services, n: Name, at: ReplicaId, through: Option<Name>,
                            ports: seq<nat>) {
    && FlowInvariant(b) && SameShape(a, b)
    && forall l :: !IsOut(s0, l) ==>
         Entry(b, l) == if TakesSome(s0, n, at, through, ports, l) then None else Entry(a, l)
  }

  lemma TakesFirstOrRest(s: Services, n: Name, at: ReplicaId, through: Option<Name>, ports: seq<nat>, l: Link)
    requires ports != []
    ensures TakesSome(s, n, at, through, ports, l) <==>
      TakesAt(s, n, at, through, ports[0], l) || TakesSome(s, n, at, through, ports[1..], l)
  {
    assert forall q :: q in ports <==> q == ports[0] || q in ports[1..];
  }

  lemma FirstPortGone(w: World, s0: Services, n: Name, at: ReplicaId, through: Option<Name>, ports: seq<nat>)
    requires FlowInvariant(w.services) && FlowInvariant(s0) && SameShape(s0, w.services) && ports != []
    requires AsFound(s0, w.services, n, at, ports)
    ensures PortsGone(s0, w.services, DecrementEdges(w, FirstWalk(s0, n, at, through, ports[0])).services,
                      n, at, through, [ports[0]])
  {
    var p := ports[0];
    assert p in ports;
    FirstPort(w, s0, n, at, through, p);
    assert forall q :: q in [p] <==> q == p;
    assert forall l :: TakesSome(s0, n, at, through, [p], l) <==> TakesAt(s0, n, at, through, p, l);
  }

  /** After the first port the others find what they found before. */
  lemma RestAsFound(s0: Services, a: Services, m: Services, n: Name, at: ReplicaId, through: Option<Name>,
                    ports: seq<nat>)
    requires TriggersApart(s0) && ports != [] && NoPortTwice(ports) && AsFound(s0, a, n, at, ports)
    requires PortsGone(s0, a, m, n, at, through, [ports[0]])
    ensures AsFound(s0, m, n, at, ports[1..]) && NoPortTwice(ports[1..])
  {
    forall p | p in ports[1..] && TriggerAt(s0, n, p) != []
      ensures Entry(m, TriggerRoot(s0, n, at, p)) == Entry(a, TriggerRoot(s0, n, at, p)) && p in ports
    {
      var i :| 0 <= i < |ports[1..]| && ports[1..][i] == p;
      assert ports[i + 1] == p && ports[0] != ports[i + 1];
      assert ChainApart(s0, n, p);
      if TriggerAt(s0, n, ports[0]) != [] {
        RootsApart(s0, n, at, ports[0], p);
      }
    }
  }

  lemma PortsJoin(s0: Services, a: Services, m: Services, b: Services, n: Name, at: ReplicaId, through: Option<Name>,
                  ports: seq<nat>)
    requires ports != [] && PortsGone(s0, a, m, n, at, through, [ports[0]])
    requires PortsGone(s0, m, b, n, at, through, ports[1..])
    ensures PortsGone(s0, a, b, n, at, through, ports)
  {
    ShapeTrans(a, m, b);
    assert forall q :: q in [ports[0]] <==> q == ports[0];
    forall l ensures TakesSome(s0, n, at, through, ports, l) <==>
      TakesSome(s0, n, at, through, [ports[0]], l) || TakesSome(s0, n, at, through, ports[1..], l)
    {
      TakesFirstOrRest(s0, n, at, through, ports, l);
    }
  }

  lemma {:induction false} PortsKeepFlow(w: World, s0: Services, n: Name, at: ReplicaId, through: Option<Name>,
                                         ports: seq<nat>)
    requires FlowInvariant(w.services) && FlowInvariant(s0) && SameShape(s0, w.services)
    requires (forall p :: p in ports ==> p in Triggers(s0, n)) && NoPortTwice(ports)
    requires AsFound(s0, w.services, n, at, ports)
    ensures PortsGone(s0, w.services, DecrementEdges(w, TriggerEdges(s0, n, at, through, ports)).services,
                      n, at, through, ports)
    decreases |ports|
  {
    if ports != [] {
      var rest := ports[1..];
      var walk := FirstWalk(s0, n, at, through, ports[0]);
      var m := DecrementEdges(w, walk);
      FirstPortGone(w, s0, n, at, through, ports);
      RestAsFound(s0, w.services, m.services, n, at, through, ports);
      ShapeTrans(s0, w.services, m.services);
      assert ports[0] in ports;
      PortsKeepFlow(m, s0, n, at, through, rest);
      DecrementEdgesConcat(w, walk, TriggerEdges(s0, n, at, through, rest));
      PortsJoin(s0, w.services, m.services, DecrementEdges(m, TriggerEdges(s0, n, at, through, rest)).services,
                n, at, through, ports);
    }
  }

  /** The backend teardown of a replica removes the first edges of exactly the chains it concerns. */
  lemma BackendKeepsFlow(w: World, n: Name, at: ReplicaId, through: Option<Name>, edges: seq<(Client, Name)>)
    requires FlowInvariant(w.services) && BackendEdges(w.services, n, at, through, edges)
    ensures var b := DecrementEdges(w, edges).services;
      && FlowInvariant(b)
      && forall l :: !IsOut(w.services, l) ==>
           Entry(b, l) == if TakesFirst(w.services, n, at, through, l) then None else Entry(w.services, l)
  {
    var s := w.services;
    var ports: seq<nat> :| Enumerates(ports, Triggers(s, n).Keys) && edges == TriggerEdges(s, n, at, through, ports);
    PortsKeepFlow(w, s, n, at, through, ports);
    forall l ensures TakesSome(s, n, at, through, ports, l) <==> TakesFirst(s, n, at, through, l) {
      if p :| TakesAt(s, n, at, through, p, l) {
        assert p in Triggers(s, n).Keys;
      }
    }
  }
}
