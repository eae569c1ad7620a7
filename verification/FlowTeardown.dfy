/** Teardowns keep the flow invariant; the walk of a teardown meets the chain that was built, in order. */
module FlowTeardown {
  import opened Types
  import opened ServiceTable
  import opened Chains
  import opened Teardown
  import opened Settlement
  import opened Flow

  // ----- the walk -----

  /** The walk along a chain whose entries all exist: it depends on configuration and replicas only. */
  function WalkOf(s: Services, c: Client, deps: seq<Name>): seq<(Client, Name)>
    decreases |deps|
  {
    if deps == [] then []
    else Level(c, deps) + WalkOf(s, ServiceClient(deps[0], Sole(s, deps[0])), deps[1..])
  }

  lemma {:induction false} LastHopIsFirst(s: Services, c: Client, deps: seq<Name>)
    requires deps != [] && Holder(s, deps[0], c).Some?
    requires forall i :: 0 < i < |deps| ==> Holder(s, deps[i], c).None?
    ensures LastHop(s, c, deps) == Some((deps[0], Holder(s, deps[0], c).value))
  {
    if |deps| > 1 {
      LastHopIsFirst(s, c, deps[..|deps| - 1]);
    }
  }

  /** Only the first edge of a level has an entry; the others are ghosts. */
  lemma OnlyFirstHolds(s: Services, n: Name, r: ReplicaId, i: nat)
    requires Regime(s) && Linked(s) && i < |Deps(s, n)|
    requires Entry(s, LinkAt(s, ServiceClient(n, r), Deps(s, n), 0)).Some?
    ensures Holder(s, Deps(s, n)[i], ServiceClient(n, r)) ==
      if i == 0 then Some(Sole(s, Deps(s, n)[0])) else None
  {
    var c, deps := ServiceClient(n, r), Deps(s, n);
    var l := LinkAt(s, c, deps, 0);
    EntryNeedsRep(s, l);
    HolderSpec(s, deps[i], c);
    var h := Holder(s, deps[i], c);
    if h.Some? {
      var x := Link(c, deps[i], h.value);
      assert Entry(s, x).Some? && LinkOk(s, x, Entry(s, x).value);
      if i > 0 {
        HeadOnce(s, n, i);
      } else {
        SoleOf(s, deps[0], h.value);
      }
    } else {
      assert c in Tab(s, l.server, l.at);
    }
  }

  lemma TailAlive(s: Services, c: Client, deps: seq<Name>)
    requires deps != [] && Alive(s, c, deps)
    ensures Alive(s, ServiceClient(deps[0], Sole(s, deps[0])), deps[1..])
  {
    forall j | 0 <= j < |deps| - 1
      ensures Entry(s, LinkAt(s, ServiceClient(deps[0], Sole(s, deps[0])), deps[1..], j)).Some?
    {
      ChainTail(s, c, deps, j);
      assert Entry(s, LinkAt(s, c, deps, j + 1)).Some?;
    }
  }

  lemma TailDeps(s: Services, n: Name)
    requires Coherent(s) && Deps(s, n) != [] && Deps(s, n)[0] in s
    ensures Deps(s, Deps(s, n)[0]) == Deps(s, n)[1..]
  {
  }

  lemma {:induction false} WalkIsShape(s: Services, n: Name, r: ReplicaId)
    requires Acyclic(s) && Regime(s) && Linked(s) && Alive(s, ServiceClient(n, r), Deps(s, n))
    ensures DepChainEdges(s, n, r) == WalkOf(s, ServiceClient(n, r), Deps(s, n))
    decreases |Deps(s, n)|
  {
    var c, deps := ServiceClient(n, r), Deps(s, n);
    if deps != [] {
      assert Entry(s, LinkAt(s, c, deps, 0)).Some?;
      EntryNeedsRep(s, LinkAt(s, c, deps, 0));
      forall i | 0 <= i < |deps| ensures Holder(s, deps[i], c) == if i == 0 then Some(Sole(s, deps[0])) else None {
        OnlyFirstHolds(s, n, r, i);
      }
      LastHopIsFirst(s, c, deps);
      WalkStep(s, n, r);
      TailAlive(s, c, deps);
      TailDeps(s, n);
      WalkIsShape(s, deps[0], Sole(s, deps[0]));
    }
  }

  /** The collected edges that have an entry. */
  function Real(s: Services, edges: seq<(Client, Name)>): seq<(Client, Name)>
    decreases |edges|
  {
    if edges == [] then [] else IfReal(s, edges[0]) + Real(s, edges[1..])
  }

  function IfReal(s: Services, e: (Client, Name)): seq<(Client, Name)> {
    if Holder(s, e.1, e.0).Some? then [e] else []
  }

  function Targets(links: seq<Link>): seq<(Client, Name)> {
    seq(|links|, j requires 0 <= j < |links| => (links[j].client, links[j].server))
  }

  lemma {:induction false} RealConcat(s: Services, a: seq<(Client, Name)>, b: seq<(Client, Name)>)
    ensures Real(s, a + b) == Real(s, a) + Real(s, b)
    decreases |a|
  {
    if a == [] {
      assert a + b == b;
    } else {
      assert (a + b)[1..] == a[1..] + b;
      RealConcat(s, a[1..], b);
      var head, x, y := IfReal(s, a[0]), Real(s, a[1..]), Real(s, b);
      assert head + (x + y) == (head + x) + y;
    }
  }

  lemma {:induction false} GhostLevel(s: Services, c: Client, deps: seq<Name>)
    requires forall i :: 0 <= i < |deps| ==> Holder(s, deps[i], c).None?
    ensures Real(s, Level(c, deps)) == []
  {
    if deps != [] {
      GhostLevel(s, c, deps[1..]);
    }
  }

  lemma {:induction false} RealWalk(s: Services, n: Name, r: ReplicaId)
    requires Regime(s) && Linked(s) && Alive(s, ServiceClient(n, r), Deps(s, n))
    ensures Real(s, WalkOf(s, ServiceClient(n, r), Deps(s, n))) ==
      Targets(ChainLinks(s, ServiceClient(n, r), Deps(s, n)))
    decreases |Deps(s, n)|
  {
    var c, deps := ServiceClient(n, r), Deps(s, n);
    if deps != [] {
      var c', rest := ServiceClient(deps[0], Sole(s, deps[0])), deps[1..];
      assert Entry(s, LinkAt(s, c, deps, 0)).Some?;
      EntryNeedsRep(s, LinkAt(s, c, deps, 0));
      forall i | 0 <= i < |deps| ensures Holder(s, deps[i], c) == if i == 0 then Some(Sole(s, deps[0])) else None {
        OnlyFirstHolds(s, n, r, i);
      }
      FirstOfLevel(s, c, deps);
      RealConcat(s, Level(c, deps), WalkOf(s, c', rest));
      TailAlive(s, c, deps);
      TailDeps(s, n);
      RealWalk(s, deps[0], Sole(s, deps[0]));
      TargetsTail(s, c, deps);
    }
  }

  lemma FirstOfLevel(s: Services, c: Client, deps: seq<Name>)
    requires deps != [] && Holder(s, deps[0], c).Some?
    requires forall i :: 0 < i < |deps| ==> Holder(s, deps[i], c).None?
    ensures Real(s, Level(c, deps)) == [(c, deps[0])]
  {
    forall i | 0 <= i < |deps[1..]| ensures Holder(s, deps[1..][i], c).None? {
      assert deps[1..][i] == deps[i + 1];
    }
    GhostLevel(s, c, deps[1..]);
    assert Level(c, deps)[0] == (c, deps[0]) && Level(c, deps)[1..] == Level(c, deps[1..]);
  }

  lemma TargetsTail(s: Services, c: Client, deps: seq<Name>)
    requires deps != []
    ensures Targets(ChainLinks(s, c, deps)) ==
      [(c, deps[0])] + Targets(ChainLinks(s, ServiceClient(deps[0], Sole(s, deps[0])), deps[1..]))
  {
    forall j | 0 <= j < |deps| - 1
      ensures LinkAt(s, c, deps, j + 1) == LinkAt(s, ServiceClient(deps[0], Sole(s, deps[0])), deps[1..], j)
    {
      ChainTail(s, c, deps, j);
    }
  }

  // ----- the builder -----

  lemma {:induction false} BuilderIsShape(s: Services, c: Client, n: Name, at: ReplicaId, deps: seq<Name>)
    requires c == ServiceClient(n, at)
    requires forall j :: 0 <= j < |deps| ==> |Reps(s, deps[j])| == 1
    ensures AllRegistered(BuildChain(s, deps, n, Some(at))).Some?
    ensures var edges := AllRegistered(BuildChain(s, deps, n, Some(at))).value;
      |edges| == |deps| && forall j :: 0 <= j < |deps| ==> edges[j].Link() == LinkAt(s, c, deps, j)
    decreases |deps|
  {
    if deps != [] {
      assert PickReplica(s, deps[0]) == Some(Sole(s, deps[0]));
      var c' := ServiceClient(deps[0], Sole(s, deps[0]));
      forall j | 0 <= j < |deps[1..]| ensures |Reps(s, deps[1..][j])| == 1 {
        assert deps[1..][j] == deps[j + 1];
      }
      BuilderIsShape(s, c', deps[0], Sole(s, deps[0]), deps[1..]);
    }
  }

  /** The collected edges with entries are those of the chain. */
  lemma RealIsChain(s: Services, n: Name, r: ReplicaId)
    requires FlowInvariant(s) && Alive(s, ServiceClient(n, r), Deps(s, n))
    ensures Acyclic(s)
    ensures Real(s, DepChainEdges(s, n, r)) == Targets(ChainLinks(s, ServiceClient(n, r), Deps(s, n)))
  {
    CoherentIsAcyclic(s);
    WalkIsShape(s, n, r);
    RealWalk(s, n, r);
  }

  /** The builder makes the edges of the chain. */
  lemma BuiltIsChain(s: Services, n: Name, r: ReplicaId)
    requires Regime(s) && Alive(s, ServiceClient(n, r), Deps(s, n))
    ensures AllRegistered(BuildChain(s, Deps(s, n), n, Some(r))).Some?
    ensures var built, deps := AllRegistered(BuildChain(s, Deps(s, n), n, Some(r))).value, Deps(s, n);
      |built| == |deps| && forall j :: 0 <= j < |deps| ==> built[j].Link() == LinkAt(s, ServiceClient(n, r), deps, j)
    ensures forall i, j :: 0 <= i < j < |Deps(s, n)| ==> Deps(s, n)[i] != Deps(s, n)[j]
  {
    var c, deps := ServiceClient(n, r), Deps(s, n);
    forall j | 0 <= j < |deps| ensures |Reps(s, deps[j])| == 1 && deps[j] in s {
      assert Entry(s, LinkAt(s, c, deps, j)).Some?;
      EntryNeedsRep(s, LinkAt(s, c, deps, j));
    }
    BuilderIsShape(s, c, n, r, deps);
    forall i, j | 0 <= i < j < |deps| ensures deps[i] != deps[j] {
      LinksDistinct(s, n, r, i, j);
    }
  }

  /**
   Whenever something uses a replica, the edges that the teardown walk collects and that have entries are exactly the
   edges that the builder makes for that replica, each once and in the builder's order; the rest are ghosts.
   */
  lemma WalkAgreesWithBuilder(s: Services, n: Name, r: ReplicaId)
    requires FlowInvariant(s) && HasRep(s, n, r) && Tab(s, n, r) != map[]
    ensures Acyclic(s)
    ensures var built := AllRegistered(BuildChain(s, Deps(s, n), n, Some(r)));
      && built.Some?
      && |Real(s, DepChainEdges(s, n, r))| == |built.value|
      && (forall j :: 0 <= j < |built.value| ==>
            && Real(s, DepChainEdges(s, n, r))[j] == (built.value[j].client, built.value[j].server)
            && Entry(s, built.value[j].Link()).Some?)
      && (forall i, j :: 0 <= i < j < |built.value| ==> built.value[i].Link() != built.value[j].Link())
  {
    var c, deps := ServiceClient(n, r), Deps(s, n);
    UsedIsAlive(s, n, r);
    RealIsChain(s, n, r);
    BuiltIsChain(s, n, r);
    var built := AllRegistered(BuildChain(s, deps, n, Some(r))).value;
    forall j | 0 <= j < |built|
      ensures Targets(ChainLinks(s, c, deps))[j] == (built[j].client, built[j].server)
      ensures Entry(s, built[j].Link()).Some? && built[j].Link().server == deps[j]
    {
      assert built[j].Link() == LinkAt(s, c, deps, j);
    }
  }

  lemma UsedIsAlive(s: Services, n: Name, r: ReplicaId)
    requires FlowInvariant(s) && HasRep(s, n, r) && Tab(s, n, r) != map[]
    ensures Alive(s, ServiceClient(n, r), Deps(s, n))
  {
    var c :| c in Tab(s, n, r);
    var l := Link(c, n, r);
    assert Entry(s, l).Some? && LinkOk(s, l, Entry(s, l).value);
    InflowCounts(s, l, {});
    forall j | 0 <= j < |Deps(s, n)| ensures Entry(s, LinkAt(s, ServiceClient(n, r), Deps(s, n), j)).Some? {
      ChainAlive(s, {}, n, r, j);
    }
  }

  /** Two edges of a chain that exist lead to different services. */
  lemma LinksDistinct(s: Services, n: Name, r: ReplicaId, i: nat, j: nat)
    requires Coherent(s) && i < j < |Deps(s, n)| && Deps(s, n)[i] in s
    ensures Deps(s, n)[i] != Deps(s, n)[j]
  {
    var d := Deps(s, n)[i];
    NotOwnDep(s, d);
    assert Deps(s, d) == Deps(s, n)[i + 1..];
    assert Deps(s, d)[j - i - 1] == Deps(s, n)[j];
  }

  // ----- one chain less -----

  /** One chain less through each of the links, nothing else changed. */
  ghost predicate Lowered(a: Services, b: Services, links: seq<Link>) {
    SameShape(a, b) && forall l :: Entry(b, l) == if l in links then OneLess(Entry(a, l)) else Entry(a, l)
  }

  lemma SameSole(a: Services, b: Services, n: Name)
    requires SameShape(a, b)
    ensures Sole(a, n) == Sole(b, n) && |Reps(a, n)| == |Reps(b, n)|
  {
  }

  lemma RegimeShape(a: Services, b: Services)
    requires SameShape(a, b) && Regime(a)
    ensures Regime(b)
  {
    ShapeFacts(a, b);
    forall n, d | d in Deps(b, n) ensures |Reps(b, d)| <= 1 {
      assert d in Deps(a, n);
      SameSole(a, b, d);
    }
    SameEdgeKinds(a, b);
    forall n, p | TriggerAt(b, n, p) != [] ensures ChainApart(b, n, p) {
      assert ChainApart(a, n, p);
      SameSole(a, b, TriggerAt(a, n, p)[0]);
    }
  }

  lemma LoweredKeeps(a: Services, b: Services, links: seq<Link>)
    requires Lowered(a, b, links) && Regime(a) && Linked(a)
    requires forall l :: l in links ==> l.client.proxy.None?
    ensures Regime(b) && Linked(b) && Shrunk(a, b)
    ensures ProxyOnce(a) ==> ProxyOnce(b)
  {
    RegimeShape(a, b);
    ShapeFacts(a, b);
    SameEdgeKinds(a, b);
    forall l | Entry(b, l).Some? ensures LinkOk(b, l, Entry(b, l).value) {
      assert Entry(a, l).Some? && LinkOk(a, l, Entry(a, l).value);
    }
    ShrunkKeeps(a, b);
  }

  lemma {:induction false} WalkOfShape(a: Services, b: Services, c: Client, deps: seq<Name>)
    requires SameShape(a, b)
    ensures WalkOf(a, c, deps) == WalkOf(b, c, deps)
    ensures ChainLinks(a, c, deps) == ChainLinks(b, c, deps)
    decreases |deps|
  {
    if deps != [] {
      SameSole(a, b, deps[0]);
      WalkOfShape(a, b, ServiceClient(deps[0], Sole(a, deps[0])), deps[1..]);
    }
    forall j | 0 <= j < |deps| ensures LinkAt(a, c, deps, j) == LinkAt(b, c, deps, j) {
      SameSole(a, b, deps[j]);
      if j > 0 {
        SameSole(a, b, deps[j - 1]);
      }
    }
  }

  lemma {:induction false} GhostsIdle(w: World, c: Client, deps: seq<Name>)
    requires forall i :: 0 <= i < |deps| ==> Holder(w.services, deps[i], c).None?
    ensures DecrementEdges(w, Level(c, deps)) == w
  {
    if deps != [] {
      forall i | 0 <= i < |deps[1..]| ensures Holder(w.services, deps[1..][i], c).None? {
        assert deps[1..][i] == deps[i + 1];
      }
      GhostsIdle(w, c, deps[1..]);
      assert Level(c, deps)[0] == (c, deps[0]) && Level(c, deps)[1..] == Level(c, deps[1..]);
    }
  }

  lemma NobodyHolds(a: Services, b: Services, d: Name, c: Client)
    requires Unique(a) && Unique(b) && Holder(a, d, c).None?
    requires forall l :: Entry(b, l).Some? ==> Entry(a, l).Some?
    ensures Holder(b, d, c).None?
  {
    HolderSpec(a, d, c);
    HolderSpec(b, d, c);
    forall r ensures c !in Tab(b, d, r) {
      assert Entry(b, Link(c, d, r)).Some? ==> Entry(a, Link(c, d, r)).Some?;
    }
  }

  lemma LoweredFewer(a: Services, b: Services, links: seq<Link>)
    requires Unique(a) && Lowered(a, b, links)
    ensures Unique(b) && forall l :: Entry(b, l).Some? ==> Entry(a, l).Some?
  {
    ShapeFacts(a, b);
  }

  lemma GhostStays(a: Services, b: Services, n: Name, r: ReplicaId, i: nat)
    requires Regime(a) && Linked(a) && 0 < i < |Deps(a, n)|
    requires Entry(a, LinkAt(a, ServiceClient(n, r), Deps(a, n), 0)).Some?
    requires Lowered(a, b, [LinkAt(a, ServiceClient(n, r), Deps(a, n), 0)])
    ensures Holder(b, Deps(a, n)[i], ServiceClient(n, r)).None?
  {
    OnlyFirstHolds(a, n, r, i);
    LoweredFewer(a, b, [LinkAt(a, ServiceClient(n, r), Deps(a, n), 0)]);
    NobodyHolds(a, b, Deps(a, n)[i], ServiceClient(n, r));
  }

  /** Walking one level takes one chain from its real edge. */
  lemma LevelLowers(w: World, n: Name, r: ReplicaId)
    requires Regime(w.services) && Linked(w.services) && Deps(w.services, n) != []
    requires Entry(w.services, LinkAt(w.services, ServiceClient(n, r), Deps(w.services, n), 0)).Some?
    ensures var c, deps := ServiceClient(n, r), Deps(w.services, n);
      Lowered(w.services, DecrementEdges(w, Level(c, deps)).services, [LinkAt(w.services, c, deps, 0)])
  {
    var s, c, deps := w.services, ServiceClient(n, r), Deps(w.services, n);
    var l := LinkAt(s, c, deps, 0);
    OnlyFirstHolds(s, n, r, 0);
    DecrementSpec(w, deps[0], c);
    var m := DecrementChain(w, deps[0], c);
    PutEntries(s, m.services, l, OneLess(Entry(s, l)));
    assert Lowered(s, m.services, [l]);
    ShapeFacts(s, m.services);
    forall i | 0 <= i < |deps[1..]| ensures Holder(m.services, deps[1..][i], c).None? {
      GhostStays(s, m.services, n, r, i + 1);
    }
    GhostsIdle(m, c, deps[1..]);
    assert Level(c, deps)[0] == (c, deps[0]) && Level(c, deps)[1..] == Level(c, deps[1..]);
  }

  lemma AliveAfterFirst(a: Services, b: Services, n: Name, r: ReplicaId)
    requires Coherent(a) && Deps(a, n) != [] && Alive(a, ServiceClient(n, r), Deps(a, n))
    requires Lowered(a, b, [LinkAt(a, ServiceClient(n, r), Deps(a, n), 0)])
    ensures var deps := Deps(a, n); Alive(b, ServiceClient(deps[0], Sole(b, deps[0])), deps[1..])
  {
    var c, deps := ServiceClient(n, r), Deps(a, n);
    EntryNeedsRep(a, LinkAt(a, c, deps, 0));
    forall j | 0 <= j < |deps| - 1
      ensures Entry(b, LinkAt(b, ServiceClient(deps[0], Sole(b, deps[0])), deps[1..], j)).Some?
    {
      ChainTail(a, c, deps, j);
      WalkOfShape(a, b, c, deps);
      assert ChainLinks(a, c, deps)[j + 1] == ChainLinks(b, c, deps)[j + 1];
      ChainTail(b, c, deps, j);
      LinksDistinct(a, n, r, 0, j + 1);
      assert Entry(a, LinkAt(a, c, deps, j + 1)).Some?;
    }
  }

  /** The whole walk takes one chain from every edge of the chain and touches nothing else. */
  lemma {:induction false} WalkLowers(w: World, n: Name, r: ReplicaId)
    requires Regime(w.services) && Linked(w.services)
    requires Alive(w.services, ServiceClient(n, r), Deps(w.services, n))
    ensures var c, deps := ServiceClient(n, r), Deps(w.services, n);
      Lowered(w.services, DecrementEdges(w, WalkOf(w.services, c, deps)).services, ChainLinks(w.services, c, deps))
    decreases |Deps(w.services, n)|
  {
    var s, c, deps := w.services, ServiceClient(n, r), Deps(w.services, n);
    if deps != [] {
      var first := LinkAt(s, c, deps, 0);
      assert Entry(s, first).Some?;
      EntryNeedsRep(s, first);
      var d, rest := deps[0], deps[1..];
      var c' := ServiceClient(d, Sole(s, d));
      DecrementEdgesConcat(w, Level(c, deps), WalkOf(s, c', rest));
      LevelLowers(w, n, r);
      var m := DecrementEdges(w, Level(c, deps));
      LoweredKeeps(s, m.services, [first]);
      AliveAfterFirst(s, m.services, n, r);
      SameSole(s, m.services, d);
      TailDeps(s, n);
      ShapeFacts(s, m.services);
      WalkOfShape(s, m.services, c', rest);
      WalkLowers(m, d, Sole(s, d));
      LinksSplit(s, n, r);
      LoweredJoin(s, m.services, DecrementEdges(m, WalkOf(s, c', rest)).services, first, ChainLinks(s, c', rest));
    }
  }

  lemma LinksSplit(s: Services, n: Name, r: ReplicaId)
    requires Coherent(s) && Deps(s, n) != [] && Deps(s, n)[0] in s
    ensures var c, deps := ServiceClient(n, r), Deps(s, n);
      var first, rest := LinkAt(s, c, deps, 0), ChainLinks(s, ServiceClient(deps[0], Sole(s, deps[0])), deps[1..]);
      ChainLinks(s, c, deps) == [first] + rest && first !in rest
  {
    var c, deps := ServiceClient(n, r), Deps(s, n);
    forall j | 0 <= j < |deps| - 1
      ensures LinkAt(s, c, deps, j + 1) == LinkAt(s, ServiceClient(deps[0], Sole(s, deps[0])), deps[1..], j)
      ensures deps[j + 1] != deps[0]
    {
      ChainTail(s, c, deps, j);
      LinksDistinct(s, n, r, 0, j + 1);
    }
  }

  lemma LoweredJoin(a: Services, m: Services, b: Services, first: Link, rest: seq<Link>)
    requires Lowered(a, m, [first]) && Lowered(m, b, rest) && first !in rest
    ensures Lowered(a, b, [first] + rest)
  {
  }
}
