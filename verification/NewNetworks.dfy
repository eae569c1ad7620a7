/** A chain setup that runs alone moves nobody to another network: whatever network it brings was not in use before. */
module NewNetworks {
  import opened Types
  import opened NetIdPool
  import opened ServiceTable
  import opened Chains
  import opened Teardown
  import opened Settlement
  import opened Setup
  import opened ChainSetup
  import opened AtomicSetup
  import opened Leaks
  import opened Ownership
  import Interleaving

  /** The entry is on the network it had in `a`, or on none yet, or on the chain, on one that is not in use in `pool`. */
  ghost predicate OldOrNew(pool: PoolState, a: Services, b: Services, edges: seq<RegisteredEdge>, l: Link) {
    NetAt(b, l) == 0 || NetAt(b, l) == NetAt(a, l) || (OnChain(edges, l) && !Live(pool, NetAt(b, l)))
  }

  ghost predicate NetsNew(pool: PoolState, a: Services, b: Services, edges: seq<RegisteredEdge>) {
    forall l :: OldOrNew(pool, a, b, edges, l)
  }

  /** What was in use still is, and what a task holds was not. */
  ghost predicate NewSince(w0: World, edges: seq<RegisteredEdge>, x: ChainState) {
    && |x.tasks| == |edges| && (forall k :: 0 <= k < |edges| ==> x.tasks[k].edge == edges[k])
    && Interleaving.OneOwner(AsSystem(x))
    && (forall id: nat :: Live(w0.pool, id) ==> Live(x.world.pool, id))
    && (forall k :: 0 <= k < |x.tasks| ==> !Live(w0.pool, x.tasks[k].HeldId()))
    && NetsNew(w0.pool, w0.services, x.world.services, edges)
  }

  /** A task leaves every network as it is, removes it, or puts the one that it holds. */
  lemma AdvanceNets(w: World, t: Task, ack: bool, now: nat, l: Link)
    requires Unique(w.services)
    ensures var b := Advance(w, t, ack, now).0.services;
      NetAt(b, l) == NetAt(w.services, l) || NetAt(b, l) == 0 || (NetAt(b, l) == t.HeldId() && l == t.edge.Link())
  {
    match t.phase
    case Start => StartNets(w, t, ack, now);
    case Allocated(id) =>
      if ack && IsRegistered(w.services, t.edge.server) {
        CommitNets(w, t, now);
      }
    case Aborting => AbortNets(w, t, ack, now);
    case _ =>
  }

  lemma TaskMoves(x: ChainState, k: nat, ack: bool, now: nat)
    requires Interleaving.OneOwner(AsSystem(x)) && k < |x.tasks|
    ensures Interleaving.Moves(x.world, x.tasks[k], StepOf(x, k, ack, now).world, StepOf(x, k, ack, now).tasks[k])
  {
    assert AsSystem(x).tasks[k] == x.tasks[k] && Interleaving.Proper(AsSystem(x).tasks[k]);
    Interleaving.AdvanceMoves(x.world, x.tasks[k], ack, now);
  }

  lemma NewStep(w0: World, edges: seq<RegisteredEdge>, x: ChainState, y: ChainState, start: nat)
    requires NewSince(w0, edges, x) && ChainStep(x, y, start)
    ensures NewSince(w0, edges, y)
  {
    var k: nat, ack, now :| start <= now && k < |x.tasks| && !x.tasks[k].Done() && y == StepOf(x, k, ack, now);
    AloneOwns(x, k, ack, now);
    TaskMoves(x, k, ack, now);
    AdvanceKeepsEdge(x.world, x.tasks[k], ack, now);
    forall l ensures OldOrNew(w0.pool, w0.services, y.world.services, edges, l) {
      AdvanceNets(x.world, x.tasks[k], ack, now, l);
      assert OldOrNew(w0.pool, w0.services, x.world.services, edges, l);
      assert l == edges[k].Link() ==> OnChain(edges, l);
    }
  }

  lemma AdvanceKeepsEdge(w: World, t: Task, ack: bool, now: nat)
    ensures Advance(w, t, ack, now).1.edge == t.edge
  {
  }

  lemma {:induction false} TraceNew(w0: World, trace: seq<ChainState>, edges: seq<RegisteredEdge>, start: nat)
    requires Orderly(w0) && ChainTrace(trace, start) && trace[0] == ChainState(w0, Spawn(edges))
    ensures NewSince(w0, edges, trace[|trace| - 1])
    decreases |trace|
  {
    if |trace| > 1 {
      TracePrefix(trace, start);
      TraceNew(w0, trace[..|trace| - 1], edges, start);
      NewStep(w0, edges, trace[|trace| - 2], trace[|trace| - 1], start);
    }
  }

  lemma ShrunkNew(pool: PoolState, a: Services, m: Services, b: Services, edges: seq<RegisteredEdge>)
    requires NetsNew(pool, a, m, edges) && Shrunk(m, b)
    ensures NetsNew(pool, a, b, edges)
  {
    forall l ensures OldOrNew(pool, a, b, edges, l) {
      assert OldOrNew(pool, a, m, edges, l);
      if Entry(b, l).Some? {
        assert Entry(m, l).Some? && SameNetwork(Entry(m, l).value, Entry(b, l).value);
      }
    }
  }

  /** After a chain setup every entry is on the network it had, or it is on the chain and its network was not in use. */
  lemma ChainNetsAreNew(w: World, edges: seq<RegisteredEdge>, start: nat, w': World, ok: bool, upstream: Option<Ipv4>)
    requires Orderly(w) && ChainSetupRel(w, edges, start, w', ok, upstream)
    ensures NetsNew(w.pool, w.services, w'.services, edges)
  {
    var trace: seq<ChainState> :|
      && ChainTrace(trace, start)
      && trace[0] == ChainState(w, Spawn(edges))
      && AllDone(trace[|trace| - 1].tasks)
      && Concluded(trace[|trace| - 1], w', ok, upstream);
    var last := trace[|trace| - 1];
    TraceNew(w, trace, edges, start);
    if !ok {
      var order :| Successful(last.tasks, order) && w' == DecrementEdges(last.world, EdgesAt(last.tasks, order));
      DecrementEdgesShrink(last.world, EdgesAt(last.tasks, order));
      ShrunkNew(w.pool, w.services, last.world.services, w'.services, edges);
    }
  }

  lemma UserIsMade(w0: World, edges: seq<RegisteredEdge>, user: nat, x: ChainState)
    requires OneUser(w0.services, edges, user) && AloneInv(w0, edges, user, x) && user < |edges|
    requires x.tasks[user].phase.Succeeded?
    ensures Entry(x.world.services, edges[user].Link()).Some?
    ensures Made(w0.pool.net, edges[user], Entry(x.world.services, edges[user].Link()).value)
  {
    assert Entry(w0.services, edges[user].Link()).None?;
  }

  lemma ChainIsMade(w: World, edges: seq<RegisteredEdge>, user: nat, start: nat, w': World, upstream: Option<Ipv4>)
    requires Orderly(w) && OneUser(w.services, edges, user) && user < |edges|
    requires ChainSetupRel(w, edges, start, w', true, upstream)
    ensures Entry(w'.services, edges[user].Link()).Some?
    ensures Made(w.pool.net, edges[user], Entry(w'.services, edges[user].Link()).value)
  {
    var trace: seq<ChainState> :|
      && ChainTrace(trace, start)
      && trace[0] == ChainState(w, Spawn(edges))
      && AllDone(trace[|trace| - 1].tasks)
      && Concluded(trace[|trace| - 1], w', true, upstream);
    TraceAlone(w, edges, user, trace, start);
    UserIsMade(w, edges, user, trace[|trace| - 1]);
  }

  /** The user of a chain that was set up is on a network of its own. */
  lemma UserGetsItsOwn(w: World, edges: seq<RegisteredEdge>, user: nat, start: nat, w': World, upstream: Option<Ipv4>)
    requires Orderly(w) && OneUser(w.services, edges, user) && user < |edges|
    requires ChainSetupRel(w, edges, start, w', true, upstream)
    ensures var p := edges[user].Link();
      Entry(w'.services, p).Some? && NetAt(w'.services, p) != 0 && !Live(w.pool, NetAt(w'.services, p))
  {
    ChainNetsAreNew(w, edges, start, w', true, upstream);
    ChainIsMade(w, edges, user, start, w', upstream);
    assert Entry(w.services, edges[user].Link()).None?;
    assert OldOrNew(w.pool, w.services, w'.services, edges, edges[user].Link());
  }
}
