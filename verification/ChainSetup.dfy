/**
 Setting up one chain while nothing else touches the table: for every interleaving of its edges and every answer of
 the endpoints, a chain is set up as a whole or leaves the table and the pool as they were.
 */
module ChainSetup {
  import opened Types
  import opened NetIdPool
  import opened Net
  import opened ServiceTable
  import opened Chains
  import opened Teardown
  import opened Settlement
  import opened Setup

  // ----- the edges -----

  /** Every edge leads to an existing replica of a service of its own, which holds its client nowhere else. */
  ghost predicate Ready(s: Services, edges: seq<RegisteredEdge>) {
    && Unique(s)
    && (forall k :: 0 <= k < |edges| ==> HasRep(s, edges[k].server, edges[k].at) && OnlyHere(s, edges[k]))
    && (forall j, k :: 0 <= j < k < |edges| ==> edges[j].server != edges[k].server)
    && (forall k :: 0 <= k < |edges| && Entry(s, edges[k].Link()).Some? ==>
          Entry(s, edges[k].Link()).value.activeChains >= 1)
  }

  /** The same entry, apart from its time stamp. */
  ghost predicate Alike(a: Option<ClientInfo>, b: Option<ClientInfo>) {
    a.Some? == b.Some? && (a.Some? ==> b.value == a.value.(latest := b.value.latest))
  }

  ghost predicate OneMore(a: ClientInfo, b: ClientInfo) {
    b == a.(activeChains := a.activeChains + 1, latest := b.latest)
  }

  /** The entry of a network that this setup has made. */
  ghost predicate Made(net: NetType, e: RegisteredEdge, info: ClientInfo) {
    && MIN_NET_ID <= info.netId <= MaxNetId(net)
    && info == Committed(net, e, info.netId, info.latest).AddActiveChain(info.latest)
  }

  /** What a task has done to its entry so far. */
  ghost predicate Progress(net: NetType, s0: Services, s: Services, t: Task) {
    var was, cur := Entry(s0, t.edge.Link()), Entry(s, t.edge.Link());
    match t.phase
    case Start => Alike(was, cur)
    case Failed => Alike(was, cur)
    case Reserved => Slot(was, cur)
    case Aborting => Slot(was, cur)
    case Allocated(id) => Slot(was, cur) && id != 0
    case Releasing(_) => false
    case Succeeded(upstream) =>
      && cur.Some?
      && if was.Some? then OneMore(was.value, cur.value) && upstream == None
         else Made(net, t.edge, cur.value) && upstream == UpstreamOf(t.edge, cur.value)
  }

  ghost predicate Slot(was: Option<ClientInfo>, cur: Option<ClientInfo>) {
    was.None? && cur.Some? && cur.value.netId == 0 && cur.value.activeChains == 0
  }

  /** The ID that a task has taken from the pool and not given back. */
  function Own(s0: Services, s: Services, t: Task): nat {
    match t.phase
    case Allocated(id) => id
    case Succeeded(_) =>
      if Entry(s0, t.edge.Link()).None? && Entry(s, t.edge.Link()).Some? then Entry(s, t.edge.Link()).value.netId else 0
    case _ => 0
  }

  function Owns(s0: Services, x: ChainState): seq<nat> {
    seq(|x.tasks|, k requires 0 <= k < |x.tasks| => Own(s0, x.world.services, x.tasks[k]))
  }

  ghost predicate OnChain(edges: seq<RegisteredEdge>, l: Link) {
    exists k :: 0 <= k < |edges| && edges[k].Link() == l
  }

  ghost predicate TableInv(w0: World, edges: seq<RegisteredEdge>, x: ChainState) {
    && SameShape(w0.services, x.world.services)
    && |x.tasks| == |edges|
    && (forall k :: 0 <= k < |edges| ==>
          x.tasks[k].edge == edges[k] && Progress(w0.pool.net, w0.services, x.world.services, x.tasks[k]))
    && (forall l :: !OnChain(edges, l) ==> Entry(x.world.services, l) == Entry(w0.services, l))
  }

  /** The pool is what it was plus the IDs in `owns`. */
  ghost predicate Accounted(p0: PoolState, p: PoolState, owns: seq<nat>) {
    && Valid(p) && p.net == p0.net
    && (forall id: nat :: Live(p, id) <==> Live(p0, id) || (id in owns && id != 0))
    && (forall i :: 0 <= i < |owns| && owns[i] != 0 ==>
          !Live(p0, owns[i]) && forall j :: 0 <= j < |owns| && j != i ==> owns[j] != owns[i])
  }

  ghost predicate ChainInv(w0: World, edges: seq<RegisteredEdge>, x: ChainState) {
    TableInv(w0, edges, x) && Accounted(w0.pool, x.world.pool, Owns(w0.services, x))
  }

  /** A network that this setup has made carries one chain and is reached at the server's address. */
  lemma MadeIsServed(net: NetType, e: RegisteredEdge, info: ClientInfo)
    requires Made(net, e, info)
    ensures info.activeChains == 1
    ensures info.serverNet == ServerAddress(net, info.netId, e.at.docker) != UNSPECIFIED
  {
  }

  // ----- the pool -----

  lemma Taken(p0: PoolState, p: PoolState, owns: seq<nat>, k: nat)
    requires Accounted(p0, p, owns) && k < |owns| && owns[k] == 0
    ensures var (q, got) := Allocate(p);
      if got.Some? then
        MIN_NET_ID <= got.value <= MaxNetId(p.net) && Accounted(p0, q, owns[k := got.value])
      else q == p
  {
    AllocateSpec(p);
    var (q, got) := Allocate(p);
    if got.Some? {
      forall id: nat ensures id in owns[k := got.value] && id != 0 <==> (id in owns && id != 0) || id == got.value {
        if id in owns && id != 0 {
          var i :| 0 <= i < |owns| && owns[i] == id;
          assert owns[k := got.value][i] == id;
        }
        assert owns[k := got.value][k] == got.value;
      }
    }
  }

  lemma GivenBack(p0: PoolState, p: PoolState, owns: seq<nat>, k: nat)
    requires Accounted(p0, p, owns) && k < |owns|
    ensures Accounted(p0, Free(p, owns[k]), owns[k := 0])
  {
    FreeIsSoundIffIssued(p, owns[k]);
    if owns[k] != 0 {
      assert Live(p, owns[k]);
    }
    forall id: nat ensures id in owns[k := 0] && id != 0 <==> id in owns && id != 0 && id != owns[k] {
      if id in owns && id != 0 && id != owns[k] {
        var i :| 0 <= i < |owns| && owns[i] == id;
        assert owns[k := 0][i] == id;
      }
      if id in owns[k := 0] && id != 0 {
        var i :| 0 <= i < |owns| && owns[k := 0][i] == id;
        assert owns[i] == id;
      }
    }
  }

  lemma Unowned(owns: seq<nat>, k: nat)
    requires k < |owns| && owns[k] == 0
    ensures owns[k := 0] == owns
  {
  }

  // ----- one step -----

  ghost predicate Moved(a: Services, b: Services, l: Link) {
    a == b || exists v :: Put(a, b, l, v)
  }

  lemma MovedEntries(a: Services, b: Services, l: Link)
    requires Moved(a, b, l)
    ensures SameShape(a, b) && forall x :: x != l ==> Entry(b, x) == Entry(a, x)
  {
    if a != b {
      var v :| Put(a, b, l, v);
      PutEntries(a, b, l, v);
    }
  }

  lemma OtherEntries(s0: Services, edges: seq<RegisteredEdge>, a: Services, b: Services, k: nat)
    requires Ready(s0, edges) && k < |edges| && Moved(a, b, edges[k].Link())
    ensures SameShape(a, b)
    ensures forall j :: 0 <= j < |edges| && j != k ==> Entry(b, edges[j].Link()) == Entry(a, edges[j].Link())
    ensures forall l :: !OnChain(edges, l) ==> Entry(b, l) == Entry(a, l)
  {
    MovedEntries(a, b, edges[k].Link());
    forall j | 0 <= j < |edges| && j != k ensures Entry(b, edges[j].Link()) == Entry(a, edges[j].Link()) {
      assert edges[j].server != edges[k].server;
    }
    forall l | !OnChain(edges, l) ensures l != edges[k].Link() {}
  }

  lemma OwnsKept(s0: Services, edges: seq<RegisteredEdge>, x: ChainState, k: nat, w: World, t: Task)
    requires |x.tasks| == |edges| && k < |edges| && t.edge == edges[k]
    requires forall j :: 0 <= j < |edges| ==> x.tasks[j].edge == edges[j]
    requires forall j :: 0 <= j < |edges| && j != k ==>
      Entry(w.services, edges[j].Link()) == Entry(x.world.services, edges[j].Link())
    ensures Owns(s0, ChainState(w, x.tasks[k := t])) == Owns(s0, x)[k := Own(s0, w.services, t)]
  {
  }

  lemma SameProgress(net: NetType, s0: Services, a: Services, b: Services, t: Task)
    requires Progress(net, s0, a, t) && Entry(b, t.edge.Link()) == Entry(a, t.edge.Link())
    ensures Progress(net, s0, b, t)
  {
  }

  /** A task that touches only its own entry leaves the progress of the other tasks alone. */
  lemma OthersKeep(w0: World, edges: seq<RegisteredEdge>, x: ChainState, k: nat, w: World, t: Task)
    requires Ready(w0.services, edges) && TableInv(w0, edges, x) && k < |edges| && t.edge == edges[k]
    requires Moved(x.world.services, w.services, edges[k].Link())
    requires Progress(w0.pool.net, w0.services, w.services, t)
    ensures TableInv(w0, edges, ChainState(w, x.tasks[k := t]))
    ensures Owns(w0.services, ChainState(w, x.tasks[k := t])) ==
      Owns(w0.services, x)[k := Own(w0.services, w.services, t)]
  {
    var s := x.world.services;
    OtherEntries(w0.services, edges, s, w.services, k);
    ShapeTrans(w0.services, s, w.services);
    OwnsKept(w0.services, edges, x, k, w, t);
    forall j | 0 <= j < |edges| && j != k ensures Progress(w0.pool.net, w0.services, w.services, x.tasks[j]) {
      SameProgress(w0.pool.net, w0.services, s, w.services, x.tasks[j]);
    }
  }

  lemma StillHere(w0: World, edges: seq<RegisteredEdge>, x: ChainState, k: nat)
    requires Ready(w0.services, edges) && TableInv(w0, edges, x) && k < |edges|
    ensures Unique(x.world.services) && HasRep(x.world.services, edges[k].server, edges[k].at)
    ensures OnlyHere(x.world.services, edges[k]) && IsRegistered(x.world.services, edges[k].server)
    ensures edges[k].client in Tab(x.world.services, edges[k].server, edges[k].at) <==>
      Entry(x.world.services, edges[k].Link()).Some?
  {
    var s, e := x.world.services, edges[k];
    ShapeFacts(w0.services, s);
    forall r | e.client in Tab(s, e.server, r) ensures r == e.at {
      var l := Link(e.client, e.server, r);
      assert Entry(s, l).Some?;
      if OnChain(edges, l) {
        var j :| 0 <= j < |edges| && edges[j].Link() == l;
        assert j == k;
      } else {
        assert Entry(w0.services, l).Some?;
      }
    }
  }

  lemma StartStep(w0: World, edges: seq<RegisteredEdge>, x: ChainState, k: nat, ack: bool, now: nat)
    requires Ready(w0.services, edges) && ChainInv(w0, edges, x) && k < |edges| && x.tasks[k].phase.Start?
    ensures ChainInv(w0, edges, StepOf(x, k, ack, now))
  {
    var e, s := edges[k], x.world.services;
    StillHere(w0, edges, x, k);
    HolderHere(s, e);
    if e.client in Tab(s, e.server, e.at) {
      ReuseSpec(x.world, e, ack, now);
    } else {
      ReserveSpec(x.world, e, ack, now);
    }
    var (w, t) := Advance(x.world, x.tasks[k], ack, now);
    var v := if e.client in Tab(s, e.server, e.at) then Tab(s, e.server, e.at)[e.client].AddActiveChain(now)
             else Placeholder(e.clientIp, now);
    assert Put(s, w.services, e.Link(), Some(v));
    PutEntries(s, w.services, e.Link(), Some(v));
    OthersKeep(w0, edges, x, k, w, t);
    Unowned(Owns(w0.services, x), k);
  }

  lemma ReservedStep(w0: World, edges: seq<RegisteredEdge>, x: ChainState, k: nat, ack: bool, now: nat)
    requires Ready(w0.services, edges) && ChainInv(w0, edges, x) && k < |edges| && x.tasks[k].phase.Reserved?
    ensures ChainInv(w0, edges, StepOf(x, k, ack, now))
  {
    var (w, t) := Advance(x.world, x.tasks[k], ack, now);
    Taken(w0.pool, x.world.pool, Owns(w0.services, x), k);
    OthersKeep(w0, edges, x, k, w, t);
    Unowned(Owns(w0.services, x), k);
  }

  lemma AbortStep(w0: World, edges: seq<RegisteredEdge>, x: ChainState, k: nat, ack: bool, now: nat)
    requires Ready(w0.services, edges) && ChainInv(w0, edges, x) && k < |edges| && x.tasks[k].phase.Aborting?
    ensures ChainInv(w0, edges, StepOf(x, k, ack, now))
  {
    var e, s := edges[k], x.world.services;
    StillHere(w0, edges, x, k);
    AbortSpec(x.world, e, ack, now);
    var (w, t) := Advance(x.world, x.tasks[k], ack, now);
    PutEntries(s, w.services, e.Link(), None);
    OthersKeep(w0, edges, x, k, w, t);
    Unowned(Owns(w0.services, x), k);
  }

  lemma RefusedStep(w0: World, edges: seq<RegisteredEdge>, x: ChainState, k: nat, now: nat)
    requires Ready(w0.services, edges) && ChainInv(w0, edges, x) && k < |edges| && x.tasks[k].phase.Allocated?
    ensures ChainInv(w0, edges, StepOf(x, k, false, now))
  {
    var (w, t) := Advance(x.world, x.tasks[k], false, now);
    assert Owns(w0.services, x)[k] == x.tasks[k].phase.id;
    GivenBack(w0.pool, x.world.pool, Owns(w0.services, x), k);
    OthersKeep(w0, edges, x, k, w, t);
  }

  /** A commit puts the entry of the new network in place, with its first chain. */
  lemma Commits(w: World, e: RegisteredEdge, id: nat, now: nat)
    requires Unique(w.services) && HasRep(w.services, e.server, e.at) && OnlyHere(w.services, e)
    requires MIN_NET_ID <= id <= MaxNetId(w.pool.net)
    ensures var (w', t') := Advance(w, Task(e, Allocated(id)), true, now);
      && w'.pool == w.pool && t'.edge == e
      && Moved(w.services, w'.services, e.Link())
      && Entry(w'.services, e.Link()).Some?
      && Made(w.pool.net, e, Entry(w'.services, e.Link()).value) && Entry(w'.services, e.Link()).value.netId == id
      && t'.phase == Succeeded(UpstreamOf(e, Entry(w'.services, e.Link()).value))
  {
    var (w', t') := Advance(w, Task(e, Allocated(id)), true, now);
    CommitSpec(w, e, id, now);
    PutEntries(w.services, w'.services, e.Link(), Some(Committed(w.pool.net, e, id, now).AddActiveChain(now)));
  }

  lemma CommitPuts(w0: World, edges: seq<RegisteredEdge>, x: ChainState, k: nat, now: nat)
    requires Ready(w0.services, edges) && ChainInv(w0, edges, x) && k < |edges| && x.tasks[k].phase.Allocated?
    ensures var (w, t) := Advance(x.world, x.tasks[k], true, now);
      && w.pool == x.world.pool && t.edge == edges[k] && t.phase.Succeeded?
      && Moved(x.world.services, w.services, edges[k].Link())
      && Progress(w0.pool.net, w0.services, w.services, t)
      && Own(w0.services, w.services, t) == x.tasks[k].phase.id
  {
    StillHere(w0, edges, x, k);
    OwnedIsReal(w0, edges, x, k);
    assert x.tasks[k] == Task(edges[k], Allocated(x.tasks[k].phase.id));
    Commits(x.world, edges[k], x.tasks[k].phase.id, now);
  }

  lemma CommitStep(w0: World, edges: seq<RegisteredEdge>, x: ChainState, k: nat, now: nat)
    requires Ready(w0.services, edges) && ChainInv(w0, edges, x) && k < |edges| && x.tasks[k].phase.Allocated?
    ensures ChainInv(w0, edges, StepOf(x, k, true, now))
  {
    var (w, t) := Advance(x.world, x.tasks[k], true, now);
    CommitPuts(w0, edges, x, k, now);
    OthersKeep(w0, edges, x, k, w, t);
    var owns := Owns(w0.services, x);
    assert owns[k] == x.tasks[k].phase.id;
    assert owns[k := owns[k]] == owns;
  }

  lemma OwnedIsReal(w0: World, edges: seq<RegisteredEdge>, x: ChainState, k: nat)
    requires ChainInv(w0, edges, x) && k < |edges| && x.tasks[k].phase.Allocated?
    ensures MIN_NET_ID <= x.tasks[k].phase.id <= MaxNetId(w0.pool.net)
  {
    assert Owns(w0.services, x)[k] == x.tasks[k].phase.id;
    assert Live(x.world.pool, x.tasks[k].phase.id);
  }

  // ----- all steps -----

  lemma ChainStepKeeps(w0: World, edges: seq<RegisteredEdge>, x: ChainState, y: ChainState, start: nat)
    requires Ready(w0.services, edges) && ChainInv(w0, edges, x) && ChainStep(x, y, start)
    ensures ChainInv(w0, edges, y)
  {
    var k: nat, ack, now :| start <= now && k < |x.tasks| && !x.tasks[k].Done() && y == StepOf(x, k, ack, now);
    assert Progress(w0.pool.net, w0.services, x.world.services, x.tasks[k]);
    match x.tasks[k].phase
    case Start => StartStep(w0, edges, x, k, ack, now);
    case Reserved => ReservedStep(w0, edges, x, k, ack, now);
    case Aborting => AbortStep(w0, edges, x, k, ack, now);
    case Allocated(_) =>
      if ack {
        CommitStep(w0, edges, x, k, now);
      } else {
        RefusedStep(w0, edges, x, k, now);
      }
  }

  lemma SpawnInv(w0: World, edges: seq<RegisteredEdge>)
    requires Ready(w0.services, edges) && Valid(w0.pool)
    ensures ChainInv(w0, edges, ChainState(w0, Spawn(edges)))
  {
    var x := ChainState(w0, Spawn(edges));
    assert forall i :: 0 <= i < |edges| ==> Owns(w0.services, x)[i] == 0;
  }

  lemma {:induction false} TraceKeeps(w0: World, edges: seq<RegisteredEdge>, trace: seq<ChainState>, start: nat)
    requires Ready(w0.services, edges) && Valid(w0.pool)
    requires ChainTrace(trace, start) && trace[0] == ChainState(w0, Spawn(edges))
    ensures ChainInv(w0, edges, trace[|trace| - 1])
    decreases |trace|
  {
    if |trace| == 1 {
      SpawnInv(w0, edges);
    } else {
      var before := trace[..|trace| - 1];
      TracePrefix(trace, start);
      TraceKeeps(w0, edges, before, start);
      ChainStepKeeps(w0, edges, trace[|trace| - 2], trace[|trace| - 1], start);
    }
  }

  // ----- rollback -----

  /** Taking one finished edge back is as if its task had failed. */
  lemma Undo(w0: World, edges: seq<RegisteredEdge>, x: ChainState, k: nat)
    requires Ready(w0.services, edges) && ChainInv(w0, edges, x) && k < |edges| && x.tasks[k].phase.Succeeded?
    ensures ChainInv(w0, edges,
      ChainState(DecrementChain(x.world, edges[k].server, edges[k].client), x.tasks[k := Task(edges[k], Failed)]))
  {
    var e, s := edges[k], x.world.services;
    var w, t := DecrementChain(x.world, e.server, e.client), Task(e, Failed);
    var owns := Owns(w0.services, x);
    UndoPuts(w0, edges, x, k);
    OthersKeep(w0, edges, x, k, w, t);
    GivenBack(w0.pool, x.world.pool, owns, k);
    if owns[k] == 0 {
      Unowned(owns, k);
    }
  }

  lemma UndoPuts(w0: World, edges: seq<RegisteredEdge>, x: ChainState, k: nat)
    requires Ready(w0.services, edges) && ChainInv(w0, edges, x) && k < |edges| && x.tasks[k].phase.Succeeded?
    ensures var w := DecrementChain(x.world, edges[k].server, edges[k].client);
      && Moved(x.world.services, w.services, edges[k].Link())
      && Progress(w0.pool.net, w0.services, w.services, Task(edges[k], Failed))
      && w.pool == Free(x.world.pool, Own(w0.services, x.world.services, x.tasks[k]))
  {
    var e, s := edges[k], x.world.services;
    assert Progress(w0.pool.net, w0.services, s, x.tasks[k]);
    StillHere(w0, edges, x, k);
    HolderHere(s, e);
    DecrementSpec(x.world, e.server, e.client);
    var w := DecrementChain(x.world, e.server, e.client);
    var info := Tab(s, e.server, e.at)[e.client];
    if Entry(w0.services, e.Link()).Some? {
      PutEntries(s, w.services, e.Link(), Some(info.RemoveActiveChain()));
    } else {
      PutEntries(s, w.services, e.Link(), None);
    }
  }

  lemma {:induction false} SameEdgesAt(a: seq<Task>, b: seq<Task>, order: seq<nat>)
    requires |a| == |b| && forall k :: 0 <= k < |a| ==> a[k].edge == b[k].edge
    requires forall k: nat :: k in order ==> k < |a|
    ensures EdgesAt(a, order) == EdgesAt(b, order)
  {
    if order != [] {
      assert forall k: nat :: k in order[1..] ==> k in order;
      var k := order[0];
      assert k in order && a[k].edge == b[k].edge;
      SameEdgesAt(a, b, order[1..]);
    }
  }

  /** Taking back every finished edge, in whatever order, is as if all tasks had failed. */
  lemma {:induction false} UndoAll(w0: World, edges: seq<RegisteredEdge>, x: ChainState, order: seq<nat>)
    returns (tasks: seq<Task>)
    requires Ready(w0.services, edges) && ChainInv(w0, edges, x) && AllDone(x.tasks) && Successful(x.tasks, order)
    ensures ChainInv(w0, edges, ChainState(DecrementEdges(x.world, EdgesAt(x.tasks, order)), tasks))
    ensures forall k :: 0 <= k < |edges| ==> tasks[k].phase.Failed?
    decreases |order|
  {
    tasks := x.tasks;
    if order != [] {
      var k, rest := order[0], order[1..];
      assert k in order;
      var e := edges[k];
      var y := ChainState(DecrementChain(x.world, e.server, e.client), x.tasks[k := Task(e, Failed)]);
      Undo(w0, edges, x, k);
      NextUndo(x.tasks, order, e);
      SameEdgesAt(x.tasks, y.tasks, rest);
      tasks := UndoAll(w0, edges, y, rest);
    } else {
      forall k: nat | k < |edges| ensures tasks[k].phase.Failed? {
        assert tasks[k].Done() && k !in order;
      }
    }
  }

  lemma NextUndo(tasks: seq<Task>, order: seq<nat>, e: RegisteredEdge)
    requires AllDone(tasks) && Successful(tasks, order) && order != [] && order[0] < |tasks|
    ensures var next := tasks[order[0] := Task(e, Failed)]; AllDone(next) && Successful(next, order[1..])
    ensures forall k: nat :: k in order[1..] ==> k < |tasks|
  {
    var next, rest := tasks[order[0] := Task(e, Failed)], order[1..];
    forall k: nat ensures k in rest <==> k < |next| && next[k].phase.Succeeded? {
      if k in rest {
        var i :| 0 <= i < |rest| && rest[i] == k;
        assert order[i + 1] == k && k in order;
      } else {
        assert k in order ==> k == order[0];
      }
    }
  }

  // ----- the outcomes -----

  /** The same table, apart from time stamps. */
  ghost predicate Refreshed(a: Services, b: Services) {
    SameShape(a, b) && forall l :: Alike(Entry(a, l), Entry(b, l))
  }

  /** The pool has the same IDs in use. */
  ghost predicate SameIds(a: PoolState, b: PoolState) {
    Valid(b) && a.net == b.net && forall id: nat :: Live(a, id) <==> Live(b, id)
  }

  lemma AllFailedIsNoOp(w0: World, edges: seq<RegisteredEdge>, x: ChainState)
    requires ChainInv(w0, edges, x) && forall k :: 0 <= k < |edges| ==> x.tasks[k].phase.Failed?
    ensures Refreshed(w0.services, x.world.services) && SameIds(w0.pool, x.world.pool)
  {
    forall l ensures Alike(Entry(w0.services, l), Entry(x.world.services, l)) {
      if OnChain(edges, l) {
        var k :| 0 <= k < |edges| && edges[k].Link() == l;
        assert Progress(w0.pool.net, w0.services, x.world.services, x.tasks[k]);
      }
    }
    forall i | 0 <= i < |edges| ensures Owns(w0.services, x)[i] == 0 {}
  }

  /**
   If any edge fails, for lack of an ID or of an answer, then for every interleaving of the edges and every order of
   the rollback the entries, their counts and the IDs in use are what they were before; only time stamps may differ.
   */
  lemma FailedSetupIsNoOp(w: World, edges: seq<RegisteredEdge>, start: nat, w': World, upstream: Option<Ipv4>)
    requires Ready(w.services, edges) && Valid(w.pool) && ChainSetupRel(w, edges, start, w', false, upstream)
    ensures Refreshed(w.services, w'.services) && SameIds(w.pool, w'.pool) && upstream == None
  {
    var trace: seq<ChainState> :|
      && ChainTrace(trace, start)
      && trace[0] == ChainState(w, Spawn(edges))
      && AllDone(trace[|trace| - 1].tasks)
      && Concluded(trace[|trace| - 1], w', false, upstream);
    var last := trace[|trace| - 1];
    TraceKeeps(w, edges, trace, start);
    var order :| Successful(last.tasks, order) && w' == DecrementEdges(last.world, EdgesAt(last.tasks, order));
    var tasks := UndoAll(w, edges, last, order);
    AllFailedIsNoOp(w, edges, ChainState(w', tasks));
  }

  /** Every edge of the chain has one chain more, over its old network or one that was not in use before. */
  ghost predicate SetUp(w: World, edges: seq<RegisteredEdge>, w': World) {
    && SameShape(w.services, w'.services)
    && (forall l :: !OnChain(edges, l) ==> Entry(w'.services, l) == Entry(w.services, l))
    && (forall k :: 0 <= k < |edges| ==> EdgeUp(w, edges[k], w'))
    && (forall j, k :: 0 <= j < k < |edges| && IsNew(w.services, edges[j]) && IsNew(w.services, edges[k]) ==>
          Entry(w'.services, edges[j].Link()).value.netId != Entry(w'.services, edges[k].Link()).value.netId)
    && Valid(w'.pool) && w'.pool.net == w.pool.net
    && (forall id: nat :: Live(w'.pool, id) <==> Live(w.pool, id) || NewId(w, edges, w', id))
  }

  ghost predicate IsNew(s: Services, e: RegisteredEdge) {
    Entry(s, e.Link()).None?
  }

  ghost predicate NewId(w: World, edges: seq<RegisteredEdge>, w': World, id: nat) {
    exists k :: 0 <= k < |edges| && IsNew(w.services, edges[k])
      && Entry(w'.services, edges[k].Link()).Some? && Entry(w'.services, edges[k].Link()).value.netId == id
  }

  ghost predicate EdgeUp(w: World, e: RegisteredEdge, w': World) {
    var was, cur := Entry(w.services, e.Link()), Entry(w'.services, e.Link());
    && cur.Some?
    && if was.Some? then OneMore(was.value, cur.value)
       else Made(w.pool.net, e, cur.value) && !Live(w.pool, cur.value.netId)
  }

  lemma OwnedNow(w0: World, edges: seq<RegisteredEdge>, x: ChainState, k: nat)
    requires ChainInv(w0, edges, x) && AllSucceeded(x.tasks) && k < |edges|
    ensures EdgeUp(w0, edges[k], x.world)
    ensures Owns(w0.services, x)[k] ==
      if IsNew(w0.services, edges[k]) then Entry(x.world.services, edges[k].Link()).value.netId else 0
  {
    assert Progress(w0.pool.net, w0.services, x.world.services, x.tasks[k]);
    var owns := Owns(w0.services, x);
    assert owns[k] == Own(w0.services, x.world.services, x.tasks[k]);
    assert owns[k] != 0 ==> !Live(w0.pool, owns[k]);
  }

  lemma AllSucceededIsSetUp(w0: World, edges: seq<RegisteredEdge>, x: ChainState)
    requires ChainInv(w0, edges, x) && AllSucceeded(x.tasks)
    ensures SetUp(w0, edges, x.world)
  {
    var owns := Owns(w0.services, x);
    forall k | 0 <= k < |edges|
      ensures EdgeUp(w0, edges[k], x.world)
      ensures owns[k] == if IsNew(w0.services, edges[k]) then Entry(x.world.services, edges[k].Link()).value.netId else 0
    {
      OwnedNow(w0, edges, x, k);
    }
    forall id: nat ensures id in owns && id != 0 <==> NewId(w0, edges, x.world, id) {
      OwnedIsNew(w0, edges, x, id);
    }
  }

  lemma OwnedIsNew(w0: World, edges: seq<RegisteredEdge>, x: ChainState, id: nat)
    requires |x.tasks| == |edges|
    requires forall k :: 0 <= k < |edges| ==>
      && EdgeUp(w0, edges[k], x.world)
      && Owns(w0.services, x)[k] ==
         if IsNew(w0.services, edges[k]) then Entry(x.world.services, edges[k].Link()).value.netId else 0
    ensures id in Owns(w0.services, x) && id != 0 <==> NewId(w0, edges, x.world, id)
  {
    var owns := Owns(w0.services, x);
    if id in owns && id != 0 {
      var k :| 0 <= k < |owns| && owns[k] == id;
      assert EdgeUp(w0, edges[k], x.world);
    }
    if NewId(w0, edges, x.world, id) {
      var k :| 0 <= k < |edges| && IsNew(w0.services, edges[k])
        && Entry(x.world.services, edges[k].Link()).Some? && Entry(x.world.services, edges[k].Link()).value.netId == id;
      assert EdgeUp(w0, edges[k], x.world);
      assert owns[k] == id;
    }
  }

  /** If no edge fails, all of them are up, each new one on a network of its own. */
  lemma SuccessfulSetup(w: World, edges: seq<RegisteredEdge>, start: nat, w': World, upstream: Option<Ipv4>)
    requires Ready(w.services, edges) && Valid(w.pool) && ChainSetupRel(w, edges, start, w', true, upstream)
    ensures SetUp(w, edges, w')
  {
    var trace: seq<ChainState> :|
      && ChainTrace(trace, start)
      && trace[0] == ChainState(w, Spawn(edges))
      && AllDone(trace[|trace| - 1].tasks)
      && Concluded(trace[|trace| - 1], w', true, upstream);
    TraceKeeps(w, edges, trace, start);
    AllSucceededIsSetUp(w, edges, trace[|trace| - 1]);
  }
}
