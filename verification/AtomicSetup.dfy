/**
 Setting up one chain while nothing else touches the table, for every configuration: dependencies may repeat, have
 many replicas or form cycles, and the edges of the chain may get in each other's way.
 */
module AtomicSetup {
  import opened Types
  import opened NetIdPool
  import opened ServiceTable
  import opened Chains
  import opened Teardown
  import opened Settlement
  import opened Setup
  import opened ChainSetup
  import Interleaving

  // ----- between two requests -----

  /** The users have their networks. */
  ghost predicate UsersUp(s: Services) {
    forall l: Link :: l.client.proxy.Some? && Entry(s, l).Some? ==> Entry(s, l).value.serverNet != UNSPECIFIED
  }

  /** Holds between the requests of every run in which they are served one at a time. */
  ghost predicate Orderly(w: World) {
    && Unique(w.services) && Valid(w.pool)
    && ProperlyShared(w.services) && ProxyOnce(w.services) && UsersUp(w.services)
    && forall id: nat :: Held(w.services, id) ==> Live(w.pool, id)
  }

  // ----- the edges -----

  /** At most one edge, number `user`, is that of a user; the user is new and its replica exists. */
  ghost predicate OneUser(s: Services, edges: seq<RegisteredEdge>, user: nat) {
    && (forall k :: 0 <= k < |edges| && edges[k].client.proxy.Some? ==> k == user)
    && (user < |edges| ==>
          && edges[user].client.proxy.Some?
          && HasRep(s, edges[user].server, edges[user].at)
          && forall r :: Entry(s, Link(edges[user].client, edges[user].server, r)).None?)
  }

  ghost predicate IsUser(edges: seq<RegisteredEdge>, user: nat, l: Link) {
    user < |edges| && l == edges[user].Link()
  }

  /** Users other than that of the chain are as before. */
  ghost predicate OtherUsersStay(a: Services, b: Services, edges: seq<RegisteredEdge>, user: nat) {
    forall l: Link :: l.client.proxy.Some? && !IsUser(edges, user, l) ==> Entry(b, l) == Entry(a, l)
  }

  ghost predicate NoNewSharing(a: Services, b: Services) {
    forall x, y :: SameId(b, x, y) ==> x == y || SameId(a, x, y)
  }

  function AsSystem(x: ChainState): Interleaving.System {
    Interleaving.System(x.world.services, x.world.pool, x.tasks, [])
  }

  ghost predicate OnlyUserBrings(tasks: seq<Task>, user: nat) {
    forall k :: 0 <= k < |tasks| && k != user && tasks[k].phase.Succeeded? ==> tasks[k].phase.upstream == None
  }

  ghost predicate AloneInv(w0: World, edges: seq<RegisteredEdge>, user: nat, x: ChainState) {
    && SameShape(w0.services, x.world.services)
    && |x.tasks| == |edges| && (forall k :: 0 <= k < |edges| ==> x.tasks[k].edge == edges[k])
    && OtherUsersStay(w0.services, x.world.services, edges, user)
    && (user < |edges| ==> Progress(w0.pool.net, w0.services, x.world.services, x.tasks[user]))
    && NoNewSharing(w0.services, x.world.services)
    && Interleaving.OneOwner(AsSystem(x)) && x.world.pool.net == w0.pool.net
    && OnlyUserBrings(x.tasks, user)
  }

  // ----- one step -----

  lemma AddChainShape(s: Services, n: Name, c: Client, now: nat)
    requires Unique(s)
    ensures SameShape(s, AddChain(s, n, c, now)) && Unique(AddChain(s, n, c, now))
    ensures c.proxy.None? ==> SameProxies(s, AddChain(s, n, c, now))
  {
    AddChainSpec(s, n, c, now);
    ShapeFacts(s, AddChain(s, n, c, now));
    var h := Holder(s, n, c);
    if h.Some? {
      PutEntries(s, AddChain(s, n, c, now), Link(c, n, h.value), Some(Tab(s, n, h.value)[c].AddActiveChain(now)));
    }
  }

  lemma AddClientShape(s: Services, n: Name, r: ReplicaId, c: Client, info: ClientInfo)
    requires Unique(s)
    ensures SameShape(s, AddClientToReplica(s, n, r, c, info)) && Unique(AddClientToReplica(s, n, r, c, info))
    ensures c.proxy.None? ==> SameProxies(s, AddClientToReplica(s, n, r, c, info))
  {
    AddClientSpec(s, n, r, c, info);
    ShapeFacts(s, AddClientToReplica(s, n, r, c, info));
    if HasRep(s, n, r) {
      PutEntries(s, AddClientToReplica(s, n, r, c, info), Link(c, n, r), Some(info));
    }
  }

  lemma RemoveKeepsShape(s: Services, n: Name, c: Client)
    requires Unique(s)
    ensures SameShape(s, RemoveClient(s, n, c))
    ensures c.proxy.None? ==> SameProxies(s, RemoveClient(s, n, c))
  {
    RemoveClientSpec(s, n, c);
    if Holder(s, n, c).Some? {
      PutEntries(s, RemoveClient(s, n, c), Link(c, n, Holder(s, n, c).value), None);
    }
  }

  lemma AdvanceShape(w: World, t: Task, ack: bool, now: nat)
    requires Unique(w.services)
    ensures var w', t' := Advance(w, t, ack, now).0, Advance(w, t, ack, now).1;
      && SameShape(w.services, w'.services) && t'.edge == t.edge && w'.pool.net == w.pool.net
      && (t.edge.client.proxy.None? ==> SameProxies(w.services, w'.services))
      && (t.edge.client.proxy.None? && !t.Done() && t'.phase.Succeeded? ==> t'.phase.upstream == None)
  {
    var e, s := t.edge, w.services;
    match t.phase
    case Start =>
      AddChainShape(s, e.server, e.client, now);
      AddClientShape(s, e.server, e.at, e.client, Placeholder(e.clientIp, now));
    case Allocated(id) =>
      var info := Committed(w.pool.net, e, id, now);
      var m := AddClientToReplica(s, e.server, e.at, e.client, info);
      AddClientShape(s, e.server, e.at, e.client, info);
      AddChainShape(m, e.server, e.client, now);
      ShapeTrans(s, m, AddChain(m, e.server, e.client, now));
    case Aborting => RemoveKeepsShape(s, e.server, e.client);
    case _ =>
  }

  /** The step of a service edge does not touch users. */
  lemma ServiceStep(w0: World, edges: seq<RegisteredEdge>, user: nat, x: ChainState, k: nat, ack: bool, now: nat)
    requires OneUser(w0.services, edges, user) && AloneInv(w0, edges, user, x) && k < |edges| && k != user
    ensures OtherUsersStay(w0.services, StepOf(x, k, ack, now).world.services, edges, user)
    ensures user < |edges| ==>
      Progress(w0.pool.net, w0.services, StepOf(x, k, ack, now).world.services, x.tasks[user])
  {
    AdvanceShape(x.world, x.tasks[k], ack, now);
    if user < |edges| {
      SameProgress(w0.pool.net, w0.services, x.world.services, StepOf(x, k, ack, now).world.services, x.tasks[user]);
    }
  }

  lemma UserHere(w0: World, edges: seq<RegisteredEdge>, user: nat, x: ChainState)
    requires OneUser(w0.services, edges, user) && AloneInv(w0, edges, user, x) && user < |edges|
    ensures Unique(x.world.services) && HasRep(x.world.services, edges[user].server, edges[user].at)
    ensures OnlyHere(x.world.services, edges[user]) && IsRegistered(x.world.services, edges[user].server)
  {
    var s, e := x.world.services, edges[user];
    ShapeFacts(w0.services, s);
    forall r | e.client in Tab(s, e.server, r) ensures r == e.at {
      var l := Link(e.client, e.server, r);
      assert r != e.at ==> Entry(s, l) == Entry(w0.services, l);
    }
  }

  ghost predicate UserMoved(w0: World, edges: seq<RegisteredEdge>, user: nat, x: ChainState, w: World, t: Task)
    requires user < |edges|
  {
    Moved(x.world.services, w.services, edges[user].Link())
    && t.edge == edges[user] && Progress(w0.pool.net, w0.services, w.services, t)
  }

  lemma ReservesFor(w0: World, e: RegisteredEdge, w: World, ack: bool, now: nat)
    requires Unique(w.services) && HasRep(w.services, e.server, e.at) && OnlyHere(w.services, e)
    requires Entry(w0.services, e.Link()).None? && Entry(w.services, e.Link()).None?
    ensures var (w', t') := Advance(w, Task(e, Start), ack, now);
      Moved(w.services, w'.services, e.Link()) && t'.edge == e && Progress(w0.pool.net, w0.services, w'.services, t')
  {
    HolderHere(w.services, e);
    ReserveSpec(w, e, ack, now);
    PutEntries(w.services, Advance(w, Task(e, Start), ack, now).0.services, e.Link(), Some(Placeholder(e.clientIp, now)));
  }

  lemma CommitsFor(w0: World, e: RegisteredEdge, w: World, id: nat, now: nat)
    requires Unique(w.services) && HasRep(w.services, e.server, e.at) && OnlyHere(w.services, e)
    requires Entry(w0.services, e.Link()).None? && w.pool.net == w0.pool.net
    requires MIN_NET_ID <= id <= MaxNetId(w.pool.net)
    ensures var (w', t') := Advance(w, Task(e, Allocated(id)), true, now);
      Moved(w.services, w'.services, e.Link()) && t'.edge == e && Progress(w0.pool.net, w0.services, w'.services, t')
  {
    Commits(w, e, id, now);
  }

  lemma AbortsFor(w0: World, e: RegisteredEdge, w: World, ack: bool, now: nat)
    requires Unique(w.services) && OnlyHere(w.services, e)
    requires Entry(w0.services, e.Link()).None? && e.client in Tab(w.services, e.server, e.at)
    ensures var (w', t') := Advance(w, Task(e, Aborting), ack, now);
      Moved(w.services, w'.services, e.Link()) && t'.edge == e && Progress(w0.pool.net, w0.services, w'.services, t')
  {
    AbortSpec(w, e, ack, now);
    PutEntries(w.services, Advance(w, Task(e, Aborting), ack, now).0.services, e.Link(), None);
  }

  /** The ID that the user's task holds is one of the pool's. */
  lemma UserIdIsReal(w0: World, edges: seq<RegisteredEdge>, user: nat, x: ChainState)
    requires AloneInv(w0, edges, user, x) && user < |edges| && x.tasks[user].phase.Allocated?
    ensures MIN_NET_ID <= x.tasks[user].phase.id <= MaxNetId(w0.pool.net)
  {
    assert AsSystem(x).tasks[user].HeldId() == x.tasks[user].phase.id;
    assert Interleaving.Proper(AsSystem(x).tasks[user]);
    assert Live(x.world.pool, x.tasks[user].phase.id);
  }

  lemma UserStep(w0: World, edges: seq<RegisteredEdge>, user: nat, x: ChainState, ack: bool, now: nat)
    requires OneUser(w0.services, edges, user) && AloneInv(w0, edges, user, x) && user < |edges|
    requires !x.tasks[user].Done()
    ensures UserMoved(w0, edges, user, x, Advance(x.world, x.tasks[user], ack, now).0, Advance(x.world, x.tasks[user], ack, now).1)
  {
    var e, t := edges[user], x.tasks[user];
    UserHere(w0, edges, user, x);
    assert Progress(w0.pool.net, w0.services, x.world.services, t) && Entry(w0.services, e.Link()).None?;
    match t.phase
    case Start => ReservesFor(w0, e, x.world, ack, now);
    case Reserved => AllocatedIsReal(x.world);
    case Aborting => AbortsFor(w0, e, x.world, ack, now);
    case Allocated(id) =>
      if ack {
        UserIdIsReal(w0, edges, user, x);
        CommitsFor(w0, e, x.world, id, now);
      }
  }

  lemma AllocatedIsReal(w: World)
    requires Valid(w.pool)
    ensures Allocate(w.pool).1.Some? ==> Allocate(w.pool).1.value >= MIN_NET_ID
  {
    AllocateSpec(w.pool);
  }

  lemma GainsNoSharing(a: Services, m: Services, b: Services, id: nat)
    requires NoNewSharing(a, m) && Interleaving.Gains(m, b, id)
    ensures NoNewSharing(a, b)
  {
  }

  lemma AloneOwns(x: ChainState, k: nat, ack: bool, now: nat)
    requires Interleaving.OneOwner(AsSystem(x)) && k < |x.tasks|
    ensures var y := StepOf(x, k, ack, now);
      && Interleaving.OneOwner(AsSystem(y))
      && Interleaving.Gains(x.world.services, y.world.services, x.tasks[k].HeldId())
  {
    Interleaving.TaskStepOwned(AsSystem(x), k, ack, now);
    DownsDoNotMatter(x.world, x.tasks[k], ack, now);
    assert AsSystem(StepOf(x, k, ack, now)) == Interleaving.TaskStep(AsSystem(x), k, ack, now);
  }

  lemma AloneStep(w0: World, edges: seq<RegisteredEdge>, user: nat, x: ChainState, y: ChainState, start: nat)
    requires OneUser(w0.services, edges, user) && AloneInv(w0, edges, user, x) && ChainStep(x, y, start)
    ensures AloneInv(w0, edges, user, y)
  {
    var k: nat, ack, now :| start <= now && k < |x.tasks| && !x.tasks[k].Done() && y == StepOf(x, k, ack, now);
    AloneOwns(x, k, ack, now);
    GainsNoSharing(w0.services, x.world.services, y.world.services, x.tasks[k].HeldId());
    AdvanceShape(x.world, x.tasks[k], ack, now);
    ShapeTrans(w0.services, x.world.services, y.world.services);
    if k == user {
      UserStep(w0, edges, user, x, ack, now);
      MovedEntries(x.world.services, y.world.services, edges[user].Link());
    } else {
      ServiceStep(w0, edges, user, x, k, ack, now);
    }
  }

  /** What a task does to the table and the pool does not depend on the log of networks taken down. */
  lemma DownsDoNotMatter(w: World, t: Task, ack: bool, now: nat)
    ensures var (a, t1) := Advance(w, t, ack, now);
      var (b, t2) := Advance(World(w.services, w.pool, []), t, ack, now);
      a.services == b.services && a.pool == b.pool && t1 == t2
  {
  }

  // ----- the whole setup -----

  lemma SpawnAlone(w: World, edges: seq<RegisteredEdge>, user: nat)
    requires Orderly(w) && OneUser(w.services, edges, user)
    ensures AloneInv(w, edges, user, ChainState(w, Spawn(edges)))
  {
  }

  lemma {:induction false} TraceAlone(w0: World, edges: seq<RegisteredEdge>, user: nat, trace: seq<ChainState>,
                                       start: nat)
    requires Orderly(w0) && OneUser(w0.services, edges, user)
    requires ChainTrace(trace, start) && trace[0] == ChainState(w0, Spawn(edges))
    ensures AloneInv(w0, edges, user, trace[|trace| - 1])
    decreases |trace|
  {
    if |trace| == 1 {
      SpawnAlone(w0, edges, user);
    } else {
      var before := trace[..|trace| - 1];
      TracePrefix(trace, start);
      TraceAlone(w0, edges, user, before, start);
      assert before[|before| - 1] == trace[|trace| - 2];
      AloneStep(w0, edges, user, trace[|trace| - 2], trace[|trace| - 1], start);
    }
  }

  lemma OnceMore(a: Services, b: Services, edges: seq<RegisteredEdge>, user: nat)
    requires ProxyOnce(a) && OneUser(a, edges, user) && OtherUsersStay(a, b, edges, user)
    ensures ProxyOnce(b)
  {
    forall n, c: Client, r, q | c.proxy.Some? && c in Tab(b, n, r) && c in Tab(b, n, q) ensures r == q {
      assert Entry(b, Link(c, n, r)).Some? && Entry(b, Link(c, n, q)).Some?;
      assert !IsUser(edges, user, Link(c, n, r)) ==> Entry(a, Link(c, n, r)).Some?;
      assert !IsUser(edges, user, Link(c, n, q)) ==> Entry(a, Link(c, n, q)).Some?;
    }
  }

  /** The user's edge when all tasks have ended. */
  lemma UserEnds(w0: World, edges: seq<RegisteredEdge>, user: nat, x: ChainState)
    requires OneUser(w0.services, edges, user) && AloneInv(w0, edges, user, x) && AllDone(x.tasks) && user < |edges|
    ensures var entry := Entry(x.world.services, edges[user].Link());
      if x.tasks[user].phase.Succeeded? then
        && entry.Some? && entry.value.activeChains == 1 && entry.value.serverNet != UNSPECIFIED
        && x.tasks[user].phase.upstream == Some(entry.value.serverNet)
      else entry.None?
  {
    assert x.tasks[user].Done() && Entry(w0.services, edges[user].Link()).None?;
    if x.tasks[user].phase.Succeeded? {
      MadeIsServed(w0.pool.net, edges[user], Entry(x.world.services, edges[user].Link()).value);
    }
  }

  lemma LastIsOrderly(w0: World, edges: seq<RegisteredEdge>, user: nat, x: ChainState)
    requires Orderly(w0) && OneUser(w0.services, edges, user) && AloneInv(w0, edges, user, x) && AllDone(x.tasks)
    ensures Orderly(x.world)
  {
    OnceMore(w0.services, x.world.services, edges, user);
    if user < |edges| {
      UserEnds(w0, edges, user, x);
    }
    forall l: Link | l.client.proxy.Some? && Entry(x.world.services, l).Some?
      ensures Entry(x.world.services, l).value.serverNet != UNSPECIFIED
    {
      assert !IsUser(edges, user, l) ==> Entry(x.world.services, l) == Entry(w0.services, l);
    }
  }

  /** The teardowns of a settled operation keep the state orderly. */
  lemma SettledOrderly(w: World, w': World, sent: seq<Down>)
    requires Orderly(w) && Settles(w, w', sent) && Unique(w'.services)
    ensures Orderly(w') && w'.pool.net == w.pool.net
  {
    ShrunkKeeps(w.services, w'.services);
    FreeAllLive(w.pool, sent);
    forall id: nat | Held(w'.services, id) ensures Live(w'.pool, id) {
      ShrunkHeld(w.services, w'.services, id);
    }
    forall l: Link | l.client.proxy.Some? && Entry(w'.services, l).Some?
      ensures Entry(w'.services, l).value.serverNet != UNSPECIFIED
    {
      assert Entry(w.services, l).Some? && SameNetwork(Entry(w.services, l).value, Entry(w'.services, l).value);
    }
  }

  // ----- rollback -----

  /** Each user among the edges has at most one chain. */
  ghost predicate OneEach(s: Services, edges: seq<(Client, Name)>) {
    forall e, r :: e in edges && e.0.proxy.Some? && Entry(s, Link(e.0, e.1, r)).Some? ==>
      Entry(s, Link(e.0, e.1, r)).value.activeChains <= 1
  }

  lemma DecrementUser(w: World, n: Name, c: Client)
    requires Unique(w.services) && ProxyOnce(w.services) && c.proxy.Some?
    requires forall r :: Entry(w.services, Link(c, n, r)).Some? ==>
      Entry(w.services, Link(c, n, r)).value.activeChains <= 1
    ensures var b := DecrementChain(w, n, c).services;
      forall l :: Entry(b, l) == if l.client == c && l.server == n then None else Entry(w.services, l)
  {
    DecrementSpec(w, n, c);
    UserOnce(w.services, n, c);
    var h := Holder(w.services, n, c);
    if h.Some? {
      assert Entry(w.services, Link(c, n, h.value)).Some?;
      PutEntries(w.services, DecrementChain(w, n, c).services, Link(c, n, h.value), None);
    }
  }

  lemma UserOnce(s: Services, n: Name, c: Client)
    requires Unique(s) && ProxyOnce(s) && c.proxy.Some?
    ensures forall l: Link :: l.client == c && l.server == n && Entry(s, l).Some? ==> Holder(s, n, c) == Some(l.at)
  {
    HolderSpec(s, n, c);
  }

  lemma DecrementOne(w: World, n: Name, c: Client)
    requires Unique(w.services) && ProxyOnce(w.services) && OneEach(w.services, [(c, n)])
    ensures forall l: Link :: l.client.proxy.Some? ==>
      Entry(DecrementChain(w, n, c).services, l) == if l.client == c && l.server == n then None else Entry(w.services, l)
    ensures Unique(DecrementChain(w, n, c).services) && ProxyOnce(DecrementChain(w, n, c).services)
  {
    assert (c, n) in [(c, n)];
    DecrementShrinks(w, n, c);
    ShrunkKeeps(w.services, DecrementChain(w, n, c).services);
    if c.proxy.Some? {
      DecrementUser(w, n, c);
    } else {
      DecrementKeepsProxies(w, n, c);
    }
  }

  /** The rollback removes the users among its edges and leaves all others alone. */
  lemma {:induction false} RollbackUsers(w: World, edges: seq<(Client, Name)>)
    requires Unique(w.services) && ProxyOnce(w.services) && OneEach(w.services, edges)
    ensures forall l: Link :: l.client.proxy.Some? ==>
      Entry(DecrementEdges(w, edges).services, l) == if (l.client, l.server) in edges then None else Entry(w.services, l)
    decreases |edges|
  {
    if edges != [] {
      var m := DecrementChain(w, edges[0].1, edges[0].0);
      assert edges[0] in edges;
      DecrementOne(w, edges[0].1, edges[0].0);
      forall e, r | e in edges[1..] && e.0.proxy.Some? && Entry(m.services, Link(e.0, e.1, r)).Some?
        ensures Entry(m.services, Link(e.0, e.1, r)).value.activeChains <= 1
      {
        assert e in edges;
      }
      RollbackUsers(m, edges[1..]);
      assert forall e :: e in edges <==> e == edges[0] || e in edges[1..];
    }
  }

  lemma {:induction false} EdgesAtHas(tasks: seq<Task>, order: seq<nat>, c: Client, n: Name)
    requires forall k: nat :: k in order ==> k < |tasks|
    ensures (c, n) in EdgesAt(tasks, order) <==>
      exists k :: k in order && tasks[k].edge.client == c && tasks[k].edge.server == n
  {
    if order != [] {
      var k0 := order[0];
      assert k0 in order && forall k: nat :: k in order <==> k == k0 || k in order[1..];
      EdgesAtHas(tasks, order[1..], c, n);
    }
  }

  lemma RollbackPrivate(w0: World, edges: seq<RegisteredEdge>, user: nat, x: ChainState, es: seq<(Client, Name)>)
    requires Orderly(w0) && OneUser(w0.services, edges, user) && AloneInv(w0, edges, user, x) && Orderly(x.world)
    requires forall e :: e in es && e.0.proxy.Some? ==>
      user < |edges| && e == (edges[user].client, edges[user].server)
    ensures Interleaving.AllPrivate(x.world.services, es)
  {
    var s := x.world.services;
    forall e, r | e in es ensures Private(s, Link(e.0, e.1, r)) {
      if e.0.proxy.None? {
        ServiceIsPrivate(s, e.1, e.0);
      } else {
        var l := Link(e.0, e.1, r);
        forall y | SameId(s, l, y) ensures y == l {
          assert Entry(w0.services, l).None?;
          assert l == y || SameId(w0.services, l, y);
        }
      }
    }
  }

  lemma UserEdgesOnly(edges: seq<RegisteredEdge>, user: nat, s: Services, tasks: seq<Task>, order: seq<nat>)
    requires OneUser(s, edges, user) && |tasks| == |edges| && forall k :: 0 <= k < |edges| ==> tasks[k].edge == edges[k]
    requires forall k: nat :: k in order ==> k < |tasks|
    ensures forall e :: e in EdgesAt(tasks, order) && e.0.proxy.Some? ==>
      user < |edges| && user in order && e == (edges[user].client, edges[user].server)
    ensures user < |edges| && user in order ==> (edges[user].client, edges[user].server) in EdgesAt(tasks, order)
  {
    forall e | e in EdgesAt(tasks, order) && e.0.proxy.Some?
      ensures user < |edges| && user in order && e == (edges[user].client, edges[user].server)
    {
      EdgesAtHas(tasks, order, e.0, e.1);
    }
    if user < |edges| && user in order {
      EdgesAtHas(tasks, order, edges[user].client, edges[user].server);
    }
  }

  /** What the setup did for the user of the chain. */
  ghost predicate UserOutcome(b: Services, edges: seq<RegisteredEdge>, user: nat, ok: bool)
    requires user < |edges|
  {
    var entry := Entry(b, edges[user].Link());
    if ok then entry.Some? && entry.value.serverNet != UNSPECIFIED else entry.None?
  }

  lemma RollbackIsOrderly(w0: World, edges: seq<RegisteredEdge>, user: nat, x: ChainState, order: seq<nat>)
    requires Orderly(w0) && OneUser(w0.services, edges, user) && AloneInv(w0, edges, user, x)
    requires AllDone(x.tasks) && Successful(x.tasks, order)
    ensures var w' := DecrementEdges(x.world, EdgesAt(x.tasks, order));
      && Orderly(w') && w'.pool.net == w0.pool.net && SameShape(w0.services, w'.services)
      && OtherUsersStay(w0.services, w'.services, edges, user)
      && (user < |edges| ==> UserOutcome(w'.services, edges, user, false))
  {
    var es := EdgesAt(x.tasks, order);
    var w' := DecrementEdges(x.world, es);
    LastIsOrderly(w0, edges, user, x);
    UserEdgesOnly(edges, user, w0.services, x.tasks, order);
    RollbackPrivate(w0, edges, user, x, es);
    var sent := Interleaving.RollbackSettles(x.world, es);
    SettledOrderly(x.world, w', sent);
    DecrementEdgesShape(x.world, es);
    ShapeTrans(w0.services, x.world.services, w'.services);
    RollbackGone(w0, edges, user, x, order);
  }

  lemma RollbackGone(w0: World, edges: seq<RegisteredEdge>, user: nat, x: ChainState, order: seq<nat>)
    requires Orderly(w0) && OneUser(w0.services, edges, user) && AloneInv(w0, edges, user, x) && Orderly(x.world)
    requires AllDone(x.tasks) && Successful(x.tasks, order)
    ensures var b := DecrementEdges(x.world, EdgesAt(x.tasks, order)).services;
      && OtherUsersStay(w0.services, b, edges, user)
      && (user < |edges| ==> UserOutcome(b, edges, user, false))
  {
    var es := EdgesAt(x.tasks, order);
    UserEdgesOnly(edges, user, w0.services, x.tasks, order);
    if user < |edges| {
      UserEnds(w0, edges, user, x);
      assert x.tasks[user].phase.Succeeded? <==> user in order;
    }
    forall e, r | e in es && e.0.proxy.Some? && Entry(x.world.services, Link(e.0, e.1, r)).Some?
      ensures Entry(x.world.services, Link(e.0, e.1, r)).value.activeChains <= 1
    {
      var l := Link(e.0, e.1, r);
      assert Entry(w0.services, l).None?;
      assert IsUser(edges, user, l);
    }
    RollbackUsers(x.world, es);
    var b := DecrementEdges(x.world, es).services;
    forall l: Link | l.client.proxy.Some? && !IsUser(edges, user, l) ensures Entry(b, l) == Entry(w0.services, l) {
      assert Entry(x.world.services, l) == Entry(w0.services, l);
    }
  }

  /**
   A chain setup that runs alone keeps the state orderly and the replicas as they are; no other user is touched, and
   the user of the chain is on its network if the setup succeeds and gone if it fails.
   */
  lemma AtomicChain(w: World, edges: seq<RegisteredEdge>, user: nat, start: nat, w': World, ok: bool,
                    upstream: Option<Ipv4>)
    requires Orderly(w) && OneUser(w.services, edges, user) && ChainSetupRel(w, edges, start, w', ok, upstream)
    ensures Orderly(w') && w'.pool.net == w.pool.net && SameShape(w.services, w'.services)
    ensures OtherUsersStay(w.services, w'.services, edges, user)
    ensures user < |edges| ==> UserOutcome(w'.services, edges, user, ok)
    ensures user < |edges| && ok ==> upstream == Some(Entry(w'.services, edges[user].Link()).value.serverNet)
  {
    var trace: seq<ChainState> :|
      && ChainTrace(trace, start)
      && trace[0] == ChainState(w, Spawn(edges))
      && AllDone(trace[|trace| - 1].tasks)
      && Concluded(trace[|trace| - 1], w', ok, upstream);
    var last := trace[|trace| - 1];
    TraceAlone(w, edges, user, trace, start);
    if ok {
      LastIsOrderly(w, edges, user, last);
      if user < |edges| {
        UserEnds(w, edges, user, last);
        assert Brings(last.tasks, Entry(w'.services, edges[user].Link()).value.serverNet);
      }
    } else {
      var order :| Successful(last.tasks, order) && w' == DecrementEdges(last.world, EdgesAt(last.tasks, order));
      RollbackIsOrderly(w, edges, user, last, order);
    }
  }
}
