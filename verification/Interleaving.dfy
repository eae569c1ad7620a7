/**
 Ownership of network IDs when any number of edge setups run between teardowns, timeouts, disconnects,
 registrations and reloads, in every interleaving, as long as no network is shared (no `max_networks`).
 */
module Interleaving {
  import opened Types
  import opened NetIdPool
  import opened ServiceTable
  import opened Chains
  import opened Teardown
  import opened Changes
  import opened Reconcile
  import opened Settlement
  import opened Setup
  import opened Users

  /**
   The table is guarded by one lock and the pool by another. `pending` are the IDs that a critical section of the
   table has taken out of it and not yet given back to the pool.
   */
  datatype System = System(services: Services, pool: PoolState, tasks: seq<Task>, pending: seq<nat>)

  // ----- changes settle -----

  lemma ChangeSettles(w: World, change: ServiceChange, w': World) returns (sent: seq<Down>)
    requires Unique(w.services) && ProperlyShared(w.services) && ChangeRel(w, change, w')
    ensures Settles(w, w', sent) && Unique(w'.services)
  {
    var ops, mid: World :| Plan(w, change, ops, mid) && OpsRel(w, ops, mid)
      && w' == mid.(services := Finish(w.services, mid.services, change));
    sent := OpsSettle(w, ops, mid);
    OpsShape(w, ops, mid);
    ShapeFacts(w.services, mid.services);
    FinishShrinks(w.services, mid.services, change);
    SettlesIdle(mid, w'.services);
    SettlesTrans(w, mid, w', sent, []);
    assert sent + [] == sent;
  }

  lemma {:induction false} ApplySettles(w: World, changes: seq<ServiceChange>, w': World) returns (sent: seq<Down>)
    requires Unique(w.services) && ProperlyShared(w.services) && ApplyRel(w, changes, w')
    ensures Settles(w, w', sent) && Unique(w'.services)
    decreases |changes|
  {
    if changes == [] {
      sent := [];
      SameIsShrunk(w.services);
      SettlesIdle(w, w.services);
    } else {
      var before, last := changes[..|changes| - 1], changes[|changes| - 1];
      var mid :| ApplyRel(w, before, mid) && ChangeRel(mid, last, w');
      var a := ApplySettles(w, before, mid);
      ShrunkKeeps(w.services, mid.services);
      var b := ChangeSettles(mid, last, w');
      SettlesTrans(w, mid, w', a, b);
      sent := a + b;
    }
  }

  /** The clients of the edges share no network. */
  ghost predicate AllPrivate(s: Services, edges: seq<(Client, Name)>) {
    forall e, r :: e in edges ==> Private(s, Link(e.0, e.1, r))
  }

  lemma {:induction false} RollbackSettles(w: World, edges: seq<(Client, Name)>) returns (sent: seq<Down>)
    requires Unique(w.services) && AllPrivate(w.services, edges)
    ensures Settles(w, DecrementEdges(w, edges), sent) && NoLeak(w, DecrementEdges(w, edges), sent)
    ensures Unique(DecrementEdges(w, edges).services)
    decreases |edges|
  {
    if edges == [] {
      sent := [];
      SameIsShrunk(w.services);
      SettlesIdle(w, w.services);
    } else {
      var n, c := edges[0].1, edges[0].0;
      assert edges[0] in edges;
      var m := DecrementChain(w, n, c);
      var a := DecrementSettles(w, n, c);
      DecrementShape(w, n, c);
      ShapeFacts(w.services, m.services);
      forall e, r | e in edges[1..] ensures Private(m.services, Link(e.0, e.1, r)) {
        assert e in edges;
        ShrunkPrivate(w.services, m.services, Link(e.0, e.1, r));
      }
      var b := RollbackSettles(m, edges[1..]);
      SettlesTrans(w, m, DecrementEdges(w, edges), a, b);
      sent := a + b;
    }
  }

  // ----- steps -----

  datatype Section =
    | Rollback(edges: seq<(Client, Name)>)
    | Apply(changes: seq<ServiceChange>)          // disconnects, timeouts and the first half of the two below
    | Reload(changes: seq<ServiceChange>, loaded: Services)
    | Register(changes: seq<ServiceChange>, ip: Ip, list: seq<Listed>)
    | Refresh(name: Name, client: Client, now: nat)

  /** One critical section of the table. It reads nothing of the pool. */
  ghost predicate SectionRel(w: World, section: Section, w': World) {
    match section
    case Rollback(edges) => w' == DecrementEdges(w, edges)
    case Apply(changes) => ApplyRel(w, changes, w')
    case Reload(changes, loaded) =>
      FromFile(loaded) && exists mid: World ::
        ApplyRel(w, changes, mid) && w' == mid.(services := Merge(mid.services, loaded))
    case Register(changes, ip, list) =>
      exists mid: World :: ApplyRel(w, changes, mid) && w' == mid.(services := AddListed(mid.services, ip, list))
    case Refresh(n, c, now) => w' == w.(services := SetLatest(w.services, n, c, now))
  }

  function Ids(downs: seq<Down>): seq<nat> {
    seq(|downs|, i requires 0 <= i < |downs| => downs[i].netId)
  }

  ghost predicate SectionStep(a: System, section: Section, b: System) {
    exists w': World ::
      && SectionRel(World(a.services, a.pool, []), section, w')
      && b == a.(services := w'.services, pending := a.pending + Ids(w'.downs))
  }

  function TaskStep(a: System, k: nat, ack: bool, now: nat): System
    requires k < |a.tasks|
  {
    var (w, t) := Advance(World(a.services, a.pool, []), a.tasks[k], ack, now);
    System(w.services, w.pool, a.tasks[k := t], a.pending)
  }

  function FreeStep(a: System, k: nat): System
    requires k < |a.pending|
  {
    a.(pool := Free(a.pool, a.pending[k]), pending := a.pending[..k] + a.pending[k + 1..])
  }

  ghost predicate Step(a: System, b: System) {
    || (exists edges: seq<RegisteredEdge> :: AllSourced(edges) && b == a.(tasks := a.tasks + Spawn(edges)))
    || (exists k: nat, ack, now :: k < |a.tasks| && b == TaskStep(a, k, ack, now))
    || (exists section :: SectionStep(a, section, b))
    || (exists k: nat :: k < |a.pending| && b == FreeStep(a, k))
  }

  // ----- ownership -----

  /**
   Every ID has at most one owner (an entry, a task between allocation and commit, or a release under way), and what
   is owned is in use.
   */
  ghost predicate Owned(a: System) {
    Exclusive(a.services) && OneOwner(a)
  }

  ghost predicate OneOwner(a: System) {
    && Unique(a.services)
    && Valid(a.pool)
    && TasksOwn(a)
    && PendingOwned(a)
    && (forall id :: Held(a.services, id) ==> Live(a.pool, id))
  }

  ghost predicate TasksOwn(a: System) {
    (forall i :: 0 <= i < |a.tasks| ==> Proper(a.tasks[i])) &&
    forall i :: 0 <= i < |a.tasks| && a.tasks[i].HeldId() != 0 ==>
      && !Held(a.services, a.tasks[i].HeldId())
      && Live(a.pool, a.tasks[i].HeldId())
      && forall j :: 0 <= j < |a.tasks| && j != i ==> a.tasks[j].HeldId() != a.tasks[i].HeldId()
  }

  ghost predicate PendingOwned(a: System) {
    forall i :: 0 <= i < |a.pending| && a.pending[i] != 0 ==>
      && !Held(a.services, a.pending[i])
      && Live(a.pool, a.pending[i])
      && (forall j :: 0 <= j < |a.tasks| ==> a.tasks[j].HeldId() != a.pending[i])
      && (forall j :: 0 <= j < |a.pending| && j != i ==> a.pending[j] != a.pending[i])
  }

  lemma SectionSettles(w: World, section: Section, w': World) returns (sent: seq<Down>)
    requires Unique(w.services) && Exclusive(w.services) && SectionRel(w, section, w')
    ensures Unique(w'.services) && Exclusive(w'.services)
    ensures w'.downs == w.downs + sent
    ensures forall id :: Held(w'.services, id) ==> Held(w.services, id)
    ensures forall d :: d in sent && d.netId != 0 ==> Held(w.services, d.netId) && !Held(w'.services, d.netId)
    ensures forall i, j :: 0 <= i < j < |sent| && sent[i].netId != 0 ==> sent[i].netId != sent[j].netId
  {
    ExclusiveIsShared(w.services);
    match section
    case Rollback(edges) =>
      assert AllPrivate(w.services, edges);
      sent := RollbackSettles(w, edges);
      SettledIds(w, w', sent);
    case Apply(changes) =>
      sent := ApplySettles(w, changes, w');
      SettledIds(w, w', sent);
    case Reload(changes, loaded) =>
      var mid: World :| ApplyRel(w, changes, mid) && w' == mid.(services := Merge(mid.services, loaded));
      sent := ApplySettles(w, changes, mid);
      SettledIds(w, mid, sent);
      MergeReps(mid.services, loaded);
      SameEntries(mid.services, w'.services);
    case Register(changes, ip, list) =>
      var mid: World :| ApplyRel(w, changes, mid) && w' == mid.(services := AddListed(mid.services, ip, list));
      sent := ApplySettles(w, changes, mid);
      SettledIds(w, mid, sent);
      AddListedPorts(mid.services, ip, list);
      SameEntries(mid.services, w'.services);
    case Refresh(n, c, now) =>
      sent := [];
      SetLatestIds(w.services, n, c, now);
  }

  lemma SettledIds(w: World, w': World, sent: seq<Down>)
    requires Settles(w, w', sent) && Exclusive(w.services)
    ensures Exclusive(w'.services)
    ensures forall id :: Held(w'.services, id) ==> Held(w.services, id)
  {
    ShrunkKeeps(w.services, w'.services);
    forall id | Held(w'.services, id) ensures Held(w.services, id) {
      ShrunkHeld(w.services, w'.services, id);
    }
  }

  lemma MergeReps(s: Services, loaded: Services)
    requires Unique(s) && FromFile(loaded)
    ensures Unique(Merge(s, loaded)) && forall n :: Reps(Merge(s, loaded), n) == Reps(s, n)
  {
  }

  lemma SameEntries(a: Services, b: Services)
    requires forall n, r :: Tab(b, n, r) == Tab(a, n, r)
    ensures Exclusive(a) ==> Exclusive(b)
    ensures ProperlyShared(a) ==> ProperlyShared(b)
    ensures forall id :: Held(b, id) <==> Held(a, id)
    ensures forall l :: Entry(b, l) == Entry(a, l)
  {
    forall l ensures Entry(b, l) == Entry(a, l) {}
    forall x, y ensures SameId(b, x, y) <==> SameId(a, x, y) {}
    forall id ensures Held(b, id) <==> Held(a, id) {
      if Held(a, id) {
        var l :| Entry(a, l).Some? && Entry(a, l).value.netId == id;
        assert Entry(b, l).Some?;
      }
      if Held(b, id) {
        var l :| Entry(b, l).Some? && Entry(b, l).value.netId == id;
        assert Entry(a, l).Some?;
      }
    }
  }

  // ----- the steps of a task -----

  /** At most the network `id` comes into the table. */
  ghost predicate Gains(a: Services, b: Services, id: nat) {
    && Unique(b)
    && (forall x, y :: SameId(b, x, y) ==> x == y || SameId(a, x, y))
    && forall x :: Held(b, x) ==> Held(a, x) || x == id
  }

  lemma PutGains(a: Services, b: Services, l: Link, v: Option<ClientInfo>, id: nat)
    requires Unique(a) && Put(a, b, l, v)
    requires v.Some? ==> v.value.netId == id || (Entry(a, l).Some? && Entry(a, l).value.netId == v.value.netId)
    requires id != 0 ==> !Held(a, id)
    ensures Gains(a, b, id)
  {
    ShapeFacts(a, b);
    PutEntries(a, b, l, v);
    forall x | Held(b, x) ensures Held(a, x) || x == id {
      var m :| Entry(b, m).Some? && Entry(b, m).value.netId == x;
      if m != l {
        assert Entry(a, m).Some?;
      } else if v.value.netId != id {
        assert Entry(a, l).Some?;
      }
    }
    forall x, y | SameId(b, x, y) ensures x == y || SameId(a, x, y) {
      PutKeepsApart(a, b, l, v, id, x, y);
    }
  }

  lemma PutKeepsApart(a: Services, b: Services, l: Link, v: Option<ClientInfo>, id: nat, x: Link, y: Link)
    requires SameId(b, x, y) && Entry(b, l) == v
    requires forall m :: m != l ==> Entry(b, m) == Entry(a, m)
    requires v.Some? ==> v.value.netId == id || (Entry(a, l).Some? && Entry(a, l).value.netId == v.value.netId)
    requires id != 0 ==> !Held(a, id)
    ensures x == y || SameId(a, x, y)
  {
    if x != y && (x == l || y == l) {
      var other := if x == l then y else x;
      assert Entry(a, other).Some? && Entry(a, other) == Entry(b, other);
      assert v.value.netId == id ==> Held(a, id);
    }
  }

  lemma SameGains(s: Services)
    requires Unique(s)
    ensures Gains(s, s, 0)
  {
  }

  lemma SetLatestIds(s: Services, n: Name, c: Client, now: nat)
    requires Unique(s)
    ensures Gains(s, SetLatest(s, n, c, now), 0)
  {
    SetLatestSpec(s, n, c, now);
    if Holder(s, n, c).Some? {
      var r := Holder(s, n, c).value;
      PutGains(s, SetLatest(s, n, c, now), Link(c, n, r), Some(Tab(s, n, r)[c].(latest := now)), 0);
    }
  }

  lemma AddChainIds(s: Services, n: Name, c: Client, now: nat)
    requires Unique(s)
    ensures Gains(s, AddChain(s, n, c, now), 0)
  {
    AddChainSpec(s, n, c, now);
    if Holder(s, n, c).Some? {
      var r := Holder(s, n, c).value;
      PutGains(s, AddChain(s, n, c, now), Link(c, n, r), Some(Tab(s, n, r)[c].AddActiveChain(now)), 0);
    }
  }

  lemma AddClientIds(s: Services, n: Name, r: ReplicaId, c: Client, info: ClientInfo)
    requires Unique(s) && (info.netId != 0 ==> !Held(s, info.netId))
    ensures Gains(s, AddClientToReplica(s, n, r, c, info), info.netId)
  {
    AddClientSpec(s, n, r, c, info);
    if HasRep(s, n, r) {
      PutGains(s, AddClientToReplica(s, n, r, c, info), Link(c, n, r), Some(info), info.netId);
    }
  }

  lemma RemoveIds(s: Services, n: Name, c: Client)
    requires Unique(s)
    ensures Gains(s, RemoveClient(s, n, c), 0)
  {
    RemoveClientSpec(s, n, c);
    if Holder(s, n, c).Some? {
      PutGains(s, RemoveClient(s, n, c), Link(c, n, Holder(s, n, c).value), None, 0);
    }
  }

  lemma CommitIds(s: Services, e: RegisteredEdge, info: ClientInfo, now: nat)
    requires Unique(s) && info.netId != 0 && !Held(s, info.netId)
    ensures Gains(s, AddChain(AddClientToReplica(s, e.server, e.at, e.client, info), e.server, e.client, now), info.netId)
  {
    var m := AddClientToReplica(s, e.server, e.at, e.client, info);
    AddClientIds(s, e.server, e.at, e.client, info);
    AddChainIds(m, e.server, e.client, now);
  }

  /** The table, the pool and the ID a task holds, before and after one of its steps. */
  ghost predicate Moves(w: World, t: Task, w': World, t': Task) {
    var before, after := t.HeldId(), t'.HeldId();
    && Gains(w.services, w'.services, before)
    && Valid(w'.pool)
    && (after != 0 ==> w'.services == w.services && !Held(w.services, after) && Live(w'.pool, after))
    && (after != 0 && after != before ==> !Live(w.pool, after))
    && (forall id: nat :: Live(w.pool, id) && id != before ==> Live(w'.pool, id))
    && (before != 0 && Held(w'.services, before) ==> after == 0 && Live(w'.pool, before))
  }

  /** A task between allocation and commit holds a real ID. */
  ghost predicate Proper(t: Task) {
    t.phase.Allocated? || t.phase.Releasing? ==> t.HeldId() != 0
  }

  lemma AdvanceMoves(w: World, t: Task, ack: bool, now: nat)
    requires Unique(w.services) && Valid(w.pool) && Proper(t)
    requires t.HeldId() != 0 ==> !Held(w.services, t.HeldId()) && Live(w.pool, t.HeldId())
    requires forall id :: Held(w.services, id) ==> Live(w.pool, id)
    ensures Moves(w, t, Advance(w, t, ack, now).0, Advance(w, t, ack, now).1)
    ensures Proper(Advance(w, t, ack, now).1)
  {
    var e, s := t.edge, w.services;
    SameGains(s);
    match t.phase
    case Start =>
      AddChainIds(s, e.server, e.client, now);
      AddClientIds(s, e.server, e.at, e.client, Placeholder(e.clientIp, now));
    case Reserved => AllocateSpec(w.pool);
    case Allocated(id) =>
      FreeIsSoundIffIssued(w.pool, id);
      CommitIds(s, e, Committed(w.pool.net, e, id, now), now);
    case Releasing(id) => FreeIsSoundIffIssued(w.pool, id);
    case Aborting => RemoveIds(s, e.server, e.client);
    case Failed =>
    case Succeeded(_) =>
  }

  // ----- preservation -----

  lemma TaskStepOwned(a: System, k: nat, ack: bool, now: nat)
    requires OneOwner(a) && k < |a.tasks|
    ensures OneOwner(TaskStep(a, k, ack, now))
    ensures Gains(a.services, TaskStep(a, k, ack, now).services, a.tasks[k].HeldId())
  {
    var b := TaskStep(a, k, ack, now);
    var id := a.tasks[k].HeldId();
    AdvanceMoves(World(a.services, a.pool, []), a.tasks[k], ack, now);
    assert forall x :: Held(b.services, x) ==> Live(b.pool, x);
  }

  lemma SpawnOwned(a: System, edges: seq<RegisteredEdge>)
    requires Owned(a)
    ensures Owned(a.(tasks := a.tasks + Spawn(edges)))
  {
    var b := a.(tasks := a.tasks + Spawn(edges));
    forall i | |a.tasks| <= i < |b.tasks| ensures b.tasks[i].HeldId() == 0 && Proper(b.tasks[i]) {}
    forall i | 0 <= i < |a.tasks| ensures b.tasks[i] == a.tasks[i] {}
  }

  lemma SectionStepOwned(a: System, section: Section, b: System)
    requires Owned(a) && SectionStep(a, section, b)
    ensures Owned(b)
  {
    var w := World(a.services, a.pool, []);
    var w': World :| SectionRel(w, section, w')
      && b == a.(services := w'.services, pending := a.pending + Ids(w'.downs));
    var sent := SectionSettles(w, section, w');
    assert w'.downs == sent;
    PendingGrows(a, b, sent);
  }

  lemma PendingGrows(a: System, b: System, sent: seq<Down>)
    requires Owned(a) && b == a.(services := b.services, pending := a.pending + Ids(sent))
    requires Unique(b.services) && Exclusive(b.services)
    requires forall id :: Held(b.services, id) ==> Held(a.services, id)
    requires forall d :: d in sent && d.netId != 0 ==> Held(a.services, d.netId) && !Held(b.services, d.netId)
    requires forall i, j :: 0 <= i < j < |sent| && sent[i].netId != 0 ==> sent[i].netId != sent[j].netId
    ensures Owned(b)
  {
    var n := |a.pending|;
    forall i | n <= i < |b.pending| && b.pending[i] != 0
      ensures Held(a.services, b.pending[i]) && !Held(b.services, b.pending[i])
    {
      assert sent[i - n] in sent;
    }
    forall i, j | 0 <= i < |b.pending| && b.pending[i] != 0 && 0 <= j < |b.pending| && j != i
      ensures b.pending[j] != b.pending[i]
    {
      if i < n && j < n {
        assert a.pending[j] != a.pending[i];
      } else if n <= i && n <= j {
        assert sent[i - n].netId != sent[j - n].netId;
      }
    }
    forall i | 0 <= i < |b.pending| && b.pending[i] != 0
      ensures forall j :: 0 <= j < |b.tasks| ==> b.tasks[j].HeldId() != b.pending[i]
    {
      if i >= n {
        assert Held(a.services, b.pending[i]);
      } else {
        assert b.pending[i] == a.pending[i];
      }
    }
  }

  lemma FreeStepOwned(a: System, k: nat)
    requires Owned(a) && k < |a.pending|
    ensures Owned(FreeStep(a, k))
    ensures !Held(a.services, a.pending[k])
    ensures a.pending[k] != 0 ==> forall j :: 0 <= j < |a.tasks| ==> a.tasks[j].HeldId() != a.pending[k]
  {
    var b := FreeStep(a, k);
    var id := a.pending[k];
    FreeIsSoundIffIssued(a.pool, id);
    assert id == 0 ==> Free(a.pool, id) == a.pool;
    forall i | 0 <= i < |b.pending| ensures b.pending[i] == a.pending[if i < k then i else i + 1] {}
    assert !Held(a.services, 0);
  }

  lemma StepOwned(a: System, b: System)
    requires Owned(a) && Step(a, b)
    ensures Owned(b)
  {
    if edges: seq<RegisteredEdge> :| AllSourced(edges) && b == a.(tasks := a.tasks + Spawn(edges)) {
      SpawnOwned(a, edges);
    } else if k: nat, ack, now :| k < |a.tasks| && b == TaskStep(a, k, ack, now) {
      TaskStepOwned(a, k, ack, now);
      assert Exclusive(b.services);
    } else if section :| SectionStep(a, section, b) {
      SectionStepOwned(a, section, b);
    } else {
      var k: nat :| k < |a.pending| && b == FreeStep(a, k);
      FreeStepOwned(a, k);
    }
  }

  lemma FreshTable(loaded: Services)
    requires FromFile(loaded)
    ensures Unique(loaded) && Exclusive(loaded) && forall id :: !Held(loaded, id)
    ensures forall l :: Entry(loaded, l).None?
  {
    forall n, r ensures Tab(loaded, n, r) == map[] {}
  }

  ghost predicate Reachable(run: seq<System>) {
    && run != []
    && (exists net, loaded :: FromFile(loaded) && run[0] == System(loaded, Fresh(net), [], []))
    && forall i :: 0 < i < |run| ==> Step(run[i - 1], run[i])
  }

  lemma ShorterRun(run: seq<System>)
    requires Reachable(run) && |run| > 1
    ensures Reachable(run[..|run| - 1])
  {
    var before := run[..|run| - 1];
    assert before[0] == run[0];
    forall i | 0 < i < |before| ensures Step(before[i - 1], before[i]) {
      assert before[i - 1] == run[i - 1] && before[i] == run[i];
    }
  }

  /**
   In every interleaving no network ID has two owners, and whatever is owned is in use in the pool, so no ID is handed
   out that has an owner.
   */
  lemma {:induction false} IdsAreExclusive(run: seq<System>)
    requires Reachable(run)
    ensures forall i :: 0 <= i < |run| ==> Owned(run[i])
    decreases |run|
  {
    if |run| == 1 {
      var net, loaded :| FromFile(loaded) && run[0] == System(loaded, Fresh(net), [], []);
      FreshTable(loaded);
    } else {
      var before, last := run[..|run| - 1], |run| - 1;
      ShorterRun(run);
      IdsAreExclusive(before);
      assert before[last - 1] == run[last - 1];
      StepOwned(run[last - 1], run[last]);
      forall i | 0 <= i < |run| ensures Owned(run[i]) {
        assert i < last ==> before[i] == run[i];
      }
    }
  }

  // ----- an ID without an owner -----

  ghost predicate HasOwner(a: System, id: nat) {
    || Held(a.services, id)
    || (exists i :: 0 <= i < |a.tasks| && a.tasks[i].HeldId() == id)
    || id in a.pending
  }

  lemma CommittedIsHeld(w: World, e: RegisteredEdge, id: nat, now: nat)
    requires Unique(w.services) && id != 0 && !Held(w.services, id) && IsRegistered(w.services, e.server)
    ensures Held(Advance(w, Task(e, Allocated(id)), true, now).0.services, id) <==> HasRep(w.services, e.server, e.at)
  {
    var s, info := w.services, Committed(w.pool.net, e, id, now);
    var m := AddClientToReplica(s, e.server, e.at, e.client, info);
    AddClientSpec(s, e.server, e.at, e.client, info);
    AddChainKeepsHeld(m, e.server, e.client, now, id) by {
      AddClientIds(s, e.server, e.at, e.client, info);
    }
    if HasRep(s, e.server, e.at) {
      PutEntries(s, m, e.Link(), Some(info));
      assert Entry(m, e.Link()) == Some(info);
    }
  }

  lemma AddChainKeepsHeld(s: Services, n: Name, c: Client, now: nat, id: nat)
    requires Unique(s)
    ensures Held(AddChain(s, n, c, now), id) <==> Held(s, id)
  {
    var b := AddChain(s, n, c, now);
    AddChainIds(s, n, c, now);
    AddChainSpec(s, n, c, now);
    var h := Holder(s, n, c);
    if h.Some? && Held(s, id) {
      PutEntries(s, b, Link(c, n, h.value), Some(Tab(s, n, h.value)[c].AddActiveChain(now)));
      var l :| Entry(s, l).Some? && Entry(s, l).value.netId == id;
      assert Entry(b, l).Some? && Entry(b, l).value.netId == id;
    }
  }

  /**
   A commit always succeeds while the service is registered, and its ID stays in use; but the ID goes to an entry, and
   so has an owner, if and only if the replica is still there. Otherwise nothing will ever give it back
   (`OrphanStays`).
   */
  lemma CommitOwnsIffReplica(a: System, k: nat, now: nat)
    requires OneOwner(a) && k < |a.tasks| && a.tasks[k].phase.Allocated?
    requires IsRegistered(a.services, a.tasks[k].edge.server)
    ensures var b, e, id := TaskStep(a, k, true, now), a.tasks[k].edge, a.tasks[k].phase.id;
      && b.tasks[k].phase.Succeeded? && Live(b.pool, id)
      && (HasOwner(b, id) <==> HasRep(a.services, e.server, e.at))
      && (Held(b.services, id) <==> HasRep(a.services, e.server, e.at))
  {
    var b, t := TaskStep(a, k, true, now), a.tasks[k];
    var id := t.phase.id;
    assert Proper(t) && t.HeldId() == id;
    assert t == Task(t.edge, Allocated(id));
    CommittedIsHeld(World(a.services, a.pool, []), t.edge, id, now);
    forall i | 0 <= i < |b.tasks| ensures b.tasks[i].HeldId() != id {
      assert i != k ==> b.tasks[i] == a.tasks[i];
    }
  }

  lemma SectionOrphan(a: System, section: Section, b: System, id: nat)
    requires Owned(a) && SectionStep(a, section, b) && id != 0 && !HasOwner(a, id)
    ensures !HasOwner(b, id) && b.pool == a.pool
  {
    var w := World(a.services, a.pool, []);
    var w': World :| SectionRel(w, section, w')
      && b == a.(services := w'.services, pending := a.pending + Ids(w'.downs));
    var sent := SectionSettles(w, section, w');
    assert w'.downs == sent;
    PendingOrphan(a.pending, sent, id);
  }

  lemma PendingOrphan(pending: seq<nat>, sent: seq<Down>, id: nat)
    requires id !in pending && forall d :: d in sent ==> d.netId != id
    ensures id !in pending + Ids(sent)
  {
    forall i | 0 <= i < |sent| ensures Ids(sent)[i] != id {
      assert sent[i] in sent;
    }
  }

  lemma TaskOrphan(a: System, k: nat, ack: bool, now: nat, id: nat)
    requires Owned(a) && k < |a.tasks| && Live(a.pool, id) && !HasOwner(a, id)
    ensures Live(TaskStep(a, k, ack, now).pool, id) && !HasOwner(TaskStep(a, k, ack, now), id)
  {
    var b := TaskStep(a, k, ack, now);
    AdvanceMoves(World(a.services, a.pool, []), a.tasks[k], ack, now);
    assert a.tasks[k].HeldId() != id;
    forall i | 0 <= i < |b.tasks| ensures b.tasks[i].HeldId() != id {
      assert i != k ==> b.tasks[i] == a.tasks[i];
    }
  }

  lemma FreeOrphan(a: System, k: nat, id: nat)
    requires Owned(a) && k < |a.pending| && Live(a.pool, id) && !HasOwner(a, id)
    ensures Live(FreeStep(a, k).pool, id) && !HasOwner(FreeStep(a, k), id)
  {
    var b := FreeStep(a, k);
    assert a.pending[k] in a.pending;
    FreeIsSoundIffIssued(a.pool, a.pending[k]);
    forall i | 0 <= i < |b.pending| ensures b.pending[i] != id {
      assert b.pending[i] in a.pending;
    }
  }

  /** An ID that is in use and has no owner stays so, whatever happens. */
  lemma OrphanStays(a: System, b: System, id: nat)
    requires Owned(a) && Step(a, b) && Live(a.pool, id) && !HasOwner(a, id)
    ensures Live(b.pool, id) && !HasOwner(b, id)
  {
    if edges: seq<RegisteredEdge> :| AllSourced(edges) && b == a.(tasks := a.tasks + Spawn(edges)) {
      forall i | 0 <= i < |b.tasks| ensures b.tasks[i].HeldId() != id {
        assert i < |a.tasks| ==> b.tasks[i] == a.tasks[i];
      }
    } else if k: nat, ack, now :| k < |a.tasks| && b == TaskStep(a, k, ack, now) {
      TaskOrphan(a, k, ack, now, id);
    } else if section :| SectionStep(a, section, b) {
      SectionOrphan(a, section, b, id);
    } else {
      var k: nat :| k < |a.pending| && b == FreeStep(a, k);
      FreeOrphan(a, k, id);
    }
  }

  /**
   The chain counts have no such guarantee: of two setups of the same new edge, the second counts itself on the slot
   that the first reserved, and the commit of the first puts an entry with a count of its own over it.
   */
  lemma RaceLosesAChain(w: World, e: RegisteredEdge, now: nat)
    requires Unique(w.services) && HasRep(w.services, e.server, e.at) && Allocate(w.pool).1.Some?
    requires forall r :: e.client !in Tab(w.services, e.server, r)
    ensures var (w1, first) := Advance(w, Task(e, Start), true, now);
      var (w2, second) := Advance(w1, Task(e, Start), true, now);
      var (w3, first') := Advance(w2, first, true, now);
      var (w4, first'') := Advance(w3, first', true, now);
      && first''.phase.Succeeded? && second.phase.Succeeded?
      && Entry(w4.services, e.Link()).Some? && Entry(w4.services, e.Link()).value.activeChains == 1
  {
    HolderHere(w.services, e);
    ReserveSpec(w, e, true, now);
    var w1 := Advance(w, Task(e, Start), true, now).0;
    StaysHere(w.services, w1.services, e, Some(Placeholder(e.clientIp, now)));
    ReuseSpec(w1, e, true, now);
    var w2 := Advance(w1, Task(e, Start), true, now).0;
    StaysHere(w1.services, w2.services, e, Some(Tab(w1.services, e.server, e.at)[e.client].AddActiveChain(now)));
    var (w3, t3) := Advance(w2, Task(e, Reserved), true, now);
    CommitSpec(w3, e, t3.phase.id, now);
  }

  /**
   Nor is a service client kept on one replica: the setup of a dependency edge looks at the replica it leads to only,
   and so adds the client to a second one.
   */
  lemma ServiceClientSpreads(w: World, e: RegisteredEdge, other: ReplicaId, now: nat)
    requires Unique(w.services) && HasRep(w.services, e.server, e.at) && e.client.proxy.None? && other != e.at
    requires e.client in Tab(w.services, e.server, other) && e.client !in Tab(w.services, e.server, e.at)
    ensures var w' := Advance(w, Task(e, Start), true, now).0;
      e.client in Tab(w'.services, e.server, other) && e.client in Tab(w'.services, e.server, e.at)
  {
    ReserveSpec(w, e, true, now);
  }
}
