/**
 Taking chains down (src/services/changes.rs:181-551, src/orchestrator.rs:126-145).
 The order in which a hash map is visited is arbitrary, so an operation that visits one is a relation.
 */
module Teardown {
  import opened Types
  import opened NetIdPool
  import opened ServiceTable
  import opened Chains

  /** The shared table, the ID pool, and every network taken down so far. */
  datatype World = World(services: Services, pool: PoolState, downs: seq<Down>)

  /** `send_net_teardown`: tell both endpoints, then free the ID. */
  function SendTeardown(w: World, d: Down): World {
    w.(pool := Free(w.pool, d.netId), downs := w.downs + [d])
  }

  function DownOf(info: ClientInfo, at: ReplicaId): Down {
    Down(info.clientIp, info.docker, at.ip, at.docker, info.netId)
  }

  /** `decrement_chain`: one chain less through the client's entry; at zero the entry and its network go. */
  function DecrementChain(w: World, n: Name, c: Client): World {
    var s := w.services;
    var i := HolderIndex(Reps(s, n), c);
    if i == |Reps(s, n)| then w
    else
      var info := Reps(s, n)[i].clients[c].RemoveActiveChain();
      if info.activeChains == 0 then
        SendTeardown(w.(services := WithClients(s, n, i, Reps(s, n)[i].clients - {c})),
                     DownOf(info, Reps(s, n)[i].Id()))
      else w.(services := WithClients(s, n, i, Reps(s, n)[i].clients[c := info]))
  }

  function DecrementEdges(w: World, edges: seq<(Client, Name)>): World
    decreases |edges|
  {
    if edges == [] then w else DecrementEdges(DecrementChain(w, edges[0].1, edges[0].0), edges[1..])
  }

  lemma {:induction false} DecrementEdgesConcat(w: World, a: seq<(Client, Name)>, b: seq<(Client, Name)>)
    ensures DecrementEdges(w, a + b) == DecrementEdges(DecrementEdges(w, a), b)
    decreases |a|
  {
    if a == [] {
      assert a + b == b;
    } else {
      assert (a + b)[1..] == a[1..] + b;
      DecrementEdgesConcat(DecrementChain(w, a[0].1, a[0].0), a[1..], b);
    }
  }

  // ----- teardown_chain -----

  datatype ProxyFilter = All | ByIp(ip: Ip) | ByClient(client: Client) | OnReplica(id: ReplicaId) | OnIp(ip: Ip)

  predicate Matches(f: ProxyFilter, c: Client, at: ReplicaId) {
    c.proxy.Some? &&
    match f
    case All => true
    case ByIp(ip) => c.proxy == Some(ip)
    case ByClient(client) => c == client
    case OnReplica(id) => at == id
    case OnIp(ip) => at.ip == ip
  }

  datatype Target = Target(client: Client, info: ClientInfo, at: ReplicaId) {
    function Link(n: Name): Link { Types.Link.Link(client, n, at) }
  }

  /** The targets are the proxy clients of `n` that the filter matches, once each. */
  ghost predicate Collected(s: Services, n: Name, f: ProxyFilter, targets: seq<Target>) {
    && (forall t :: t in targets ==> Entry(s, t.Link(n)) == Some(t.info) && Matches(f, t.client, t.at))
    && (forall l: Link :: l.server == n && Entry(s, l).Some? && Matches(f, l.client, l.at) ==>
          Target(l.client, Entry(s, l).value, l.at) in targets)
    && (forall i, j :: 0 <= i < j < |targets| ==> targets[i].Link(n) != targets[j].Link(n))
  }

  ghost function TeardownDepChain(w: World, n: Name, at: ReplicaId): World
    requires Acyclic(w.services)
  {
    DecrementEdges(w, DepChainEdges(w.services, n, at))
  }

  lemma DecrementShape(w: World, n: Name, c: Client)
    ensures SameShape(w.services, DecrementChain(w, n, c).services)
  {
    var s := w.services;
    var i := HolderIndex(Reps(s, n), c);
    if i < |Reps(s, n)| {
      var info := Reps(s, n)[i].clients[c].RemoveActiveChain();
      WithClientsShape(s, n, i, Reps(s, n)[i].clients - {c});
      WithClientsShape(s, n, i, Reps(s, n)[i].clients[c := info]);
    }
  }

  lemma {:induction false} DecrementEdgesShape(w: World, edges: seq<(Client, Name)>)
    ensures SameShape(w.services, DecrementEdges(w, edges).services)
    decreases |edges|
  {
    if edges != [] {
      DecrementShape(w, edges[0].1, edges[0].0);
      DecrementEdgesShape(DecrementChain(w, edges[0].1, edges[0].0), edges[1..]);
    }
  }

  lemma ShapeKeepsAcyclic(a: Services, b: Services)
    requires Acyclic(a) && SameShape(a, b)
    ensures Acyclic(b)
  {
    ShapeFacts(a, b);
    AcyclicKept(a, b);
  }

  /** The walks from the targets end: there is none, or no service depends on itself. */
  ghost predicate Walkable(s: Services, targets: seq<Target>) {
    targets == [] || Acyclic(s)
  }

  ghost function TeardownDepChains(w: World, n: Name, targets: seq<Target>): World
    requires Walkable(w.services, targets)
    decreases |targets|
  {
    if targets == [] then w
    else
      var next := TeardownDepChain(w, n, targets[0].at);
      DecrementEdgesShape(w, DepChainEdges(w.services, n, targets[0].at));
      ShapeKeepsAcyclic(w.services, next.services);
      TeardownDepChains(next, n, targets[1..])
  }

  function RemoveTargets(s: Services, n: Name, targets: seq<Target>): Services
    decreases |targets|
  {
    if targets == [] then s else RemoveTargets(RemoveClient(s, n, targets[0].client), n, targets[1..])
  }

  ghost predicate HasNetId(s: Services, n: Name, id: nat) {
    exists l: Link :: l.server == n && Entry(s, l).Some? && Entry(s, l).value.netId == id
  }

  /** Each network of the targets once, unless a client of the service still uses it. */
  ghost function FreeUnshared(w: World, n: Name, targets: seq<Target>, seen: set<nat>): World
    decreases |targets|
  {
    if targets == [] then w
    else
      var id := targets[0].info.netId;
      var next := if id in seen || HasNetId(w.services, n, id) then w
                  else SendTeardown(w, DownOf(targets[0].info, targets[0].at));
      FreeUnshared(next, n, targets[1..], seen + {id})
  }

  ghost function TeardownChain(w: World, n: Name, targets: seq<Target>): World
    requires Walkable(w.services, targets)
  {
    var cut := TeardownDepChains(w, n, targets);
    FreeUnshared(cut.(services := RemoveTargets(cut.services, n, targets)), n, targets, {})
  }

  // ----- sequences of teardowns -----

  datatype Op =
    | ChainOp(name: Name, filter: ProxyFilter)                          // teardown_chain
    | BackendOp(name: Name, at: ReplicaId, through: Option<Name>)       // teardown_backend_chain

  ghost predicate OpRel(w: World, op: Op, w': World) {
    match op
    case ChainOp(n, f) =>
      exists targets :: Collected(w.services, n, f, targets) && Walkable(w.services, targets)
                        && w' == TeardownChain(w, n, targets)
    case BackendOp(n, at, through) =>
      exists edges :: BackendEdges(w.services, n, at, through, edges) && w' == DecrementEdges(w, edges)
  }

  ghost predicate OpsRel(w: World, ops: seq<Op>, w': World)
    decreases |ops|
  {
    if ops == [] then w' == w
    else
      var before, last := ops[..|ops| - 1], ops[|ops| - 1];
      exists mid :: OpsRel(w, before, mid) && OpRel(mid, last, w')
  }

  lemma OpsExtend(w: World, ops: seq<Op>, mid: World, op: Op, w': World)
    requires OpsRel(w, ops, mid) && OpRel(mid, op, w')
    ensures OpsRel(w, ops + [op], w')
  {
    assert (ops + [op])[..|ops + [op]| - 1] == ops;
  }

  lemma OpsLast(w: World, ops: seq<Op>, w': World) returns (mid: World)
    requires ops != [] && OpsRel(w, ops, w')
    ensures OpsRel(w, ops[..|ops| - 1], mid) && OpRel(mid, ops[|ops| - 1], w')
  {
    mid :| OpsRel(w, ops[..|ops| - 1], mid) && OpRel(mid, ops[|ops| - 1], w');
  }

  lemma Regroup(a: seq<Op>, b: seq<Op>)
    requires b != []
    ensures a + b[..|b| - 1] + [b[|b| - 1]] == a + b
  {
  }

  lemma {:induction false} OpsConcat(w: World, a: seq<Op>, m: World, b: seq<Op>, w': World)
    requires OpsRel(w, a, m) && OpsRel(m, b, w')
    ensures OpsRel(w, a + b, w')
    decreases |b|
  {
    if b == [] {
      assert a + b == a;
    } else {
      var mid := OpsLast(m, b, w');
      OpsConcat(w, a, m, b[..|b| - 1], mid);
      OpsExtend(w, a + b[..|b| - 1], mid, b[|b| - 1], w');
      Regroup(a, b);
    }
  }

  // ----- every operation keeps the shape -----

  lemma RemoveClientShape(s: Services, n: Name, c: Client)
    ensures SameShape(s, RemoveClient(s, n, c))
  {
    var i := HolderIndex(Reps(s, n), c);
    if i < |Reps(s, n)| {
      WithClientsShape(s, n, i, Reps(s, n)[i].clients - {c});
    }
  }

  lemma {:induction false} RemoveTargetsShape(s: Services, n: Name, targets: seq<Target>)
    ensures SameShape(s, RemoveTargets(s, n, targets))
    decreases |targets|
  {
    if targets != [] {
      RemoveClientShape(s, n, targets[0].client);
      RemoveTargetsShape(RemoveClient(s, n, targets[0].client), n, targets[1..]);
    }
  }

  lemma {:induction false} DepChainsShape(w: World, n: Name, targets: seq<Target>)
    requires Walkable(w.services, targets)
    ensures SameShape(w.services, TeardownDepChains(w, n, targets).services)
    decreases |targets|
  {
    if targets != [] {
      var next := TeardownDepChain(w, n, targets[0].at);
      DecrementEdgesShape(w, DepChainEdges(w.services, n, targets[0].at));
      ShapeKeepsAcyclic(w.services, next.services);
      DepChainsShape(next, n, targets[1..]);
    }
  }

  lemma {:induction false} FreeUnsharedTable(w: World, n: Name, targets: seq<Target>, seen: set<nat>)
    ensures FreeUnshared(w, n, targets, seen).services == w.services
    decreases |targets|
  {
    if targets != [] {
      var id := targets[0].info.netId;
      var next := if id in seen || HasNetId(w.services, n, id) then w
                  else SendTeardown(w, DownOf(targets[0].info, targets[0].at));
      FreeUnsharedTable(next, n, targets[1..], seen + {id});
    }
  }

  lemma OpShape(w: World, op: Op, w': World)
    requires OpRel(w, op, w')
    ensures SameShape(w.services, w'.services)
  {
    match op
    case ChainOp(n, f) =>
      var targets :| Collected(w.services, n, f, targets) && Walkable(w.services, targets)
        && w' == TeardownChain(w, n, targets);
      var cut := TeardownDepChains(w, n, targets);
      DepChainsShape(w, n, targets);
      RemoveTargetsShape(cut.services, n, targets);
      FreeUnsharedTable(cut.(services := RemoveTargets(cut.services, n, targets)), n, targets, {});
    case BackendOp(n, at, through) =>
      var edges :| BackendEdges(w.services, n, at, through, edges) && w' == DecrementEdges(w, edges);
      DecrementEdgesShape(w, edges);
  }

  lemma {:induction false} OpsShape(w: World, ops: seq<Op>, w': World)
    requires OpsRel(w, ops, w')
    ensures SameShape(w.services, w'.services)
    decreases |ops|
  {
    if ops != [] {
      var mid :| OpsRel(w, ops[..|ops| - 1], mid) && OpRel(mid, ops[|ops| - 1], w');
      OpsShape(w, ops[..|ops| - 1], mid);
      OpShape(mid, ops[|ops| - 1], w');
    }
  }
}
