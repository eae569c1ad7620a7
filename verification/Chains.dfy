/**
 How a chain of dependency edges is built (`build_linear_chain`, src/services/service_info.rs) and how the
 teardown finds its edges again (`collect_dep_chain_edges`, `collect_backend_chain_edges`, src/services/changes.rs).
 */
module Chains {
  import opened Types
  import opened ServiceTable

  /** An edge of a chain before its replicas are known to exist. */
  datatype Edge = Edge(from: Option<ReplicaId>, client: Client, server: Name, at: Option<ReplicaId>) {
    function IntoRegistered(): Option<RegisteredEdge> {
      if from.Some? && at.Some? then
        Some(RegisteredEdge(from.value.ip, from.value.docker, client, server, at.value, None))
      else None
    }
  }

  datatype RegisteredEdge = RegisteredEdge(
    clientIp: Ip, clientDocker: Option<string>, client: Client,
    server: Name, at: ReplicaId, entryPort: Option<nat>)
  {
    function Link(): Link { Types.Link.Link(client, server, at) }
  }

  /** Where a client is: at its proxy, or at its replica. */
  function SourceOf(c: Client): Option<ReplicaId> {
    if c.proxy.Some? then Some(ReplicaId(c.proxy.value, None)) else c.replica
  }

  /** The edge starts where its client is. */
  predicate Sourced(e: RegisteredEdge) {
    SourceOf(e.client) == Some(ReplicaId(e.clientIp, e.clientDocker))
  }

  ghost predicate AllSourced(edges: seq<RegisteredEdge>) {
    forall k :: 0 <= k < |edges| ==> Sourced(edges[k])
  }

  // ----- building -----

  function SourceClient(name: Name, at: Option<ReplicaId>): Client {
    if at.Some? then ServiceClient(name, at.value) else Client(name, None, None)
  }

  function BuildChain(s: Services, deps: seq<Name>, name: Name, at: Option<ReplicaId>): (chain: seq<Edge>) {
    if deps == [] then []
    else
      var next := PickReplica(s, deps[0]);
      [Edge(at, SourceClient(name, at), deps[0], next)] + BuildChain(s, deps[1..], deps[0], next)
  }

  lemma Assoc<T>(a: seq<T>, b: seq<T>, c: seq<T>)
    ensures (a + b) + c == a + (b + c)
  {
  }

  method BuildLinearChain(s: Services, deps: seq<Name>, name: Name, at: ReplicaId) returns (chain: seq<Edge>)
    ensures chain == BuildChain(s, deps, name, Some(at))
  {
    chain := [];
    var current: Option<ReplicaId> := Some(at);
    var currentName := name;
    for k := 0 to |deps|
      invariant chain + BuildChain(s, deps[k..], currentName, current) == BuildChain(s, deps, name, Some(at))
    {
      var next := PickReplica(s, deps[k]);
      var edge := Edge(current, SourceClient(currentName, current), deps[k], next);
      BuildChainStep(s, deps, k, currentName, current);
      Assoc(chain, [edge], BuildChain(s, deps[k + 1..], deps[k], next));
      chain := chain + [edge];
      current, currentName := next, deps[k];
    }
    assert deps[|deps|..] == [];
  }

  lemma BuildChainStep(s: Services, deps: seq<Name>, k: nat, name: Name, at: Option<ReplicaId>)
    requires k < |deps|
    ensures var next := PickReplica(s, deps[k]);
      BuildChain(s, deps[k..], name, at) ==
      [Edge(at, SourceClient(name, at), deps[k], next)] + BuildChain(s, deps[k + 1..], deps[k], next)
  {
    assert deps[k..][1..] == deps[k + 1..] && deps[k..][0] == deps[k];
  }

  /** `collect::<Result<_, _>>` over the edges: all of them registered, or nothing. */
  function AllRegistered(chain: seq<Edge>): Option<seq<RegisteredEdge>> {
    if chain == [] then Some([])
    else
      var head, rest := chain[0].IntoRegistered(), AllRegistered(chain[1..]);
      if head.Some? && rest.Some? then Some([head.value] + rest.value) else None
  }

  /** Every edge that the builder makes starts where its client is. */
  lemma {:induction false} BuiltAreSourced(s: Services, deps: seq<Name>, name: Name, at: Option<ReplicaId>)
    requires AllRegistered(BuildChain(s, deps, name, at)).Some?
    ensures AllSourced(AllRegistered(BuildChain(s, deps, name, at)).value)
    decreases |deps|
  {
    if deps != [] {
      var next := PickReplica(s, deps[0]);
      assert BuildChain(s, deps, name, at)[1..] == BuildChain(s, deps[1..], deps[0], next);
      BuiltAreSourced(s, deps[1..], deps[0], next);
    }
  }

  // ----- walking -----

  ghost predicate IsRanking(s: Services, rank: Name -> nat) {
    forall n, d :: n in s && d in Deps(s, n) ==> rank(d) < rank(n)
  }

  /** No service depends on itself through any number of steps. */
  ghost predicate Acyclic(s: Services) {
    exists rank: Name -> nat :: IsRanking(s, rank)
  }

  ghost function Rank(s: Services, n: Name): nat
    requires Acyclic(s)
  {
    var rank: Name -> nat :| IsRanking(s, rank);
    rank(n)
  }

  lemma RankDecreases(s: Services, n: Name, d: Name)
    requires Acyclic(s) && d in Deps(s, n)
    ensures Rank(s, d) < Rank(s, n)
  {
    var rank: Name -> nat :| IsRanking(s, rank) && Rank(s, n) == rank(n) && Rank(s, d) == rank(d);
  }

  /** One edge from the client to each name of the list. */
  function Level(c: Client, deps: seq<Name>): seq<(Client, Name)> {
    if deps == [] then [] else [(c, deps[0])] + Level(c, deps[1..])
  }

  /** The last name of the list that has an entry for the client, with the replica that holds it. */
  function LastHop(s: Services, c: Client, deps: seq<Name>): (hop: Option<(Name, ReplicaId)>)
    ensures hop.Some? ==> hop.value.0 in deps && Holder(s, hop.value.0, c) == Some(hop.value.1)
  {
    if deps == [] then None
    else if Holder(s, deps[|deps| - 1], c).Some? then
      Some((deps[|deps| - 1], Holder(s, deps[|deps| - 1], c).value))
    else LastHop(s, c, deps[..|deps| - 1])
  }

  /** What the teardown walk collects, starting from replica `at` of service `n`. */
  ghost function DepChainEdges(s: Services, n: Name, at: ReplicaId): seq<(Client, Name)>
    requires Acyclic(s)
    decreases Rank(s, n)
  {
    var c := ServiceClient(n, at);
    if Deps(s, n) == [] then []
    else
      match LastHop(s, c, Deps(s, n))
      case None => Level(c, Deps(s, n))
      case Some((d, r)) =>
        RankDecreases(s, n, d);
        Level(c, Deps(s, n)) + DepChainEdges(s, d, r)
  }

  method CollectDepChainEdges(s: Services, n: Name, at: ReplicaId) returns (edges: seq<(Client, Name)>)
    requires Acyclic(s)
    ensures edges == DepChainEdges(s, n, at)
  {
    edges := [];
    var currentName, current := n, at;
    while Deps(s, currentName) != []
      invariant edges + DepChainEdges(s, currentName, current) == DepChainEdges(s, n, at)
      decreases Rank(s, currentName)
    {
      var c := ServiceClient(currentName, current);
      var level, next := EmitLevel(s, c, Deps(s, currentName));
      WalkStep(s, currentName, current);
      if next.None? {
        return edges + level;
      }
      Assoc(edges, level, DepChainEdges(s, next.value.0, next.value.1));
      edges := edges + level;
      currentName, current := next.value.0, next.value.1;
    }
  }

  lemma WalkStep(s: Services, n: Name, at: ReplicaId)
    requires Acyclic(s) && Deps(s, n) != []
    ensures var c, hop := ServiceClient(n, at), LastHop(s, ServiceClient(n, at), Deps(s, n));
      if hop.None? then DepChainEdges(s, n, at) == Level(c, Deps(s, n))
      else Rank(s, hop.value.0) < Rank(s, n) &&
           DepChainEdges(s, n, at) == Level(c, Deps(s, n)) + DepChainEdges(s, hop.value.0, hop.value.1)
  {
    var hop := LastHop(s, ServiceClient(n, at), Deps(s, n));
    if hop.Some? {
      RankDecreases(s, n, hop.value.0);
    }
  }

  /** Emits an edge to every listed dependency and probes each for the next hop. */
  method EmitLevel(s: Services, c: Client, deps: seq<Name>)
    returns (edges: seq<(Client, Name)>, next: Option<(Name, ReplicaId)>)
    ensures edges == Level(c, deps) && next == LastHop(s, c, deps)
  {
    edges, next := [], None;
    for k := 0 to |deps|
      invariant edges == Level(c, deps[..k])
      invariant next == LastHop(s, c, deps[..k])
    {
      LevelAppend(c, deps[..k], deps[k]);
      assert deps[..k + 1] == deps[..k] + [deps[k]] && deps[..k + 1][..k] == deps[..k];
      edges := edges + [(c, deps[k])];
      var hop := Holder(s, deps[k], c);
      if hop.Some? {
        next := Some((deps[k], hop.value));
      }
    }
    assert deps[..|deps|] == deps;
  }

  lemma {:induction false} LevelAppend(c: Client, deps: seq<Name>, d: Name)
    ensures Level(c, deps + [d]) == Level(c, deps) + [(c, d)]
  {
    if deps == [] {
      assert [] + [d] == [d];
    } else {
      assert (deps + [d])[1..] == deps[1..] + [d];
      LevelAppend(c, deps[1..], d);
    }
  }

  /** One trigger chain, walked until an edge has no entry. */
  function TriggerWalk(s: Services, c: Client, chain: seq<Name>): seq<(Client, Name)>
    decreases |chain|
  {
    if chain == [] then []
    else
      var hop := Holder(s, chain[0], c);
      [(c, chain[0])] + (if hop.Some? then TriggerWalk(s, ServiceClient(chain[0], hop.value), chain[1..]) else [])
  }

  function Triggers(s: Services, n: Name): map<nat, seq<Name>> {
    if n in s then s[n].config.triggers else map[]
  }

  /** The edges of the trigger chains of one replica, taking the ports in the given order. */
  function TriggerEdges(s: Services, n: Name, at: ReplicaId, through: Option<Name>, ports: seq<nat>)
    : seq<(Client, Name)>
    requires forall p :: p in ports ==> p in Triggers(s, n)
  {
    if ports == [] then []
    else
      var chain := Triggers(s, n)[ports[0]];
      (if through.Some? && through.value !in chain then [] else TriggerWalk(s, ServiceClient(n, at), chain))
      + TriggerEdges(s, n, at, through, ports[1..])
  }

  ghost predicate BackendEdges(s: Services, n: Name, at: ReplicaId, through: Option<Name>, edges: seq<(Client, Name)>) {
    exists ports: seq<nat> :: Enumerates(ports, Triggers(s, n).Keys) && edges == TriggerEdges(s, n, at, through, ports)
  }

  method CollectBackendChainEdges(s: Services, n: Name, at: ReplicaId, through: Option<Name>)
    returns (edges: seq<(Client, Name)>)
    ensures BackendEdges(s, n, at, through, edges)
  {
    edges := [];
    var todo := Triggers(s, n).Keys;
    ghost var ports: seq<nat> := [];
    while todo != {}
      invariant todo <= Triggers(s, n).Keys
      invariant Enumerates(ports, Triggers(s, n).Keys - todo)
      invariant edges == TriggerEdges(s, n, at, through, ports)
    {
      var port :| port in todo;
      todo := todo - {port};
      TriggerEdgesAppend(s, n, at, through, ports, port);
      assert [port][1..] == [];
      ports := ports + [port];
      var chain := Triggers(s, n)[port];
      if through.None? || through.value in chain {
        var walk := WalkTrigger(s, ServiceClient(n, at), chain);
        edges := edges + walk;
      }
    }
    assert Triggers(s, n).Keys - {} == Triggers(s, n).Keys;
  }

  lemma TriggerWalkStep(s: Services, edges: seq<(Client, Name)>, c: Client, chain: seq<Name>, k: nat)
    requires k < |chain|
    ensures var hop, e := Holder(s, chain[k], c), (c, chain[k]);
      edges + TriggerWalk(s, c, chain[k..]) ==
        if hop.None? then edges + [e]
        else (edges + [e]) + TriggerWalk(s, ServiceClient(chain[k], hop.value), chain[k + 1..])
  {
    var hop, e := Holder(s, chain[k], c), (c, chain[k]);
    assert chain[k..][0] == chain[k] && chain[k..][1..] == chain[k + 1..];
    if hop.Some? {
      Assoc(edges, [e], TriggerWalk(s, ServiceClient(chain[k], hop.value), chain[k + 1..]));
    } else {
      assert [e] + [] == [e];
    }
  }

  method WalkTrigger(s: Services, start: Client, chain: seq<Name>) returns (edges: seq<(Client, Name)>)
    ensures edges == TriggerWalk(s, start, chain)
  {
    edges := [];
    var c, k := start, 0;
    assert chain[0..] == chain;
    while k < |chain|
      invariant k <= |chain|
      invariant edges + TriggerWalk(s, c, chain[k..]) == TriggerWalk(s, start, chain)
    {
      TriggerWalkStep(s, edges, c, chain, k);
      var hop := Holder(s, chain[k], c);
      edges := edges + [(c, chain[k])];
      if hop.None? {
        return;
      }
      c, k := ServiceClient(chain[k], hop.value), k + 1;
    }
    assert chain[|chain|..] == [];
  }

  lemma {:induction false} TriggerEdgesAppend(s: Services, n: Name, at: ReplicaId, through: Option<Name>,
                                              ports: seq<nat>, port: nat)
    requires forall p :: p in ports ==> p in Triggers(s, n)
    requires port in Triggers(s, n)
    ensures TriggerEdges(s, n, at, through, ports + [port]) ==
      TriggerEdges(s, n, at, through, ports) + TriggerEdges(s, n, at, through, [port])
  {
    if ports == [] {
      assert [] + [port] == [port];
    } else {
      var first, rest := [ports[0]], ports[1..];
      TriggerEdgesAppend(s, n, at, through, rest, port);
      assert (ports + [port])[1..] == rest + [port];
      TriggerEdgesSplit(s, n, at, through, ports);
      TriggerEdgesSplit(s, n, at, through, ports + [port]);
      Assoc(TriggerEdges(s, n, at, through, first), TriggerEdges(s, n, at, through, rest),
            TriggerEdges(s, n, at, through, [port]));
    }
  }

  lemma TriggerEdgesSplit(s: Services, n: Name, at: ReplicaId, through: Option<Name>, ports: seq<nat>)
    requires ports != [] && forall p :: p in ports ==> p in Triggers(s, n)
    ensures TriggerEdges(s, n, at, through, ports) ==
      TriggerEdges(s, n, at, through, [ports[0]]) + TriggerEdges(s, n, at, through, ports[1..])
  {
    assert [ports[0]][1..] == [];
  }

  /** Every edge of the chain has its entry, on the replica the builder chose, where the searches find it. */
  ghost predicate FullySetUp(s: Services, edges: seq<RegisteredEdge>) {
    forall k :: 0 <= k < |edges| ==> Holder(s, edges[k].server, edges[k].client) == Some(edges[k].at)
  }

  lemma StillSetUp(s: Services, edges: seq<RegisteredEdge>)
    requires edges != [] && FullySetUp(s, edges)
    ensures FullySetUp(s, edges[1..]) && Holder(s, edges[0].server, edges[0].client) == Some(edges[0].at)
  {
    forall k | 0 <= k < |edges[1..]| ensures edges[1..][k] == edges[k + 1] {}
  }

  /** The walk meets the edges, in order. */
  predicate Retraces(walk: seq<(Client, Name)>, built: seq<RegisteredEdge>) {
    |walk| == |built| && forall k :: 0 <= k < |built| ==> walk[k] == (built[k].client, built[k].server)
  }

  lemma RetracesOne(first: (Client, Name), walk: seq<(Client, Name)>, built: seq<RegisteredEdge>)
    requires built != [] && first == (built[0].client, built[0].server) && Retraces(walk, built[1..])
    ensures Retraces([first] + walk, built)
  {
    forall k | 0 < k < |built| ensures ([first] + walk)[k] == (built[k].client, built[k].server) {
      assert built[1..][k - 1] == built[k];
    }
  }

  /** The walk of a trigger chain that is fully set up meets exactly the edges that the builder makes, in order. */
  lemma {:induction false} TriggerWalkRetraces(s: Services, chain: seq<Name>, n: Name, at: ReplicaId)
    requires AllRegistered(BuildChain(s, chain, n, Some(at))).Some?
    requires FullySetUp(s, AllRegistered(BuildChain(s, chain, n, Some(at))).value)
    ensures Retraces(TriggerWalk(s, ServiceClient(n, at), chain), AllRegistered(BuildChain(s, chain, n, Some(at))).value)
    decreases |chain|
  {
    if chain != [] {
      var built, next := AllRegistered(BuildChain(s, chain, n, Some(at))).value, PickReplica(s, chain[0]);
      assert BuildChain(s, chain, n, Some(at))[1..] == BuildChain(s, chain[1..], chain[0], next);
      assert next.Some? && built[0].at == next.value;
      StillSetUp(s, built);
      TriggerWalkRetraces(s, chain[1..], chain[0], next.value);
      RetracesOne((ServiceClient(n, at), chain[0]), TriggerWalk(s, ServiceClient(chain[0], next.value), chain[1..]), built);
    }
  }

  // ----- termination does not depend on the clients -----

  /** `b` has no service beyond those of `a`, and the ones it keeps have the same dependencies. */
  ghost predicate SubConfig(a: Services, b: Services) {
    forall n :: n in b ==> n in a && Deps(b, n) == Deps(a, n)
  }

  lemma AcyclicKept(a: Services, b: Services)
    requires Acyclic(a) && SubConfig(a, b)
    ensures Acyclic(b)
  {
    var rank: Name -> nat :| IsRanking(a, rank);
    assert IsRanking(b, rank);
  }
}
