/** Setting up the edges of a chain: every edge is a task of its own (src/nullnet_grpc_impl.rs:519-728). */
module Setup {
  import opened Types
  import opened NetIdPool
  import opened Net
  import opened ServiceTable
  import opened Chains
  import opened Teardown

  /** How far the setup of one edge has got; each change of phase is one critical section. */
  datatype Phase =
    | Start
    | Reserved                // the slot is reserved
    | Allocated(id: nat)      // an ID is held, the endpoints have been asked
    | Aborting                // the reserved slot is still to be removed
    | Releasing(id: nat)      // the service went away during the setup
    | Failed
    | Succeeded(upstream: Option<Ipv4>)   // the proxy edge that made its network knows the address to answer

  datatype Task = Task(edge: RegisteredEdge, phase: Phase) {
    predicate Done() { phase.Failed? || phase.Succeeded? }

    function HeldId(): nat {
      match phase
      case Allocated(id) => id
      case Releasing(id) => id
      case _ => 0
    }
  }

  predicate IsRegistered(s: Services, n: Name) {
    n in s && s[n].Registered?
  }

  /** Stickiness: a proxied user counts anywhere on the service, a service client only on this replica. */
  predicate AlreadySetup(s: Services, e: RegisteredEdge) {
    if e.client.proxy.Some? then Holder(s, e.server, e.client).Some? else e.client in Tab(s, e.server, e.at)
  }

  /** The setup calls for the two ends of an edge: the address each returns, and the message it sends. */
  function ServerCall(net: NetType, e: RegisteredEdge, id: nat): (Ipv4, NetMessage) {
    Setup(net, e.at.ip, None, id, e.clientIp, e.clientDocker, e.at.docker, None)
  }

  function ClientCall(net: NetType, e: RegisteredEdge, id: nat): (Ipv4, NetMessage) {
    Setup(net, e.clientIp, Some(e.server), id, e.at.ip, e.clientDocker, e.at.docker, e.entryPort)
  }

  /** The entry of a new network: both addresses are the ones the two setup calls return. */
  function Committed(net: NetType, e: RegisteredEdge, id: nat, now: nat): ClientInfo {
    ClientInfo(e.clientIp, ClientCall(net, e, id).0, ServerCall(net, e, id).0, id, 0, now, e.clientDocker)
  }

  /**
   Each end of an edge is told the ID, its own address and container, that of the other end, and which side it is; the
   client's end also the name of the server, with the address to reach it under, and the port that enters the chain.
   */
  lemma SetupTellsEachEnd(net: NetType, e: RegisteredEdge, id: nat)
    ensures var server, client := ServerCall(net, e, id).1, ClientCall(net, e, id).1;
      && server.localIp == client.remoteIp == e.at.ip && client.localIp == server.remoteIp == e.clientIp
      && server.hostMapping == None
      && client.hostMapping == Some(HostMapping(ServerCall(net, e, id).0, e.server))
      && ServerCall(net, e, id).0 == ClientCall(net, e, id).0
      && (net == Vlan ==> server.VlanSetup? && client.VlanSetup? && server.vlanId == client.vlanId == id)
      && (net == Vxlan ==>
            && server.VxlanSetup? && client.VxlanSetup? && server.vxlanId == client.vxlanId == id
            && server.side == ServerSide && server.docker == e.at.docker && server.dnatPort == None
            && client.side == ClientSide && client.docker == e.clientDocker && client.dnatPort == e.entryPort)
  {
  }

  function UpstreamOf(e: RegisteredEdge, info: ClientInfo): Option<Ipv4> {
    if e.client.proxy.Some? then Some(info.serverNet) else None
  }

  function EdgeDown(e: RegisteredEdge, id: nat): Down {
    Down(e.clientIp, e.clientDocker, e.at.ip, e.at.docker, id)
  }

  /** The next critical section of a task; `ack` says whether both endpoints answered. */
  function Advance(w: World, t: Task, ack: bool, now: nat): (World, Task) {
    var e, s := t.edge, w.services;
    match t.phase
    case Start =>
      if !IsRegistered(s, e.server) then (w, t.(phase := Failed))
      else if AlreadySetup(s, e) then
        (w.(services := AddChain(s, e.server, e.client, now)), t.(phase := Succeeded(None)))
      else
        (w.(services := AddClientToReplica(s, e.server, e.at, e.client, Placeholder(e.clientIp, now))),
         t.(phase := Reserved))
    case Reserved =>
      var (pool, got) := Allocate(w.pool);
      (w.(pool := pool), t.(phase := if got.Some? then Allocated(got.value) else Aborting))
    case Allocated(id) =>
      if !ack then (SendTeardown(w, EdgeDown(e, id)), t.(phase := Aborting))
      else if IsRegistered(s, e.server) then
        var info := Committed(w.pool.net, e, id, now);
        var added := AddClientToReplica(s, e.server, e.at, e.client, info);
        (w.(services := AddChain(added, e.server, e.client, now)), t.(phase := Succeeded(UpstreamOf(e, info))))
      else (w, t.(phase := Releasing(id)))
    case Releasing(id) => (SendTeardown(w, EdgeDown(e, id)), t.(phase := Failed))
    case Aborting => (w.(services := RemoveClient(s, e.server, e.client)), t.(phase := Failed))
    case Failed => (w, t)
    case Succeeded(_) => (w, t)
  }

  // ----- the steps of an edge whose replica exists and whose client is on no other replica -----

  ghost predicate OnlyHere(s: Services, e: RegisteredEdge) {
    forall r :: e.client in Tab(s, e.server, r) ==> r == e.at
  }

  lemma HolderHere(s: Services, e: RegisteredEdge)
    requires Unique(s) && OnlyHere(s, e)
    ensures Holder(s, e.server, e.client) == if e.client in Tab(s, e.server, e.at) then Some(e.at) else None
    ensures AlreadySetup(s, e) <==> e.client in Tab(s, e.server, e.at)
  {
    HolderSpec(s, e.server, e.client);
  }

  lemma StaysHere(s: Services, b: Services, e: RegisteredEdge, v: Option<ClientInfo>)
    requires Unique(s) && OnlyHere(s, e) && Put(s, b, e.Link(), v)
    ensures Unique(b) && OnlyHere(b, e)
    ensures HasRep(b, e.server, e.at) == HasRep(s, e.server, e.at)
  {
    ShapeFacts(s, b);
  }

  lemma PutTwice(a: Services, m: Services, b: Services, l: Link, u: ClientInfo, v: ClientInfo)
    requires Put(a, m, l, Some(u)) && Put(m, b, l, Some(v))
    ensures Put(a, b, l, Some(v))
  {
    assert Tab(a, l.server, l.at)[l.client := u][l.client := v] == Tab(a, l.server, l.at)[l.client := v];
  }

  lemma ReserveSpec(w: World, e: RegisteredEdge, ack: bool, now: nat)
    requires Unique(w.services) && HasRep(w.services, e.server, e.at) && !AlreadySetup(w.services, e)
    ensures var (w', t') := Advance(w, Task(e, Start), ack, now);
      && t' == Task(e, Reserved) && w' == w.(services := w'.services)
      && Put(w.services, w'.services, e.Link(), Some(Placeholder(e.clientIp, now)))
  {
    AddClientSpec(w.services, e.server, e.at, e.client, Placeholder(e.clientIp, now));
  }

  lemma ReuseSpec(w: World, e: RegisteredEdge, ack: bool, now: nat)
    requires Unique(w.services) && HasRep(w.services, e.server, e.at) && OnlyHere(w.services, e)
    requires e.client in Tab(w.services, e.server, e.at)
    ensures var (w', t') := Advance(w, Task(e, Start), ack, now);
      && t' == Task(e, Succeeded(None)) && w' == w.(services := w'.services)
      && Put(w.services, w'.services, e.Link(), Some(Tab(w.services, e.server, e.at)[e.client].AddActiveChain(now)))
  {
    HolderHere(w.services, e);
    AddChainSpec(w.services, e.server, e.client, now);
  }

  lemma CommitSpec(w: World, e: RegisteredEdge, id: nat, now: nat)
    requires Unique(w.services) && HasRep(w.services, e.server, e.at) && OnlyHere(w.services, e)
    ensures var (w', t') := Advance(w, Task(e, Allocated(id)), true, now);
      && t' == Task(e, Succeeded(UpstreamOf(e, Committed(w.pool.net, e, id, now)))) && w' == w.(services := w'.services)
      && Put(w.services, w'.services, e.Link(), Some(Committed(w.pool.net, e, id, now).AddActiveChain(now)))
  {
    var s, info := w.services, Committed(w.pool.net, e, id, now);
    var added := AddClientToReplica(s, e.server, e.at, e.client, info);
    AddClientSpec(s, e.server, e.at, e.client, info);
    StaysHere(s, added, e, Some(info));
    HolderHere(added, e);
    AddChainSpec(added, e.server, e.client, now);
    PutTwice(s, added, AddChain(added, e.server, e.client, now), e.Link(), info, info.AddActiveChain(now));
  }

  lemma AbortSpec(w: World, e: RegisteredEdge, ack: bool, now: nat)
    requires Unique(w.services) && OnlyHere(w.services, e)
    requires e.client in Tab(w.services, e.server, e.at)
    ensures var (w', t') := Advance(w, Task(e, Aborting), ack, now);
      && t' == Task(e, Failed) && w' == w.(services := w'.services)
      && Put(w.services, w'.services, e.Link(), None)
  {
    HolderHere(w.services, e);
    RemoveClientSpec(w.services, e.server, e.client);
  }

  // ----- one chain, alone -----

  datatype ChainState = ChainState(world: World, tasks: seq<Task>)

  function Spawn(edges: seq<RegisteredEdge>): seq<Task> {
    seq(|edges|, k requires 0 <= k < |edges| => Task(edges[k], Start))
  }

  /** One task, whichever, takes one step at or after `start`, with whatever answer of the endpoints. */
  ghost predicate ChainStep(x: ChainState, y: ChainState, start: nat) {
    exists k: nat, ack, now :: start <= now && k < |x.tasks| && !x.tasks[k].Done() && y == StepOf(x, k, ack, now)
  }

  function StepOf(x: ChainState, k: nat, ack: bool, now: nat): ChainState
    requires k < |x.tasks|
  {
    var (w, t) := Advance(x.world, x.tasks[k], ack, now);
    ChainState(w, x.tasks[k := t])
  }

  ghost predicate ChainTrace(trace: seq<ChainState>, start: nat) {
    && trace != []
    && forall i :: 0 < i < |trace| ==> ChainStep(trace[i - 1], trace[i], start)
  }

  lemma TracePrefix(trace: seq<ChainState>, start: nat)
    requires ChainTrace(trace, start) && |trace| > 1
    ensures ChainTrace(trace[..|trace| - 1], start)
    ensures ChainStep(trace[|trace| - 2], trace[|trace| - 1], start)
  {
    var before := trace[..|trace| - 1];
    forall i | 0 < i < |before| ensures ChainStep(before[i - 1], before[i], start) {
      assert ChainStep(trace[i - 1], trace[i], start);
    }
  }

  lemma TraceGrows(trace: seq<ChainState>, start: nat, k: nat, ack: bool, now: nat, y: ChainState)
    requires start <= now
    requires ChainTrace(trace, start) && k < |trace[|trace| - 1].tasks| && !trace[|trace| - 1].tasks[k].Done()
    requires y == StepOf(trace[|trace| - 1], k, ack, now)
    ensures ChainTrace(trace + [y], start)
  {
    assert ChainStep(trace[|trace| - 1], y, start);
    var longer := trace + [y];
    forall i | 0 < i < |longer| ensures ChainStep(longer[i - 1], longer[i], start) {
      if i < |trace| {
        assert longer[i - 1] == trace[i - 1] && longer[i] == trace[i];
      }
    }
  }

  ghost predicate AllDone(tasks: seq<Task>) {
    forall k :: 0 <= k < |tasks| ==> tasks[k].Done()
  }

  ghost predicate AllSucceeded(tasks: seq<Task>) {
    forall k :: 0 <= k < |tasks| ==> tasks[k].phase.Succeeded?
  }

  /** The finished edges, in any order. */
  ghost predicate Successful(tasks: seq<Task>, order: seq<nat>) {
    && (forall k: nat :: k in order <==> k < |tasks| && tasks[k].phase.Succeeded?)
    && (forall i, j :: 0 <= i < j < |order| ==> order[i] != order[j])
  }

  function EdgesAt(tasks: seq<Task>, order: seq<nat>): seq<(Client, Name)>
    requires forall k: nat :: k in order ==> k < |tasks|
  {
    if order == [] then []
    else
      var k := order[0];
      assert k in order && forall x: nat :: x in order[1..] ==> x in order;
      [(tasks[k].edge.client, tasks[k].edge.server)] + EdgesAt(tasks, order[1..])
  }

  /**
   `net_chain_setup`: all tasks run to their end; if one failed, the edges that succeeded are given back. The answer
   is the address that some finished edge brings along, if any does.
   */
  ghost predicate ChainSetupRel(w: World, edges: seq<RegisteredEdge>, start: nat, w': World, ok: bool,
                                upstream: Option<Ipv4>) {
    exists trace: seq<ChainState> ::
      && ChainTrace(trace, start)
      && trace[0] == ChainState(w, Spawn(edges))
      && AllDone(trace[|trace| - 1].tasks)
      && Concluded(trace[|trace| - 1], w', ok, upstream)
  }

  ghost predicate Brings(tasks: seq<Task>, upstream: Ipv4) {
    exists k :: 0 <= k < |tasks| && tasks[k].phase == Succeeded(Some(upstream))
  }

  ghost predicate Concluded(last: ChainState, w': World, ok: bool, upstream: Option<Ipv4>) {
    && ok == AllSucceeded(last.tasks)
    && (if ok then w' == last.world
        else exists order ::
          Successful(last.tasks, order) && w' == DecrementEdges(last.world, EdgesAt(last.tasks, order)))
    && (if upstream.Some? then ok && Brings(last.tasks, upstream.value)
        else ok ==> forall a :: !Brings(last.tasks, a))
  }
}
