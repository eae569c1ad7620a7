/** Serving a proxy request (src/nullnet_grpc_impl.rs:107-371, src/services/service_info.rs:318-377). */
module Requests {
  import opened Types
  import opened ServiceTable
  import opened Chains
  import opened Teardown
  import opened Setup

  datatype Reason =
    | NotFound
    | NotAnEntryPoint
    | NotRegistered
    | NoReplicas
    | DependencyNotRegistered
    | SetupFailed
    | NoUpstream

  datatype Answer = Upstream(ip: Ipv4, port: nat) | Refused(reason: Reason)

  /** Who asks: user `name` behind the proxy `proxy`, for the service `service`. */
  datatype Request = Request(service: Name, proxy: Ip, name: Name) {
    function Client(): Client { ProxyClient(name, proxy) }
  }

  // ----- sharing a network -----

  function UserKeys(clients: map<Client, ClientInfo>): set<Client> {
    set c | c in clients && c.proxy.Some?
  }

  function ProxyClientsCount(reps: seq<Replica>): nat {
    if reps == [] then 0 else |UserKeys(reps[0].clients)| + ProxyClientsCount(reps[1..])
  }

  /** The entry belongs to a user of this proxy and has its network. */
  predicate Reusable(s: Services, n: Name, proxy: Ip, l: Link) {
    l.server == n && l.client.proxy == Some(proxy)
    && Entry(s, l).Some? && Entry(s, l).value.serverNet != UNSPECIFIED
  }

  /** `min_by_key` on the number of chains, over the replicas in their order: `l` is found before `m`. */
  predicate ComesFirst(s: Services, l: Link, m: Link)
    requires Entry(s, l).Some? && Entry(s, m).Some?
  {
    var x, y := Entry(s, l).value.activeChains, Entry(s, m).value.activeChains;
    x < y || (x == y && IndexOf(Reps(s, l.server), l.at) <= IndexOf(Reps(s, m.server), m.at))
  }

  /** The least used entry, on the first replica that has one. */
  ghost predicate LeastUsed(s: Services, n: Name, proxy: Ip, l: Link) {
    && Reusable(s, n, proxy, l)
    && forall m: Link :: Reusable(s, n, proxy, m) ==> ComesFirst(s, l, m)
  }

  ghost predicate MustShare(s: Services, n: Name, proxy: Ip) {
    && n in s && s[n].config.maxNetworks.Some?
    && ProxyClientsCount(Reps(s, n)) >= s[n].config.maxNetworks.value
    && exists l :: Reusable(s, n, proxy, l)
  }

  function AddChains(s: Services, edges: seq<(Client, Name)>, now: nat): Services
    decreases |edges|
  {
    if edges == [] then s else AddChains(AddChain(s, edges[0].1, edges[0].0, now), edges[1..], now)
  }

  /** The table with the new user on the network of the entry at `l`. */
  function Joined(s: Services, l: Link, c: Client, proxy: Ip, now: nat): Services
    requires Entry(s, l).Some?
  {
    var shared := Entry(s, l).value;
    var info := ClientInfo(proxy, shared.clientNet, shared.serverNet, shared.netId, 0, now, None);
    AddChain(AddClientToReplica(s, l.server, l.at, c, info), l.server, c, now)
  }

  ghost predicate ReuseRel(w: World, l: Link, c: Client, proxy: Ip, now: nat, w': World)
    requires Entry(w.services, l).Some?
  {
    var joined := Joined(w.services, l, c, proxy, now);
    Acyclic(joined)
    && w' == w.(services := AddChains(joined, DepChainEdges(joined, l.server, l.at), now))
  }

  // ----- a new chain -----

  function ProxyEdge(req: Request, at: ReplicaId): RegisteredEdge {
    RegisteredEdge(req.proxy, None, req.Client(), req.service, at, None)
  }

  /** The edges of the chain for the request, the proxy edge last; `None` if a dependency has no replica. */
  function ChainFor(s: Services, req: Request, at: ReplicaId): Option<seq<RegisteredEdge>> {
    var built := AllRegistered(BuildChain(s, Deps(s, req.service), req.service, Some(at)));
    if built.Some? then Some(built.value + [ProxyEdge(req, at)]) else None
  }

  ghost predicate NewChainRel(w: World, req: Request, now: nat, w': World, answer: Answer) {
    var s, at := w.services, PickReplica(w.services, req.service);
    if at.None? then w' == w && answer == Refused(NoReplicas)
    else
      var edges := ChainFor(s, req, at.value);
      if edges.None? then w' == w && answer == Refused(DependencyNotRegistered)
      else
        exists ok, upstream ::
          && ChainSetupRel(w, edges.value, now, w', ok, upstream)
          && answer == ChainAnswer(ok, upstream, Port(s, req.service, at.value))
  }

  function ChainAnswer(ok: bool, upstream: Option<Ipv4>, port: Option<nat>): Answer {
    if !ok then Refused(SetupFailed)
    else if upstream.None? || port.None? then Refused(NoUpstream)
    else Upstream(upstream.value, port.value)
  }

  // ----- the request -----

  function AnswerFrom(s: Services, n: Name, at: ReplicaId, info: ClientInfo): Answer {
    if Port(s, n, at).Some? then Upstream(info.serverNet, Port(s, n, at).value) else Refused(NoUpstream)
  }

  ghost predicate RequestRel(w: World, req: Request, now: nat, w': World, answer: Answer) {
    var s, n, c := w.services, req.service, req.Client();
    if n !in s then w' == w && answer == Refused(NotFound)
    else if s[n].config.timeout.None? then w' == w && answer == Refused(NotAnEntryPoint)
    else if s[n].Unregistered? then w' == w && answer == Refused(NotRegistered)
    else if Holder(s, n, c).Some? then
      var at := Holder(s, n, c).value;
      && w' == w.(services := SetLatest(s, n, c, now))
      && c in Tab(s, n, at) && answer == AnswerFrom(s, n, at, Tab(s, n, at)[c])
    else if MustShare(s, n, req.proxy) then
      exists l: Link ::
        && LeastUsed(s, n, req.proxy, l)
        && ReuseRel(w, l, c, req.proxy, now, w')
        && answer == AnswerFrom(s, n, l.at, Entry(s, l).value)
    else NewChainRel(w, req, now, w', answer)
  }

  ghost predicate HasHolder(s: Services, req: Request) {
    Holder(s, req.service, req.Client()).Some?
  }

  /** The answer is the server address of the network that the user is on, and the port of the replica behind it. */
  ghost predicate ServedAt(s: Services, req: Request, at: ReplicaId, ip: Ipv4, port: nat) {
    var p := Link(req.Client(), req.service, at);
    Entry(s, p).Some? && Entry(s, p).value.serverNet == ip && Port(s, req.service, at) == Some(port)
  }

  // ----- a backend trigger -----

  /** The first replica of the service on the host of the sender. */
  function ReplicaOn(reps: seq<Replica>, ip: Ip): Option<ReplicaId> {
    if reps == [] then None else if reps[0].ip == ip then Some(reps[0].Id()) else ReplicaOn(reps[1..], ip)
  }

  function TriggerChain(s: Services, n: Name, port: nat): seq<Name> {
    if port in Triggers(s, n) then Triggers(s, n)[port] else []
  }

  function TriggeredEdges(s: Services, n: Name, at: ReplicaId, port: nat): Option<seq<RegisteredEdge>> {
    var built := AllRegistered(BuildChain(s, TriggerChain(s, n, port), n, Some(at)));
    if built.Some? && built.value != [] then
      Some(built.value[0 := built.value[0].(entryPort := Some(port))])
    else None
  }

  /** `handle_backend_trigger`: the chain of the port is set up unless its first edge is already there. */
  ghost predicate TriggerRel(w: World, n: Name, port: nat, sender: Ip, now: nat, w': World) {
    var s := w.services;
    var at := ReplicaOn(Reps(s, n), sender);
    if n !in s || s[n].config.timeout.None? || s[n].Unregistered? || at.None? then w' == w
    else
      var chain := TriggerChain(s, n, port);
      if chain == [] || Holder(s, chain[0], ServiceClient(n, at.value)).Some? then w' == w
      else
        var edges := TriggeredEdges(s, n, at.value, port);
        if edges.None? then w' == w
        else exists ok, upstream :: ChainSetupRel(w, edges.value, now, w', ok, upstream)
  }
}
