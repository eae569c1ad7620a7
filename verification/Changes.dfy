/** Detecting and applying changes of the table (src/services/changes.rs:8-177, 553-698). */
module Changes {
  import opened Types
  import opened ServiceTable
  import opened Teardown

  datatype ServiceChange =
    | Removed(name: Name)
    | ProxyDepsChanged(name: Name)
    | TriggersChanged(name: Name)
    | ReachabilityChanged(name: Name)
    | ReplicasRemoved(name: Name, ip: Ip)
    | ReplicaRemoved(name: Name, at: ReplicaId)
    | ProxyDisconnected(ip: Ip)
    | ProxyClientTimedOut(name: Name, client: Client)

  // ----- what a change takes down -----

  predicate DepsContain(c: Config, other: Name) {
    other in c.proxyDeps || exists p :: p in c.triggers && other in c.triggers[p]
  }

  /** The service itself and the registered services that mention it. */
  function CleanupNames(s: Services, x: Name): set<Name> {
    set n | n in s && (n == x || (s[n].Registered? && DepsContain(s[n].config, x)))
  }

  function BackendOps(n: Name, reps: seq<Replica>, through: Option<Name>): seq<Op> {
    if reps == [] then []
    else BackendOps(n, reps[..|reps| - 1], through) + [BackendOp(n, reps[|reps| - 1].Id(), through)]
  }

  /** For each name: all its proxy chains, then its backend chains (only those through `x`, for the dependents). */
  function CleanupOps(s: Services, x: Name, order: seq<Name>): seq<Op> {
    if order == [] then []
    else
      var n := order[|order| - 1];
      CleanupOps(s, x, order[..|order| - 1]) + [ChainOp(n, All)]
      + BackendOps(n, Reps(s, n), if n == x then None else Some(x))
  }

  ghost predicate CleanupPlan(s: Services, x: Name, ops: seq<Op>) {
    exists order: seq<Name> :: Enumerates(order, CleanupNames(s, x)) && ops == CleanupOps(s, x, order)
  }

  predicate Selects(f: ProxyFilter, at: ReplicaId) {
    match f
    case OnIp(ip) => at.ip == ip
    case OnReplica(id) => at == id
    case _ => false
  }

  /** The service clients of the replicas that go. */
  function Affected(s: Services, n: Name, f: ProxyFilter): set<Client> {
    set i, c | 0 <= i < |Reps(s, n)| && c in Reps(s, n)[i].clients
               && Selects(f, Reps(s, n)[i].Id()) && c.proxy.None? :: c
  }

  function UpstreamOps(n: Name, affected: seq<Client>): seq<Op> {
    if affected == [] then []
    else
      var c := affected[|affected| - 1];
      UpstreamOps(n, affected[..|affected| - 1])
      + (if c.replica.Some? then [ChainOp(c.name, OnReplica(c.replica.value)), BackendOp(c.name, c.replica.value, Some(n))]
         else [])
  }

  ghost predicate PartialPlan(s: Services, n: Name, f: ProxyFilter, ops: seq<Op>) {
    exists affected: seq<Client> ::
      Covers(affected, Affected(s, n, f)) && ops == UpstreamOps(n, affected) + [ChainOp(n, f)]
  }

  function RepsOn(reps: seq<Replica>, ip: Ip): seq<Replica> {
    if reps == [] then []
    else RepsOn(reps[..|reps| - 1], ip) + (if reps[|reps| - 1].ip == ip then [reps[|reps| - 1]] else [])
  }

  predicate AllOnIp(s: Services, n: Name, ip: Ip) {
    n in s && s[n].Registered? && forall i :: 0 <= i < |Reps(s, n)| ==> Reps(s, n)[i].ip == ip
  }

  predicate OnlyOne(s: Services, n: Name) {
    |Reps(s, n)| == 1
  }

  function NamesOfProxy(s: Services, ip: Ip): set<Name> {
    set n, i, c | n in s && 0 <= i < |Reps(s, n)| && c in Reps(s, n)[i].clients && c.proxy == Some(ip) :: n
  }

  function ProxyOps(order: seq<Name>, ip: Ip): seq<Op> {
    if order == [] then []
    else ProxyOps(order[..|order| - 1], ip) + [ChainOp(order[|order| - 1], ByIp(ip))]
  }

  /** After `before`, the teardowns of a partial removal as planned at that moment; together they are `ops`. */
  ghost predicate ThenPartial(w: World, before: seq<Op>, n: Name, f: ProxyFilter, ops: seq<Op>, mid: World) {
    exists cut: World, partial ::
      && OpsRel(w, before, cut) && PartialPlan(cut.services, n, f, partial) && OpsRel(cut, partial, mid)
      && ops == before + partial
  }

  /** The teardowns that one change asks for when it is applied to `w`, and the world `mid` that they lead to. */
  ghost predicate Plan(w: World, change: ServiceChange, ops: seq<Op>, mid: World) {
    var s := w.services;
    match change
    case Removed(x) => CleanupPlan(s, x, ops)
    case ProxyDepsChanged(x) => CleanupPlan(s, x, ops)
    case TriggersChanged(n) => ops == BackendOps(n, Reps(s, n), None)
    case ReachabilityChanged(n) => ops == [ChainOp(n, All)] + BackendOps(n, Reps(s, n), None)
    case ReplicasRemoved(n, ip) =>
      if AllOnIp(s, n, ip) then CleanupPlan(s, n, ops)
      else ThenPartial(w, BackendOps(n, RepsOn(Reps(s, n), ip), None), n, OnIp(ip), ops, mid)
    case ReplicaRemoved(n, at) =>
      if OnlyOne(s, n) then CleanupPlan(s, n, ops)
      else ThenPartial(w, [BackendOp(n, at, None)], n, OnReplica(at), ops, mid)
    case ProxyDisconnected(ip) =>
      exists order: seq<Name> :: Enumerates(order, NamesOfProxy(s, ip)) && ops == ProxyOps(order, ip)
    case ProxyClientTimedOut(n, c) => ops == [ChainOp(n, ByClient(c))]
  }

  // ----- what a change leaves of the table -----

  function Unregister(s: Services, x: Name): Services {
    if x in s && s[x].Registered? then s[x := Unregistered(s[x].config)] else s
  }

  function DropReplicas(s: Services, n: Name, keep: ReplicaId -> bool): Services {
    if n in s then s[n := KeepReplicas(s[n], keep)] else s
  }

  /** `s0` is the table the change found, `s` the table after its teardowns. */
  function Finish(s0: Services, s: Services, change: ServiceChange): Services {
    match change
    case Removed(x) => Unregister(s, x) - {x}
    case ReplicasRemoved(n, ip) => if AllOnIp(s0, n, ip) then Unregister(s, n) else DropReplicas(s, n, OffIp(ip))
    case ReplicaRemoved(n, at) => if OnlyOne(s0, n) then Unregister(s, n) else DropReplicas(s, n, OtherThan(at))
    case _ => s
  }

  /** `teardown_invalidated_service`: the cascade, and the service itself if it failed. */
  ghost predicate CascadeRel(w: World, x: Name, failed: bool, w': World) {
    exists ops, mid: World :: CleanupPlan(w.services, x, ops) && OpsRel(w, ops, mid)
      && w' == if failed then mid.(services := Unregister(mid.services, x)) else mid
  }

  ghost predicate ChangeRel(w: World, change: ServiceChange, w': World) {
    exists ops, mid: World ::
      Plan(w, change, ops, mid) && OpsRel(w, ops, mid)
      && w' == mid.(services := Finish(w.services, mid.services, change))
  }

  ghost predicate ApplyRel(w: World, changes: seq<ServiceChange>, w': World)
    decreases |changes|
  {
    if changes == [] then w' == w
    else
      var before, last := changes[..|changes| - 1], changes[|changes| - 1];
      exists mid :: ApplyRel(w, before, mid) && ChangeRel(mid, last, w')
  }

  // ----- the four sources of changes -----

  predicate Expired(info: ClientInfo, timeout: nat, now: nat) {
    Since(now, info.latest) >= timeout * SECOND
  }

  ghost predicate HasExpired(s: Services, n: Name, c: Client, timeout: nat, now: nat) {
    c.proxy.Some? && exists r :: c in Tab(s, n, r) && Expired(Tab(s, n, r)[c], timeout, now)
  }

  /** A positive timeout that is new or shorter. */
  predicate Tightened(was: Option<nat>, loaded: Option<nat>) {
    was.Some? && loaded.Some? && loaded.value != was.value && loaded.value > 0
    && (was.value == 0 || loaded.value < was.value)
  }

  ghost predicate IsConfigChange(s: Services, loaded: Services, now: nat, change: ServiceChange) {
    match change
    case Removed(n) => n in s && n !in loaded
    case ProxyDepsChanged(n) => n in s && n in loaded && s[n].config.proxyDeps != loaded[n].config.proxyDeps
    case TriggersChanged(n) => n in s && n in loaded && s[n].config.triggers != loaded[n].config.triggers
    case ReachabilityChanged(n) =>
      n in s && n in loaded && s[n].config.timeout.Some? != loaded[n].config.timeout.Some?
    case ProxyClientTimedOut(n, c) =>
      && n in s && n in loaded && Tightened(s[n].config.timeout, loaded[n].config.timeout)
      && HasExpired(s, n, c, loaded[n].config.timeout.value, now)
    case _ => false
  }

  ghost predicate ConfigDetected(s: Services, loaded: Services, now: nat, changes: seq<ServiceChange>) {
    && (forall ch :: ch in changes ==> IsConfigChange(s, loaded, now, ch))
    && (forall ch :: IsConfigChange(s, loaded, now, ch) ==> ch in changes)
  }

  datatype Listed = Listed(name: Name, port: nat, docker: Option<string>)

  predicate IsListed(list: seq<Listed>, n: Name, docker: Option<string>) {
    exists i :: 0 <= i < |list| && list[i].name == n && list[i].docker == docker
  }

  function NoLongerListed(s: Services, ip: Ip, list: seq<Listed>): set<ServiceChange> {
    set n, i | n in s && 0 <= i < |Reps(s, n)| && Reps(s, n)[i].ip == ip && !IsListed(list, n, Reps(s, n)[i].docker)
             :: ReplicaRemoved(n, Reps(s, n)[i].Id())
  }

  function NamesOnIp(s: Services, ip: Ip): set<Name> {
    set n, i | n in s && 0 <= i < |Reps(s, n)| && Reps(s, n)[i].ip == ip :: n
  }

  function RemovalsOnIp(order: seq<Name>, ip: Ip): seq<ServiceChange> {
    seq(|order|, i requires 0 <= i < |order| => ReplicasRemoved(order[i], ip))
  }

  ghost predicate DisconnectDetected(s: Services, ip: Ip, changes: seq<ServiceChange>) {
    exists order: seq<Name> :: Enumerates(order, NamesOnIp(s, ip))
      && changes == RemovalsOnIp(order, ip) + (if NamesOfProxy(s, ip) != {} then [ProxyDisconnected(ip)] else [])
  }

  ghost predicate IsTimeout(s: Services, now: nat, change: ServiceChange) {
    change.ProxyClientTimedOut? && change.name in s
    && var timeout := s[change.name].config.timeout;
       timeout.Some? && timeout.value > 0 && HasExpired(s, change.name, change.client, timeout.value, now)
  }

  ghost predicate TimeoutsDetected(s: Services, now: nat, changes: seq<ServiceChange>) {
    && (forall ch :: ch in changes ==> IsTimeout(s, now, ch))
    && (forall ch :: IsTimeout(s, now, ch) ==> ch in changes)
  }

  // ----- the operations -----

  ghost predicate DisconnectRel(w: World, ip: Ip, w': World) {
    exists changes :: DisconnectDetected(w.services, ip, changes) && ApplyRel(w, changes, w')
  }

  ghost predicate TimeoutsRel(w: World, now: nat, w': World) {
    exists changes :: TimeoutsDetected(w.services, now, changes) && ApplyRel(w, changes, w')
  }

  /** Existing services take the loaded configuration, new ones are added as loaded. */
  function Merge(s: Services, loaded: Services): Services {
    map n | n in s.Keys + loaded.Keys ::
      if n !in loaded then s[n] else if n in s then s[n].(config := loaded[n].config) else loaded[n]
  }

  ghost predicate ReloadRel(w: World, loaded: Services, now: nat, w': World) {
    exists changes, mid: World :: ConfigDetected(w.services, loaded, now, changes) && ApplyRel(w, changes, mid)
      && w' == mid.(services := Merge(mid.services, loaded))
  }

  function AddListed(s: Services, ip: Ip, list: seq<Listed>): Services {
    if list == [] then s
    else
      var before, last := AddListed(s, ip, list[..|list| - 1]), list[|list| - 1];
      if last.name in before then
        before[last.name := AddReplica(before[last.name], ip, last.port, last.docker)]
      else before
  }

  ghost predicate ServicesListRel(w: World, ip: Ip, list: seq<Listed>, w': World) {
    exists changes: seq<ServiceChange>, mid: World ::
      Enumerates(changes, NoLongerListed(w.services, ip, list)) && ApplyRel(w, changes, mid)
      && w' == mid.(services := AddListed(mid.services, ip, list))
  }
}
