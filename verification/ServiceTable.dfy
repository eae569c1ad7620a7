/** The table of services, its replicas and their clients (src/services/service_info.rs, clients.rs). */
module ServiceTable {
  import opened Types

  // ----- reading the table -----

  function Reps(s: Services, n: Name): seq<Replica> {
    if n in s && s[n].Registered? then s[n].replicas else []
  }

  function Deps(s: Services, n: Name): seq<Name> {
    if n in s then s[n].config.proxyDeps else []
  }

  predicate HasRep(s: Services, n: Name, r: ReplicaId) {
    exists i :: 0 <= i < |Reps(s, n)| && Reps(s, n)[i].Id() == r
  }

  function TabOf(reps: seq<Replica>, r: ReplicaId): map<Client, ClientInfo> {
    if reps == [] then map[] else if reps[0].Id() == r then reps[0].clients else TabOf(reps[1..], r)
  }

  /** The clients of one replica; empty when there is no such replica. */
  function Tab(s: Services, n: Name, r: ReplicaId): map<Client, ClientInfo> {
    TabOf(Reps(s, n), r)
  }

  function Entry(s: Services, l: Link): Option<ClientInfo> {
    if l.client in Tab(s, l.server, l.at) then Some(Tab(s, l.server, l.at)[l.client]) else None
  }

  function PortIn(reps: seq<Replica>, r: ReplicaId): Option<nat> {
    if reps == [] then None else if reps[0].Id() == r then Some(reps[0].port) else PortIn(reps[1..], r)
  }

  /** The port of a replica, `None` when the service has no such replica. */
  function Port(s: Services, n: Name, r: ReplicaId): Option<nat> {
    PortIn(Reps(s, n), r)
  }

  ghost predicate UniqueReps(reps: seq<Replica>) {
    forall i, j :: 0 <= i < j < |reps| ==> reps[i].Id() != reps[j].Id()
  }

  /** No service has two replicas of the same identity. */
  ghost predicate Unique(s: Services) {
    forall n :: n in s ==> UniqueReps(Reps(s, n))
  }

  /** Index of the first replica that holds the client, or the number of replicas. */
  function HolderIndex(reps: seq<Replica>, c: Client): (i: nat)
    ensures i <= |reps|
    ensures i < |reps| ==> c in reps[i].clients
    ensures forall j :: 0 <= j < i ==> c !in reps[j].clients
  {
    if reps == [] then 0 else if c in reps[0].clients then 0 else 1 + HolderIndex(reps[1..], c)
  }

  /** The replica that the searches "across replicas, first match" find. */
  function Holder(s: Services, n: Name, c: Client): Option<ReplicaId> {
    var i := HolderIndex(Reps(s, n), c);
    if i < |Reps(s, n)| then Some(Reps(s, n)[i].Id()) else None
  }

  lemma {:induction false} TabAt(reps: seq<Replica>, i: nat)
    requires UniqueReps(reps) && i < |reps|
    ensures TabOf(reps, reps[i].Id()) == reps[i].clients
    ensures PortIn(reps, reps[i].Id()) == Some(reps[i].port)
  {
    if i > 0 {
      TabAt(reps[1..], i - 1);
    }
  }

  lemma {:induction false} TabAbsent(reps: seq<Replica>, r: ReplicaId)
    requires forall i :: 0 <= i < |reps| ==> reps[i].Id() != r
    ensures TabOf(reps, r) == map[] && PortIn(reps, r) == None
  {
    if reps != [] {
      TabAbsent(reps[1..], r);
    }
  }

  lemma TabNeedsRep(s: Services, n: Name, r: ReplicaId)
    ensures !HasRep(s, n, r) ==> Tab(s, n, r) == map[] && Port(s, n, r) == None
  {
    if !HasRep(s, n, r) {
      TabAbsent(Reps(s, n), r);
    }
  }

  lemma EntryNeedsRep(s: Services, l: Link)
    requires Entry(s, l).Some?
    ensures HasRep(s, l.server, l.at) && l.server in s
  {
    TabNeedsRep(s, l.server, l.at);
  }

  lemma HolderSpec(s: Services, n: Name, c: Client)
    requires Unique(s)
    ensures Holder(s, n, c).None? ==> forall r :: c !in Tab(s, n, r)
    ensures Holder(s, n, c).Some? ==> HasRep(s, n, Holder(s, n, c).value) && c in Tab(s, n, Holder(s, n, c).value)
  {
    var reps := Reps(s, n);
    var i := HolderIndex(reps, c);
    if i < |reps| {
      TabAt(reps, i);
    } else {
      forall r ensures c !in Tab(s, n, r) {
        if HasRep(s, n, r) {
          var j :| 0 <= j < |reps| && reps[j].Id() == r;
          TabAt(reps, j);
        } else {
          TabNeedsRep(s, n, r);
        }
      }
    }
  }

  // ----- changing the clients of one replica -----

  /** Same services, configurations and replicas; only clients may differ. */
  ghost predicate SameShape(a: Services, b: Services) {
    && a.Keys == b.Keys
    && forall n :: n in a ==>
         && a[n].config == b[n].config
         && a[n].Registered? == b[n].Registered?
         && |Reps(a, n)| == |Reps(b, n)|
         && forall i :: 0 <= i < |Reps(a, n)| ==>
              Reps(a, n)[i].Id() == Reps(b, n)[i].Id() && Reps(a, n)[i].port == Reps(b, n)[i].port
  }

  lemma {:induction false} SamePorts(a: seq<Replica>, b: seq<Replica>, r: ReplicaId)
    requires |a| == |b|
    requires forall i :: 0 <= i < |a| ==> a[i].Id() == b[i].Id() && a[i].port == b[i].port
    ensures PortIn(a, r) == PortIn(b, r)
  {
    if a != [] {
      SamePorts(a[1..], b[1..], r);
    }
  }

  lemma ShapeTrans(a: Services, b: Services, c: Services)
    requires SameShape(a, b) && SameShape(b, c)
    ensures SameShape(a, c)
  {
  }

  lemma ShapeFacts(a: Services, b: Services)
    requires SameShape(a, b)
    ensures forall n :: Deps(a, n) == Deps(b, n)
    ensures forall n, r :: HasRep(a, n, r) == HasRep(b, n, r)
    ensures forall n, r :: Port(a, n, r) == Port(b, n, r)
    ensures Unique(a) ==> Unique(b)
  {
    forall n, r ensures HasRep(a, n, r) == HasRep(b, n, r) && Port(a, n, r) == Port(b, n, r) {
      SamePorts(Reps(a, n), Reps(b, n), r);
      assert |Reps(a, n)| == |Reps(b, n)|;
      forall i | 0 <= i < |Reps(a, n)| ensures Reps(a, n)[i].Id() == Reps(b, n)[i].Id() {
        assert n in a;
      }
    }
  }

  function WithClients(s: Services, n: Name, i: nat, m: map<Client, ClientInfo>): Services
    requires i < |Reps(s, n)|
  {
    s[n := s[n].(replicas := s[n].replicas[i := s[n].replicas[i].(clients := m)])]
  }

  lemma WithClientsShape(s: Services, n: Name, i: nat, m: map<Client, ClientInfo>)
    requires i < |Reps(s, n)|
    ensures SameShape(s, WithClients(s, n, i, m))
  {
  }

  /** Only the entry at `l` changed, to `v`. */
  ghost predicate Put(a: Services, b: Services, l: Link, v: Option<ClientInfo>) {
    && SameShape(a, b)
    && Tab(b, l.server, l.at) == (if v.Some? then Tab(a, l.server, l.at)[l.client := v.value]
                                  else Tab(a, l.server, l.at) - {l.client})
    && forall n, r :: (n != l.server || r != l.at) ==> Tab(b, n, r) == Tab(a, n, r)
  }

  lemma {:induction false} TabUpdate(reps: seq<Replica>, i: nat, m: map<Client, ClientInfo>, r: ReplicaId)
    requires UniqueReps(reps) && i < |reps|
    ensures TabOf(reps[i := reps[i].(clients := m)], r) == if r == reps[i].Id() then m else TabOf(reps, r)
  {
    var after := reps[i := reps[i].(clients := m)];
    if i > 0 {
      assert after[1..] == reps[1..][i - 1 := reps[1..][i - 1].(clients := m)];
      TabUpdate(reps[1..], i - 1, m, r);
    }
  }

  lemma WithClientsSpec(s: Services, n: Name, i: nat, m: map<Client, ClientInfo>)
    requires Unique(s) && i < |Reps(s, n)|
    ensures SameShape(s, WithClients(s, n, i, m))
    ensures Tab(WithClients(s, n, i, m), n, Reps(s, n)[i].Id()) == m
    ensures Tab(s, n, Reps(s, n)[i].Id()) == Reps(s, n)[i].clients
    ensures forall n', r :: (n' != n || r != Reps(s, n)[i].Id()) ==>
      Tab(WithClients(s, n, i, m), n', r) == Tab(s, n', r)
  {
    var b := WithClients(s, n, i, m);
    WithClientsShape(s, n, i, m);
    TabAt(Reps(s, n), i);
    forall n', r ensures Tab(b, n', r) == if n' == n && r == Reps(s, n)[i].Id() then m else Tab(s, n', r) {
      TabUpdate(Reps(s, n), i, m, r);
    }
  }

  lemma PutSpec(s: Services, n: Name, i: nat, c: Client, v: Option<ClientInfo>)
    requires Unique(s) && i < |Reps(s, n)|
    ensures Tab(s, n, Reps(s, n)[i].Id()) == Reps(s, n)[i].clients
    ensures var m := Reps(s, n)[i].clients;
      Put(s, WithClients(s, n, i, if v.Some? then m[c := v.value] else m - {c}), Link(c, n, Reps(s, n)[i].Id()), v)
  {
    var m := Reps(s, n)[i].clients;
    WithClientsSpec(s, n, i, if v.Some? then m[c := v.value] else m - {c});
  }

  /** `add_chain`: one more chain through the first entry of the client. */
  function AddChain(s: Services, n: Name, c: Client, now: nat): Services {
    var i := HolderIndex(Reps(s, n), c);
    if i < |Reps(s, n)| then
      WithClients(s, n, i, Reps(s, n)[i].clients[c := Reps(s, n)[i].clients[c].AddActiveChain(now)])
    else s
  }

  function SetLatest(s: Services, n: Name, c: Client, now: nat): Services {
    var i := HolderIndex(Reps(s, n), c);
    if i < |Reps(s, n)| then
      WithClients(s, n, i, Reps(s, n)[i].clients[c := Reps(s, n)[i].clients[c].(latest := now)])
    else s
  }

  function RemoveClient(s: Services, n: Name, c: Client): Services {
    var i := HolderIndex(Reps(s, n), c);
    if i < |Reps(s, n)| then WithClients(s, n, i, Reps(s, n)[i].clients - {c}) else s
  }

  function IndexOf(reps: seq<Replica>, r: ReplicaId): (i: nat)
    ensures i <= |reps|
    ensures i < |reps| ==> reps[i].Id() == r
    ensures forall j :: 0 <= j < i ==> reps[j].Id() != r
  {
    if reps == [] then 0 else if reps[0].Id() == r then 0 else 1 + IndexOf(reps[1..], r)
  }

  function AddClientToReplica(s: Services, n: Name, r: ReplicaId, c: Client, info: ClientInfo): Services {
    var i := IndexOf(Reps(s, n), r);
    if i < |Reps(s, n)| then WithClients(s, n, i, Reps(s, n)[i].clients[c := info]) else s
  }

  lemma AddChainSpec(s: Services, n: Name, c: Client, now: nat)
    requires Unique(s)
    ensures match Holder(s, n, c)
      case None => AddChain(s, n, c, now) == s
      case Some(r) => c in Tab(s, n, r) && var info := Tab(s, n, r)[c];
        Put(s, AddChain(s, n, c, now), Link(c, n, r), Some(info.AddActiveChain(now)))
  {
    var i := HolderIndex(Reps(s, n), c);
    if i < |Reps(s, n)| {
      PutSpec(s, n, i, c, Some(Reps(s, n)[i].clients[c].AddActiveChain(now)));
    }
  }

  lemma SetLatestSpec(s: Services, n: Name, c: Client, now: nat)
    requires Unique(s)
    ensures match Holder(s, n, c)
      case None => SetLatest(s, n, c, now) == s
      case Some(r) => c in Tab(s, n, r) && var info := Tab(s, n, r)[c];
        Put(s, SetLatest(s, n, c, now), Link(c, n, r), Some(info.(latest := now)))
  {
    var i := HolderIndex(Reps(s, n), c);
    if i < |Reps(s, n)| {
      PutSpec(s, n, i, c, Some(Reps(s, n)[i].clients[c].(latest := now)));
    }
  }

  lemma RemoveClientSpec(s: Services, n: Name, c: Client)
    requires Unique(s)
    ensures match Holder(s, n, c)
      case None => RemoveClient(s, n, c) == s
      case Some(r) => c in Tab(s, n, r) && Put(s, RemoveClient(s, n, c), Link(c, n, r), None)
  {
    var i := HolderIndex(Reps(s, n), c);
    if i < |Reps(s, n)| {
      PutSpec(s, n, i, c, None);
    }
  }

  lemma AddClientSpec(s: Services, n: Name, r: ReplicaId, c: Client, info: ClientInfo)
    requires Unique(s)
    ensures if HasRep(s, n, r) then Put(s, AddClientToReplica(s, n, r, c, info), Link(c, n, r), Some(info))
            else AddClientToReplica(s, n, r, c, info) == s
  {
    var i := IndexOf(Reps(s, n), r);
    if i < |Reps(s, n)| {
      PutSpec(s, n, i, c, Some(info));
    }
  }

  // ----- choosing a replica -----

  /** `min_by_key` on the number of clients: the first replica with the fewest. */
  function LeastClients(reps: seq<Replica>): (i: nat)
    requires reps != []
    ensures i < |reps|
    ensures forall j :: 0 <= j < |reps| ==> |reps[i].clients| <= |reps[j].clients|
    ensures forall j :: 0 <= j < i ==> |reps[i].clients| < |reps[j].clients|
  {
    if |reps| == 1 then 0
    else
      var best := LeastClients(reps[..|reps| - 1]);
      if |reps[|reps| - 1].clients| < |reps[best].clients| then |reps| - 1 else best
  }

  function PickReplica(s: Services, n: Name): Option<ReplicaId> {
    if Reps(s, n) == [] then None else Some(Reps(s, n)[LeastClients(Reps(s, n))].Id())
  }

  /** The replica of a service that has at most one. */
  function Sole(s: Services, n: Name): ReplicaId {
    if Reps(s, n) == [] then ReplicaId(0, None) else Reps(s, n)[0].Id()
  }

  // ----- changing the replicas of a service -----

  /** `add_replica`: register, or change the port of the same replica, or append. */
  function AddReplica(si: ServiceInfo, ip: Ip, port: nat, docker: Option<string>): ServiceInfo {
    match si
    case Unregistered(config) => Registered(config, [Replica(ip, port, docker, map[])])
    case Registered(config, reps) =>
      var i := IndexOf(reps, ReplicaId(ip, docker));
      if i < |reps| then Registered(config, reps[i := reps[i].(port := port)])
      else Registered(config, reps + [Replica(ip, port, docker, map[])])
  }

  function Retain(reps: seq<Replica>, keep: ReplicaId -> bool): seq<Replica> {
    if reps == [] then []
    else (if keep(reps[0].Id()) then [reps[0]] else []) + Retain(reps[1..], keep)
  }

  /** `remove_replica` and `remove_replicas_on_ip`: drop replicas, and unregister when none is left. */
  function KeepReplicas(si: ServiceInfo, keep: ReplicaId -> bool): ServiceInfo {
    match si
    case Unregistered(_) => si
    case Registered(config, reps) =>
      if Retain(reps, keep) == [] then Unregistered(config) else Registered(config, Retain(reps, keep))
  }

  function OffIp(ip: Ip): ReplicaId -> bool {
    (r: ReplicaId) => r.ip != ip
  }

  function OtherThan(r: ReplicaId): ReplicaId -> bool {
    (x: ReplicaId) => x != r
  }

  /** What the kept replicas have and are. */
  ghost predicate Kept(reps: seq<Replica>, keep: ReplicaId -> bool, kept: seq<Replica>) {
    && UniqueReps(kept)
    && (forall r :: TabOf(kept, r) == if keep(r) then TabOf(reps, r) else map[])
    && (forall r :: PortIn(kept, r) == if keep(r) then PortIn(reps, r) else None)
    && forall x :: x in kept <==> x in reps && keep(x.Id())
  }

  lemma HeadIsApart(head: Replica, rest: seq<Replica>)
    requires UniqueReps([head] + rest)
    ensures UniqueReps(rest) && forall x :: x in rest ==> x.Id() != head.Id()
  {
    var reps := [head] + rest;
    forall i | 0 <= i < |rest| ensures rest[i].Id() != head.Id() {
      assert reps[0] == head && reps[i + 1] == rest[i];
    }
    forall i, j | 0 <= i < j < |rest| ensures rest[i].Id() != rest[j].Id() {
      assert reps[i + 1] == rest[i] && reps[j + 1] == rest[j];
    }
  }

  lemma KeptHead(head: Replica, rest: seq<Replica>, keep: ReplicaId -> bool, kept: seq<Replica>)
    requires UniqueReps([head] + rest) && Kept(rest, keep, kept) && keep(head.Id())
    ensures Kept([head] + rest, keep, [head] + kept)
  {
    var reps, more := [head] + rest, [head] + kept;
    assert reps[1..] == rest && more[1..] == kept;
    HeadIsApart(head, rest);
    forall i | 0 <= i < |kept| ensures kept[i].Id() != head.Id() {
      assert kept[i] in rest;
    }
    assert forall x :: x in more <==> x == head || x in kept;
    assert forall x :: x in reps <==> x == head || x in rest;
  }

  lemma DroppedHead(head: Replica, rest: seq<Replica>, keep: ReplicaId -> bool, kept: seq<Replica>)
    requires UniqueReps([head] + rest) && Kept(rest, keep, kept) && !keep(head.Id())
    ensures Kept([head] + rest, keep, kept)
  {
    var reps := [head] + rest;
    assert reps[1..] == rest;
    HeadIsApart(head, rest);
    forall i | 0 <= i < |kept| ensures kept[i].Id() != head.Id() {
      assert kept[i] in rest;
    }
    TabAbsent(kept, head.Id());
    assert forall x :: x in reps <==> x == head || x in rest;
  }

  lemma {:induction false} RetainIsKept(reps: seq<Replica>, keep: ReplicaId -> bool)
    requires UniqueReps(reps)
    ensures Kept(reps, keep, Retain(reps, keep))
  {
    if reps != [] {
      var head, rest := reps[0], reps[1..];
      RetainIsKept(rest, keep);
      assert reps == [head] + rest;
      if keep(head.Id()) {
        KeptHead(head, rest, keep, Retain(rest, keep));
      } else {
        DroppedHead(head, rest, keep, Retain(rest, keep));
        assert [] + Retain(rest, keep) == Retain(rest, keep);
      }
    }
  }

  lemma RetainSpec(reps: seq<Replica>, keep: ReplicaId -> bool)
    requires UniqueReps(reps)
    ensures UniqueReps(Retain(reps, keep))
    ensures forall r :: TabOf(Retain(reps, keep), r) == if keep(r) then TabOf(reps, r) else map[]
    ensures forall r :: PortIn(Retain(reps, keep), r) == if keep(r) then PortIn(reps, r) else None
    ensures forall x :: x in Retain(reps, keep) <==> x in reps && keep(x.Id())
  {
    RetainIsKept(reps, keep);
  }
}
