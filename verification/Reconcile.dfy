/** Which replicas exist after each operation, for every table and every order of the changes. */
module Reconcile {
  import opened Types
  import opened ServiceTable
  import opened Teardown
  import opened Changes

  // ----- one change -----

  /** Same services and configurations, replicas identified by host and container. */
  ghost predicate SameConfig(a: Services, b: Services) {
    a.Keys == b.Keys && forall n :: n in a ==> a[n].config == b[n].config
  }

  lemma KeepPorts(s: Services, n: Name, keep: ReplicaId -> bool)
    requires Unique(s)
    ensures var b := DropReplicas(s, n, keep);
      && Unique(b) && SameConfig(s, b)
      && (forall m, r :: Port(b, m, r) == if m == n && !keep(r) then None else Port(s, m, r))
      && (forall m, r :: Tab(b, m, r) == if m == n && !keep(r) then map[] else Tab(s, m, r))
  {
    var b := DropReplicas(s, n, keep);
    if n in s && s[n].Registered? {
      RetainSpec(s[n].replicas, keep);
      assert Reps(b, n) == Retain(s[n].replicas, keep);
    }
    forall m ensures m != n ==> Reps(b, m) == Reps(s, m) {}
  }

  lemma UnregisterPorts(s: Services, x: Name)
    requires Unique(s)
    ensures var b := Unregister(s, x);
      && Unique(b) && SameConfig(s, b)
      && (x in b ==> b[x].Unregistered?)
      && (forall m, r :: Port(b, m, r) == if m == x then None else Port(s, m, r))
      && (forall m, r :: Tab(b, m, r) == if m == x then map[] else Tab(s, m, r))
  {
    var b := Unregister(s, x);
    forall m ensures Reps(b, m) == if m == x then [] else Reps(s, m) {}
  }

  lemma AllOnIpPorts(s: Services, n: Name, ip: Ip, r: ReplicaId)
    requires AllOnIp(s, n, ip) && r.ip != ip
    ensures Port(s, n, r) == None && Tab(s, n, r) == map[]
  {
    TabAbsent(Reps(s, n), r);
  }

  lemma OnlyOnePorts(s: Services, n: Name, at: ReplicaId, r: ReplicaId)
    requires OnlyOne(s, n) && Port(s, n, at).Some? && r != at
    ensures Port(s, n, r) == None && Tab(s, n, r) == map[]
  {
    TabNeedsRep(s, n, at);
    TabAbsent(Reps(s, n), r);
  }

  /** The replicas that a change removes. */
  ghost predicate Drops(change: ServiceChange, n: Name, r: ReplicaId) {
    match change
    case Removed(x) => n == x
    case ReplicasRemoved(m, ip) => n == m && r.ip == ip
    case ReplicaRemoved(m, at) => n == m && r == at
    case _ => false
  }

  /** The table after a change: it lost exactly the replicas the change names. */
  ghost predicate Reduced(a: Services, b: Services, change: ServiceChange) {
    && Unique(b)
    && (forall n, r :: Port(b, n, r) == if Drops(change, n, r) then None else Port(a, n, r))
    && SameConfig(if change.Removed? then a - {change.name} else a, b)
    && (forall n :: n in b && b[n].Registered? ==> a[n].Registered?)
  }

  lemma FinishRemoved(s: Services, x: Name)
    requires Unique(s)
    ensures Reduced(s, Unregister(s, x) - {x}, Removed(x))
    ensures SameShape(s - {x}, Unregister(s, x) - {x})
    ensures forall m, r :: Tab(Unregister(s, x) - {x}, m, r) == if m == x then map[] else Tab(s, m, r)
  {
    var b := Unregister(s, x) - {x};
    forall m ensures Reps(b, m) == if m == x then [] else Reps(s, m) {}
  }

  lemma FinishOnIp(s0: Services, s: Services, n: Name, ip: Ip)
    requires Unique(s) && SameShape(s0, s)
    ensures Reduced(s, Finish(s0, s, ReplicasRemoved(n, ip)), ReplicasRemoved(n, ip))
    ensures forall m, r: ReplicaId ::
      Tab(Finish(s0, s, ReplicasRemoved(n, ip)), m, r) == if m == n && r.ip == ip then map[] else Tab(s, m, r)
  {
    if AllOnIp(s0, n, ip) {
      assert AllOnIp(s, n, ip) by {
        forall i | 0 <= i < |Reps(s, n)| ensures Reps(s, n)[i].ip == ip {
          assert Reps(s0, n)[i].Id() == Reps(s, n)[i].Id();
        }
      }
      UnregisterPorts(s, n);
      forall r: ReplicaId | r.ip != ip ensures Port(s, n, r) == None && Tab(s, n, r) == map[] {
        AllOnIpPorts(s, n, ip, r);
      }
    } else {
      KeepPorts(s, n, OffIp(ip));
    }
  }

  lemma FinishReplica(s0: Services, s: Services, n: Name, at: ReplicaId)
    requires Unique(s) && SameShape(s0, s)
    requires OnlyOne(s0, n) ==> Port(s, n, at).Some?
    ensures Reduced(s, Finish(s0, s, ReplicaRemoved(n, at)), ReplicaRemoved(n, at))
    ensures forall m, r ::
      Tab(Finish(s0, s, ReplicaRemoved(n, at)), m, r) == if m == n && r == at then map[] else Tab(s, m, r)
  {
    if OnlyOne(s0, n) {
      assert OnlyOne(s, n);
      UnregisterPorts(s, n);
      forall r | r != at ensures Port(s, n, r) == None && Tab(s, n, r) == map[] {
        OnlyOnePorts(s, n, at, r);
      }
    } else {
      KeepPorts(s, n, OtherThan(at));
    }
  }

  /** A change of a known replica removes exactly the replicas it names, whatever it tears down on the way. */
  lemma ChangePorts(w: World, change: ServiceChange, w': World)
    requires Unique(w.services) && ChangeRel(w, change, w')
    requires change.ReplicaRemoved? ==> Port(w.services, change.name, change.at).Some?
    ensures Reduced(w.services, w'.services, change)
    ensures change.Removed? ==> SameShape(w.services - {change.name}, w'.services)
    ensures change.ReplicasRemoved? || change.ReplicaRemoved? || change.Removed? || SameShape(w.services, w'.services)
  {
    var ops, mid: World :| Plan(w, change, ops, mid) && OpsRel(w, ops, mid)
      && w' == mid.(services := Finish(w.services, mid.services, change));
    OpsShape(w, ops, mid);
    ShapeFacts(w.services, mid.services);
    match change
    case Removed(x) => FinishRemoved(mid.services, x);
    case ReplicasRemoved(n, ip) => FinishOnIp(w.services, mid.services, n, ip);
    case ReplicaRemoved(n, at) => FinishReplica(w.services, mid.services, n, at);
    case _ =>
  }

  // ----- many changes -----

  ghost predicate SomeDrops(changes: seq<ServiceChange>, n: Name, r: ReplicaId) {
    exists ch :: ch in changes && Drops(ch, n, r)
  }

  /** Every single replica to remove is there when its turn comes. */
  ghost predicate Known(s: Services, changes: seq<ServiceChange>) {
    forall i :: 0 <= i < |changes| && changes[i].ReplicaRemoved? ==>
      Port(s, changes[i].name, changes[i].at).Some? && !SomeDrops(changes[..i], changes[i].name, changes[i].at)
  }

  ghost predicate Gone(changes: seq<ServiceChange>, n: Name) {
    Removed(n) in changes
  }

  lemma {:induction false} ApplyDrops(w: World, changes: seq<ServiceChange>, w': World)
    requires Unique(w.services) && ApplyRel(w, changes, w') && Known(w.services, changes)
    ensures Unique(w'.services) && DropsOnly(w.services, w'.services, changes)
    decreases |changes|
  {
    if changes != [] {
      var before, last := changes[..|changes| - 1], changes[|changes| - 1];
      assert changes == before + [last];
      var mid :| ApplyRel(w, before, mid) && ChangeRel(mid, last, w');
      KnownPrefix(w.services, before, last);
      ApplyDrops(w, before, mid);
      ChangePorts(mid, last, w');
      PortsJoin(w.services, mid.services, w'.services, before, last);
    }
  }

  /** Any list of known changes removes exactly the replicas and the services that they name. */
  lemma ApplyPorts(w: World, changes: seq<ServiceChange>, w': World)
    requires Unique(w.services) && ApplyRel(w, changes, w') && Known(w.services, changes)
    ensures Unique(w'.services)
    ensures forall n, r ::
      Port(w'.services, n, r) == if SomeDrops(changes, n, r) then None else Port(w.services, n, r)
    ensures forall n :: n in w'.services <==> n in w.services && !Gone(changes, n)
    ensures forall n :: n in w'.services ==> w'.services[n].config == w.services[n].config
  {
    ApplyDrops(w, changes, w');
  }

  lemma KnownPrefix(s: Services, before: seq<ServiceChange>, last: ServiceChange)
    requires Known(s, before + [last])
    ensures Known(s, before)
    ensures last.ReplicaRemoved? ==> Port(s, last.name, last.at).Some? && !SomeDrops(before, last.name, last.at)
  {
    var changes := before + [last];
    forall i | 0 <= i < |before| ensures before[i] == changes[i] && before[..i] == changes[..i] {}
    assert changes[|before|] == last && changes[..|before|] == before;
  }

  /** `b` is `a` without the replicas that the changes drop and without the services that they remove. */
  ghost predicate DropsOnly(a: Services, b: Services, changes: seq<ServiceChange>) {
    && (forall n, r :: Port(b, n, r) == if SomeDrops(changes, n, r) then None else Port(a, n, r))
    && (forall n :: n in b <==> n in a && !Gone(changes, n))
    && (forall n :: n in b ==> b[n].config == a[n].config)
  }

  lemma PortsJoin(a: Services, m: Services, b: Services, before: seq<ServiceChange>, last: ServiceChange)
    requires DropsOnly(a, m, before) && Reduced(m, b, last)
    ensures DropsOnly(a, b, before + [last])
  {
    var changes := before + [last];
    assert forall ch :: ch in changes <==> ch in before || ch == last;
    forall n, r ensures SomeDrops(changes, n, r) <==> SomeDrops(before, n, r) || Drops(last, n, r) {}
    forall n ensures Gone(changes, n) <==> Gone(before, n) || last == Removed(n) {}
  }

  // ----- host re-registration -----

  /** The port of the last item of the list for this service and container. */
  function LastPort(list: seq<Listed>, n: Name, docker: Option<string>): Option<nat> {
    if list == [] then None
    else if list[|list| - 1].name == n && list[|list| - 1].docker == docker then Some(list[|list| - 1].port)
    else LastPort(list[..|list| - 1], n, docker)
  }

  /** The last item that names the pair decides. */
  lemma {:induction false} LastPortIs(list: seq<Listed>, n: Name, docker: Option<string>, i: nat)
    requires i < |list| && list[i].name == n && list[i].docker == docker
    requires forall j :: i < j < |list| ==> list[j].name != n || list[j].docker != docker
    ensures LastPort(list, n, docker) == Some(list[i].port)
    decreases |list|
  {
    if i < |list| - 1 {
      LastPortIs(list[..|list| - 1], n, docker, i);
    }
  }

  lemma {:induction false} LastPortListed(list: seq<Listed>, n: Name, docker: Option<string>)
    ensures LastPort(list, n, docker).Some? <==> IsListed(list, n, docker)
  {
    if list != [] {
      var before := list[..|list| - 1];
      LastPortListed(before, n, docker);
      if IsListed(list, n, docker) {
        var i :| 0 <= i < |list| && list[i].name == n && list[i].docker == docker;
        assert i < |before| ==> before[i] == list[i];
      }
      if IsListed(before, n, docker) {
        var i :| 0 <= i < |before| && before[i].name == n && before[i].docker == docker;
        assert list[i] == before[i];
      }
    }
  }

  lemma {:induction false} PortAppend(reps: seq<Replica>, x: Replica, r: ReplicaId)
    ensures PortIn(reps + [x], r) ==
      (if PortIn(reps, r).Some? then PortIn(reps, r) else if x.Id() == r then Some(x.port) else None)
    ensures TabOf(reps + [x], r) ==
      (if PortIn(reps, r).Some? then TabOf(reps, r) else if x.Id() == r then x.clients else map[])
  {
    if reps == [] {
      assert reps + [x] == [x];
    } else {
      assert (reps + [x])[1..] == reps[1..] + [x];
      PortAppend(reps[1..], x, r);
    }
  }

  lemma {:induction false} PortUpdate(reps: seq<Replica>, i: nat, port: nat, r: ReplicaId)
    requires UniqueReps(reps) && i < |reps|
    ensures var after := reps[i := reps[i].(port := port)];
      && TabOf(after, r) == TabOf(reps, r)
      && PortIn(after, r) == if r == reps[i].Id() then Some(port) else PortIn(reps, r)
  {
    if i > 0 {
      assert reps[i := reps[i].(port := port)][1..] == reps[1..][i - 1 := reps[1..][i - 1].(port := port)];
      PortUpdate(reps[1..], i - 1, port, r);
    }
  }

  /** The replicas after one registration: the port is set, a new replica starts without clients. */
  lemma AddReplicaReps(si: ServiceInfo, reps: seq<Replica>, ip: Ip, port: nat, docker: Option<string>)
    requires reps == (if si.Registered? then si.replicas else []) && UniqueReps(reps)
    ensures var b, id := AddReplica(si, ip, port, docker), ReplicaId(ip, docker);
      && b.Registered? && b.config == si.config && UniqueReps(b.replicas)
      && (forall r :: PortIn(b.replicas, r) == if r == id then Some(port) else PortIn(reps, r))
      && (forall r :: TabOf(b.replicas, r) == TabOf(reps, r))
  {
    var b, id := AddReplica(si, ip, port, docker), ReplicaId(ip, docker);
    var i := IndexOf(reps, id);
    if i < |reps| {
      assert b.replicas == reps[i := reps[i].(port := port)];
      forall r ensures PortIn(b.replicas, r) == (if r == id then Some(port) else PortIn(reps, r))
               ensures TabOf(b.replicas, r) == TabOf(reps, r) {
        PortUpdate(reps, i, port, r);
      }
    } else {
      assert b.replicas == reps + [Replica(ip, port, docker, map[])];
      TabAbsent(reps, id);
      forall r ensures PortIn(b.replicas, r) == (if r == id then Some(port) else PortIn(reps, r))
               ensures TabOf(b.replicas, r) == TabOf(reps, r) {
        PortAppend(reps, Replica(ip, port, docker, map[]), r);
        PortSome(reps, r);
      }
    }
  }

  /** One registration: the port is set, a new replica starts without clients, everything else stays. */
  lemma AddReplicaPorts(s: Services, n: Name, ip: Ip, port: nat, docker: Option<string>)
    requires Unique(s) && n in s
    ensures var b := s[n := AddReplica(s[n], ip, port, docker)];
      && Unique(b) && SameConfig(s, b) && b[n].Registered?
      && (forall m :: m != n ==> Reps(b, m) == Reps(s, m))
      && (forall m, r :: Port(b, m, r) == if m == n && r == ReplicaId(ip, docker) then Some(port) else Port(s, m, r))
      && (forall m, r :: Tab(b, m, r) == Tab(s, m, r))
  {
    var b := s[n := AddReplica(s[n], ip, port, docker)];
    AddReplicaReps(s[n], Reps(s, n), ip, port, docker);
    forall m ensures m != n ==> Reps(b, m) == Reps(s, m) {}
  }

  lemma {:induction false} PortSome(reps: seq<Replica>, r: ReplicaId)
    ensures PortIn(reps, r).Some? <==> exists i :: 0 <= i < |reps| && reps[i].Id() == r
    ensures PortIn(reps, r).None? ==> TabOf(reps, r) == map[]
  {
    if reps != [] {
      PortSome(reps[1..], r);
      if i :| 0 <= i < |reps[1..]| && reps[1..][i].Id() == r {
        assert reps[i + 1].Id() == r;
      }
      if i :| 0 <= i < |reps| && reps[i].Id() == r {
        assert i > 0 ==> reps[1..][i - 1].Id() == r;
      }
    }
  }

  lemma HasRepByPort(s: Services, n: Name, r: ReplicaId)
    ensures HasRep(s, n, r) <==> Port(s, n, r).Some?
  {
    PortSome(Reps(s, n), r);
    if HasRep(s, n, r) {
      var i :| 0 <= i < |Reps(s, n)| && Reps(s, n)[i].Id() == r;
    }
  }

  lemma {:induction false} AddListedPorts(s: Services, ip: Ip, list: seq<Listed>)
    requires Unique(s)
    ensures var b := AddListed(s, ip, list);
      && Unique(b) && SameConfig(s, b)
      && (forall n, r: ReplicaId :: Port(b, n, r) ==
            if n in s && r.ip == ip && LastPort(list, n, r.docker).Some? then LastPort(list, n, r.docker)
            else Port(s, n, r))
      && (forall n, r :: Tab(b, n, r) == Tab(s, n, r))
  {
    if list != [] {
      var last := list[|list| - 1];
      AddListedPorts(s, ip, list[..|list| - 1]);
      var before := AddListed(s, ip, list[..|list| - 1]);
      if last.name in before {
        AddReplicaPorts(before, last.name, ip, last.port, last.docker);
      }
    }
  }

  lemma UnlistedAreKnown(s: Services, ip: Ip, list: seq<Listed>, changes: seq<ServiceChange>, ch: ServiceChange)
    requires Unique(s) && Enumerates(changes, NoLongerListed(s, ip, list)) && ch in changes
    ensures ch.ReplicaRemoved? && Port(s, ch.name, ch.at).Some? && ch.at.ip == ip
    ensures !IsListed(list, ch.name, ch.at.docker)
  {
    assert ch in NoLongerListed(s, ip, list);
    var n, i :| n in s && 0 <= i < |Reps(s, n)| && Reps(s, n)[i].ip == ip
      && !IsListed(list, n, Reps(s, n)[i].docker) && ch == ReplicaRemoved(n, Reps(s, n)[i].Id());
    TabAt(Reps(s, n), i);
  }

  lemma UnlistedAreDropped(s: Services, ip: Ip, list: seq<Listed>, changes: seq<ServiceChange>, n: Name, r: ReplicaId)
    requires Unique(s) && Enumerates(changes, NoLongerListed(s, ip, list))
    ensures SomeDrops(changes, n, r) ==> r.ip == ip && !IsListed(list, n, r.docker)
    ensures r.ip == ip && !IsListed(list, n, r.docker) && Port(s, n, r).Some? ==> SomeDrops(changes, n, r)
  {
    if ch :| ch in changes && Drops(ch, n, r) {
      UnlistedAreKnown(s, ip, list, changes, ch);
    }
    if r.ip == ip && !IsListed(list, n, r.docker) && Port(s, n, r).Some? {
      PortSome(Reps(s, n), r);
      var i :| 0 <= i < |Reps(s, n)| && Reps(s, n)[i].Id() == r;
      assert ReplicaRemoved(n, r) in NoLongerListed(s, ip, list);
      assert Drops(ReplicaRemoved(n, r), n, r);
    }
  }

  lemma UnlistedKnown(s: Services, ip: Ip, list: seq<Listed>, changes: seq<ServiceChange>)
    requires Unique(s) && Enumerates(changes, NoLongerListed(s, ip, list))
    ensures Known(s, changes)
  {
    forall i | 0 <= i < |changes| && changes[i].ReplicaRemoved?
      ensures Port(s, changes[i].name, changes[i].at).Some?
      ensures !SomeDrops(changes[..i], changes[i].name, changes[i].at)
    {
      UnlistedAreKnown(s, ip, list, changes, changes[i]);
      forall ch | ch in changes[..i] ensures !Drops(ch, changes[i].name, changes[i].at) {
        UnlistedAreKnown(s, ip, list, changes, ch);
      }
    }
  }

  /** The port a replica has after the host `ip` sent `list`. */
  ghost function ReconciledPort(s: Services, ip: Ip, list: seq<Listed>, n: Name, r: ReplicaId): Option<nat> {
    if r.ip != ip then Port(s, n, r)
    else if n in s then LastPort(list, n, r.docker) else None
  }

  /**
   After a host has sent its list, the replicas on that host are exactly the listed (service, container) pairs of
   configured services, each on its last listed port; every other replica is as before, and identities stay unique.
   */
  lemma ReregistrationReconciles(w: World, ip: Ip, list: seq<Listed>, w': World)
    requires Unique(w.services) && ServicesListRel(w, ip, list, w')
    ensures Unique(w'.services) && SameConfig(w.services, w'.services)
    ensures forall n, r :: Port(w'.services, n, r) == ReconciledPort(w.services, ip, list, n, r)
  {
    var changes: seq<ServiceChange>, mid: World :|
      Enumerates(changes, NoLongerListed(w.services, ip, list)) && ApplyRel(w, changes, mid)
      && w' == mid.(services := AddListed(mid.services, ip, list));
    UnlistedKnown(w.services, ip, list, changes);
    ApplyPorts(w, changes, mid);
    AddListedPorts(mid.services, ip, list);
    forall n ensures !Gone(changes, n) {
      if Removed(n) in changes {
        UnlistedAreKnown(w.services, ip, list, changes, Removed(n));
      }
    }
    forall n, r ensures Port(w'.services, n, r) == ReconciledPort(w.services, ip, list, n, r) {
      LastPortListed(list, n, r.docker);
      UnlistedAreDropped(w.services, ip, list, changes, n, r);
    }
  }

  // ----- configuration reload -----

  lemma ChangeKeepsStatus(w: World, change: ServiceChange, w': World)
    requires ChangeRel(w, change, w') && !change.ReplicaRemoved? && !change.ReplicasRemoved?
    ensures forall n :: n in w'.services ==> n in w.services && w'.services[n].Registered? == w.services[n].Registered?
  {
    var ops, mid: World :| Plan(w, change, ops, mid) && OpsRel(w, ops, mid)
      && w' == mid.(services := Finish(w.services, mid.services, change));
    OpsShape(w, ops, mid);
  }

  lemma {:induction false} StatusKept(w: World, changes: seq<ServiceChange>, w': World)
    requires ApplyRel(w, changes, w')
    requires forall ch: ServiceChange :: ch in changes ==> !ch.ReplicaRemoved? && !ch.ReplicasRemoved?
    ensures forall n :: n in w'.services ==> n in w.services && w'.services[n].Registered? == w.services[n].Registered?
    decreases |changes|
  {
    if changes != [] {
      var before, last := changes[..|changes| - 1], changes[|changes| - 1];
      var mid :| ApplyRel(w, before, mid) && ChangeRel(mid, last, w');
      StatusKept(w, before, mid);
      ChangeKeepsStatus(mid, last, w');
    }
  }

  /** The loader only ever produces services without replicas. */
  ghost predicate FromFile(loaded: Services) {
    forall n :: n in loaded ==> loaded[n].Unregistered?
  }

  lemma ReloadDetects(s: Services, loaded: Services, now: nat, changes: seq<ServiceChange>)
    requires ConfigDetected(s, loaded, now, changes)
    ensures forall ch :: ch in changes ==> !ch.ReplicaRemoved? && !ch.ReplicasRemoved?
    ensures forall n :: Gone(changes, n) <==> n in s && n !in loaded
    ensures forall n, r :: SomeDrops(changes, n, r) <==> n in s && n !in loaded
  {
    forall ch | ch in changes ensures IsConfigChange(s, loaded, now, ch) {}
    forall n ensures Gone(changes, n) <==> n in s && n !in loaded {
      assert Gone(changes, n) <==> IsConfigChange(s, loaded, now, Removed(n));
    }
    forall n, r ensures SomeDrops(changes, n, r) <==> n in s && n !in loaded {
      assert Drops(Removed(n), n, r);
      assert Gone(changes, n) ==> SomeDrops(changes, n, r);
    }
  }

  /**
   After a reload the services and their configurations are the loaded ones, and a service that was there before
   keeps its registration and exactly its replicas, whatever order the changes were applied in.
   */
  lemma ReloadConverges(w: World, loaded: Services, now: nat, w': World)
    requires Unique(w.services) && FromFile(loaded) && ReloadRel(w, loaded, now, w')
    ensures Unique(w'.services)
    ensures w'.services.Keys == loaded.Keys
    ensures forall n :: n in loaded ==> w'.services[n].config == loaded[n].config
    ensures forall n, r :: Port(w'.services, n, r) == if n in loaded then Port(w.services, n, r) else None
    ensures forall n :: n in loaded ==>
      (w'.services[n].Registered? <==> n in w.services && w.services[n].Registered?)
  {
    var changes, mid: World :| ConfigDetected(w.services, loaded, now, changes) && ApplyRel(w, changes, mid)
      && w' == mid.(services := Merge(mid.services, loaded));
    ReloadDetects(w.services, loaded, now, changes);
    ApplyPorts(w, changes, mid);
    StatusKept(w, changes, mid);
    MergePorts(mid.services, loaded);
  }

  lemma MergePorts(s: Services, loaded: Services)
    requires FromFile(loaded) && s.Keys <= loaded.Keys
    ensures var b := Merge(s, loaded);
      && b.Keys == loaded.Keys
      && (forall n :: Reps(b, n) == Reps(s, n))
      && (forall n :: n in loaded ==> b[n].config == loaded[n].config)
      && (forall n :: n in loaded ==> (b[n].Registered? <==> n in s && s[n].Registered?))
  {
  }

  // ----- disconnect -----

  lemma DisconnectDetects(s: Services, ip: Ip, changes: seq<ServiceChange>)
    requires DisconnectDetected(s, ip, changes)
    ensures forall ch :: ch in changes ==> ch == ProxyDisconnected(ip) || (ch.ReplicasRemoved? && ch.ip == ip)
    ensures forall n :: n in NamesOnIp(s, ip) ==> ReplicasRemoved(n, ip) in changes
    ensures Known(s, changes) && forall n :: !Gone(changes, n)
  {
    var order: seq<Name> :| Enumerates(order, NamesOnIp(s, ip))
      && changes == RemovalsOnIp(order, ip) + (if NamesOfProxy(s, ip) != {} then [ProxyDisconnected(ip)] else []);
    forall n | n in NamesOnIp(s, ip) ensures ReplicasRemoved(n, ip) in changes {
      var k :| 0 <= k < |order| && order[k] == n;
      assert changes[k] == ReplicasRemoved(n, ip);
    }
  }

  lemma DisconnectDrops(s: Services, ip: Ip, changes: seq<ServiceChange>, n: Name, r: ReplicaId)
    requires DisconnectDetected(s, ip, changes)
    ensures Port(s, n, r).Some? ==> (SomeDrops(changes, n, r) <==> r.ip == ip)
  {
    DisconnectDetects(s, ip, changes);
    PortSome(Reps(s, n), r);
    if r.ip == ip && Port(s, n, r).Some? {
      assert n in NamesOnIp(s, ip);
      assert Drops(ReplicasRemoved(n, ip), n, r);
    }
  }

  /** After a node has gone, no service has a replica on it; replicas on other nodes stay. */
  lemma DisconnectRemovesReplicas(w: World, ip: Ip, w': World)
    requires Unique(w.services) && DisconnectRel(w, ip, w')
    ensures Unique(w'.services) && SameConfig(w.services, w'.services)
    ensures forall n, r: ReplicaId :: Port(w'.services, n, r) == if r.ip == ip then None else Port(w.services, n, r)
  {
    var changes :| DisconnectDetected(w.services, ip, changes) && ApplyRel(w, changes, w');
    DisconnectDetects(w.services, ip, changes);
    ApplyDrops(w, changes, w');
    DroppedOnIp(w.services, w'.services, ip, changes);
  }

  lemma DroppedOnIp(a: Services, b: Services, ip: Ip, changes: seq<ServiceChange>)
    requires DisconnectDetected(a, ip, changes) && DropsOnly(a, b, changes) && forall n :: !Gone(changes, n)
    ensures SameConfig(a, b)
    ensures forall n, r: ReplicaId :: Port(b, n, r) == if r.ip == ip then None else Port(a, n, r)
  {
    forall n, r: ReplicaId ensures Port(b, n, r) == if r.ip == ip then None else Port(a, n, r) {
      DisconnectDrops(a, ip, changes, n, r);
    }
  }
}
