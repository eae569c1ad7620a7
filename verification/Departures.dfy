/**
 Which users stay when a node goes or a host no longer lists some replicas (src/services/changes.rs:106-177): all whose
 replica stays, is no client of a replica that goes, and whose service lists no service that loses its last replica.
 */
module Departures {
  import opened Types
  import opened ServiceTable
  import opened Teardown
  import opened Changes
  import opened Reconcile
  import opened Settlement
  import opened Users
  import opened UserChanges

  /** The service has no replicas, or keeps one. */
  ghost predicate Keeps(s: Services, gone: (Name, ReplicaId) -> bool, n: Name) {
    HasAny(s, n) ==> exists r :: Port(s, n, r).Some? && !gone(n, r)
  }

  ghost predicate HasAny(s: Services, n: Name) {
    exists r :: Port(s, n, r).Some?
  }

  ghost predicate IsUpstream(s: Services, gone: (Name, ReplicaId) -> bool, l: Link) {
    exists n, r, c: Client :: gone(n, r) && c in Tab(s, n, r)
      && c.proxy.None? && c.name == l.server && c.replica == Some(l.at)
  }

  /** The departure of these replicas leaves this user alone. */
  ghost predicate Spared(s: Services, gone: (Name, ReplicaId) -> bool, l: Link) {
    && !gone(l.server, l.at)
    && !IsUpstream(s, gone, l)
    && forall n :: Lists(s, l.server, n) ==> Keeps(s, gone, n)
  }

  ghost predicate Drop(changes: seq<ServiceChange>, s: Services, gone: (Name, ReplicaId) -> bool) {
    forall n, r :: Port(s, n, r).Some? && SomeDrops(changes, n, r) ==> gone(n, r)
  }

  lemma RemovesDrops(change: ServiceChange, n: Name, r: ReplicaId)
    requires !KeepsReplicas(change)
    ensures Removes(change, n, r) <==> Drops(change, n, r)
  {
  }

  lemma UpstreamBefore(a: Services, b: Services, change: ServiceChange, changes: seq<ServiceChange>,
                       gone: (Name, ReplicaId) -> bool, l: Link)
    requires Unique(a) && Shrunk(a, b) && !KeepsReplicas(change) && change in changes && Drop(changes, a, gone)
    requires UpstreamOf(change, b, l)
    ensures IsUpstream(a, gone, l)
  {
    var n, r, c: Client :| Removes(change, n, r) && c in Tab(b, n, r)
      && c.proxy.None? && c.name == l.server && c.replica == Some(l.at);
    assert Entry(b, Link(c, n, r)).Some?;
    assert Entry(a, Link(c, n, r)).Some?;
    TabNeedsRep(a, n, r);
    HasRepByPort(a, n, r);
    RemovesDrops(change, n, r);
  }

  lemma LosesAll(a: Services, b: Services, before: seq<ServiceChange>, last: ServiceChange, changes: seq<ServiceChange>,
                 gone: (Name, ReplicaId) -> bool, r: ReplicaId)
    requires RemovesAll(last, b) && (last.ReplicaRemoved? ==> Port(b, last.name, last.at).Some?)
    requires last in changes && (forall ch :: ch in before ==> ch in changes) && Drop(changes, a, gone)
    requires Port(b, last.name, r) == if SomeDrops(before, last.name, r) then None else Port(a, last.name, r)
    requires Port(a, last.name, r).Some?
    ensures gone(last.name, r)
  {
    var n := last.name;
    if Port(b, n, r).Some? {
      HasRepByPort(b, n, r);
      if last.ReplicaRemoved? {
        HasRepByPort(b, n, last.at);
      }
      assert Drops(last, n, r);
      assert SomeDrops(changes, n, r);
    } else {
      assert SomeDrops(changes, n, r);
    }
  }

  ghost predicate PortsLeft(a: Services, b: Services, changes: seq<ServiceChange>, n: Name) {
    forall r :: Port(b, n, r) == if SomeDrops(changes, n, r) then None else Port(a, n, r)
  }

  lemma ListedStays(a: Services, b: Services, before: seq<ServiceChange>, last: ServiceChange, changes: seq<ServiceChange>,
                    gone: (Name, ReplicaId) -> bool)
    requires RemovesAll(last, b) && (last.ReplicaRemoved? ==> Port(b, last.name, last.at).Some?)
    requires last in changes && (forall ch :: ch in before ==> ch in changes) && Drop(changes, a, gone)
    requires HasAny(a, last.name) && PortsLeft(a, b, before, last.name)
    ensures !Keeps(a, gone, last.name)
  {
    forall r | Port(a, last.name, r).Some? ensures gone(last.name, r) {
      LosesAll(a, b, before, last, changes, gone, r);
    }
  }

  lemma LastSpares(w: World, before: seq<ServiceChange>, last: ServiceChange, changes: seq<ServiceChange>, mid: World,
                   w': World, gone: (Name, ReplicaId) -> bool, l: Link)
    requires Unique(w.services) && Unique(mid.services) && ProxyOnce(mid.services) && Shrunk(w.services, mid.services)
    requires ChangeRel(mid, last, w') && !KeepsReplicas(last) && Spared(w.services, gone, l)
    requires last in changes && (forall ch :: ch in before ==> ch in changes) && Drop(changes, w.services, gone)
    requires last.ReplicaRemoved? ==> Port(mid.services, last.name, last.at).Some?
    requires HasAny(w.services, last.name) && PortsLeft(w.services, mid.services, before, last.name)
    requires l.client.proxy.Some? && Entry(mid.services, l).Some? && l.server in w.services
    requires l.server in mid.services && mid.services[l.server].config == w.services[l.server].config
    ensures Entry(w'.services, l) == Entry(mid.services, l)
  {
    EntryNeedsRep(mid.services, l);
    RemovesDrops(last, l.server, l.at);
    HasRepByPort(mid.services, l.server, l.at);
    assert Drops(last, l.server, l.at) ==> SomeDrops(changes, l.server, l.at);
    if RemovesAll(last, mid.services) {
      if Lists(mid.services, l.server, last.name) {
        ListedStays(w.services, mid.services, before, last, changes, gone);
        assert false;
      }
      LastRemovalTakes(mid, last, w', l);
    } else {
      var ops, cut := RemovalTakes(mid, last, w', l);
      OpsShrink(mid, ops, cut);
      ShrunkTrans(w.services, mid.services, cut.services);
      if UpstreamOf(last, cut.services, l) {
        UpstreamBefore(w.services, cut.services, last, changes, gone, l);
      }
    }
  }

  /** These changes do not name the user, remove no service, and remove replicas only of services that have any. */
  ghost predicate Harmless(before: seq<ServiceChange>, changes: seq<ServiceChange>, s: Services, l: Link) {
    forall ch :: ch in before ==> ch in changes && IsHarmless(ch, s, l)
  }

  ghost predicate IsHarmless(ch: ServiceChange, s: Services, l: Link) {
    !ch.Removed? && if KeepsReplicas(ch) then !Concerns(ch, s, l) else HasAny(s, ch.name)
  }

  lemma HarmlessPrefix(rest: seq<ServiceChange>, last: ServiceChange, changes: seq<ServiceChange>, s: Services, l: Link)
    requires Harmless(rest + [last], changes, s, l)
    ensures Harmless(rest, changes, s, l) && last in changes && IsHarmless(last, s, l)
  {
    assert forall ch :: ch in rest + [last] <==> ch in rest || ch == last;
  }

  lemma {:induction false} ApplySpares(w: World, before: seq<ServiceChange>, changes: seq<ServiceChange>, w': World,
                                       gone: (Name, ReplicaId) -> bool, l: Link)
    requires Unique(w.services) && ProxyOnce(w.services) && ApplyRel(w, before, w') && Known(w.services, before)
    requires Drop(changes, w.services, gone) && Harmless(before, changes, w.services, l)
    requires l.client.proxy.Some? && Entry(w.services, l).Some? && Spared(w.services, gone, l)
    ensures Entry(w'.services, l) == Entry(w.services, l)
    decreases |before|
  {
    if before != [] {
      var rest, last := before[..|before| - 1], before[|before| - 1];
      var mid :| ApplyRel(w, rest, mid) && ChangeRel(mid, last, w');
      assert before == rest + [last];
      KnownPrefix(w.services, rest, last);
      HarmlessPrefix(rest, last, changes, w.services, l);
      ApplySpares(w, rest, changes, mid, gone, l);
      NextSpares(w, rest, last, changes, mid, w', gone, l);
    }
  }

  lemma NextSpares(w: World, rest: seq<ServiceChange>, last: ServiceChange, changes: seq<ServiceChange>, mid: World,
                   w': World, gone: (Name, ReplicaId) -> bool, l: Link)
    requires Unique(w.services) && ProxyOnce(w.services) && ApplyRel(w, rest, mid) && Known(w.services, rest)
    requires Harmless(rest, changes, w.services, l) && last in changes && IsHarmless(last, w.services, l)
    requires last.ReplicaRemoved? ==> Port(w.services, last.name, last.at).Some? && !SomeDrops(rest, last.name, last.at)
    requires ChangeRel(mid, last, w') && Drop(changes, w.services, gone) && Spared(w.services, gone, l)
    requires l.client.proxy.Some? && Entry(w.services, l).Some? && Entry(mid.services, l) == Entry(w.services, l)
    ensures Entry(w'.services, l) == Entry(w.services, l)
  {
    ApplyLeaves(w, rest, mid, last, l);
    if KeepsReplicas(last) {
      ChangeTakes(mid, last, w', l);
    } else {
      LastSpares(w, rest, last, changes, mid, w', gone, l);
    }
  }

  /** What the changes so far leave for the next one: ports, the configuration of the user's service. */
  lemma ApplyLeaves(w: World, rest: seq<ServiceChange>, mid: World, last: ServiceChange, l: Link)
    requires Unique(w.services) && ProxyOnce(w.services) && ApplyRel(w, rest, mid) && Known(w.services, rest)
    requires (forall ch :: ch in rest ==> !ch.Removed?) && Entry(w.services, l).Some?
    requires last.ReplicaRemoved? ==> Port(w.services, last.name, last.at).Some? && !SomeDrops(rest, last.name, last.at)
    ensures Unique(mid.services) && ProxyOnce(mid.services) && Shrunk(w.services, mid.services)
    ensures l.server in w.services && l.server in mid.services
    ensures mid.services[l.server].config == w.services[l.server].config
    ensures last.ReplicaRemoved? ==> Port(mid.services, last.name, last.at).Some?
    ensures !KeepsReplicas(last) ==> PortsLeft(w.services, mid.services, rest, last.name)
  {
    ApplyShrinks(w, rest, mid);
    ShrunkKeeps(w.services, mid.services);
    ApplyPorts(w, rest, mid);
    EntryNeedsRep(w.services, l);
    NotGone(rest, l.server);
  }

  lemma NotGone(changes: seq<ServiceChange>, n: Name)
    requires forall ch: ServiceChange :: ch in changes ==> !ch.Removed?
    ensures !Gone(changes, n)
  {
    assert Gone(changes, n) ==> Removed(n) in changes;
  }

  /** The replicas on a node. */
  function OnNode(ip: Ip): (Name, ReplicaId) -> bool {
    (n: Name, r: ReplicaId) => r.ip == ip
  }

  /** The replicas of a host that its list does not name. */
  function Unlisted(ip: Ip, list: seq<Listed>): (Name, ReplicaId) -> bool {
    (n: Name, r: ReplicaId) => r.ip == ip && !IsListed(list, n, r.docker)
  }

  /** When a node goes, the users of other proxies that its replicas do not concern keep their entries. */
  lemma DisconnectSpares(w: World, ip: Ip, w': World, l: Link)
    requires Unique(w.services) && ProxyOnce(w.services) && DisconnectRel(w, ip, w')
    requires l.client.proxy.Some? && l.client.proxy != Some(ip) && Entry(w.services, l).Some?
    requires Spared(w.services, OnNode(ip), l)
    ensures Entry(w'.services, l) == Entry(w.services, l)
  {
    var s := w.services;
    var changes :| DisconnectDetected(s, ip, changes) && ApplyRel(w, changes, w');
    DisconnectChanges(s, ip, changes, l);
    DropOnNode(s, ip, changes);
    ApplySpares(w, changes, changes, w', OnNode(ip), l);
  }

  lemma DropOnNode(s: Services, ip: Ip, changes: seq<ServiceChange>)
    requires DisconnectDetected(s, ip, changes)
    ensures Drop(changes, s, OnNode(ip))
  {
    forall n, r | Port(s, n, r).Some? && SomeDrops(changes, n, r) ensures OnNode(ip)(n, r) {
      DisconnectDrops(s, ip, changes, n, r);
    }
  }

  lemma DisconnectChanges(s: Services, ip: Ip, changes: seq<ServiceChange>, l: Link)
    requires DisconnectDetected(s, ip, changes) && l.client.proxy != Some(ip)
    ensures Known(s, changes) && Harmless(changes, changes, s, l)
  {
    DisconnectDetects(s, ip, changes);
    forall ch | ch in changes && !KeepsReplicas(ch) ensures HasAny(s, ch.name) {
      RemovalHasReplica(s, ip, changes, ch);
    }
  }

  lemma RemovalHasReplica(s: Services, ip: Ip, changes: seq<ServiceChange>, ch: ServiceChange)
    requires DisconnectDetected(s, ip, changes) && ch in changes && !KeepsReplicas(ch)
    ensures HasAny(s, ch.name)
  {
    var order: seq<Name> :| Enumerates(order, NamesOnIp(s, ip))
      && changes == RemovalsOnIp(order, ip) + (if NamesOfProxy(s, ip) != {} then [ProxyDisconnected(ip)] else []);
    var k :| 0 <= k < |order| && ch == ReplicasRemoved(order[k], ip);
    assert order[k] in NamesOnIp(s, ip);
    var i :| 0 <= i < |Reps(s, ch.name)|;
    PortSome(Reps(s, ch.name), Reps(s, ch.name)[i].Id());
    assert Port(s, ch.name, Reps(s, ch.name)[i].Id()).Some?;
  }

  /** When a host sends its list, the users that the replicas it no longer names do not concern keep their entries. */
  lemma RegistrationSpares(w: World, ip: Ip, list: seq<Listed>, w': World, l: Link)
    requires Unique(w.services) && ProxyOnce(w.services) && ServicesListRel(w, ip, list, w')
    requires l.client.proxy.Some? && Entry(w.services, l).Some? && Spared(w.services, Unlisted(ip, list), l)
    ensures Entry(w'.services, l) == Entry(w.services, l)
  {
    var s := w.services;
    var changes: seq<ServiceChange>, mid: World :|
      Enumerates(changes, NoLongerListed(s, ip, list)) && ApplyRel(w, changes, mid)
      && w' == mid.(services := AddListed(mid.services, ip, list));
    UnlistedKnown(s, ip, list, changes);
    forall ch | ch in changes ensures ch.ReplicaRemoved? && HasAny(s, ch.name) {
      UnlistedAreKnown(s, ip, list, changes, ch);
    }
    forall n, r | Port(s, n, r).Some? && SomeDrops(changes, n, r) ensures Unlisted(ip, list)(n, r) {
      UnlistedAreDropped(s, ip, list, changes, n, r);
    }
    ApplySpares(w, changes, changes, mid, Unlisted(ip, list), l);
    ApplyPorts(w, changes, mid);
    AddListedPorts(mid.services, ip, list);
  }
}
