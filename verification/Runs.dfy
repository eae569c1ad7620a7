/** Whole runs of the control plane in which requests, triggers and changes are handled one at a time. */
module Runs {
  import opened Types
  import opened NetIdPool
  import opened ServiceTable
  import opened Teardown
  import opened Changes
  import opened Reconcile
  import opened Settlement
  import opened Requests
  import opened AtomicSetup
  import opened AtomicRequests
  import opened Flow
  import opened Conservation
  import opened Cascade
  import opened FlowChanges
  import opened FlowRequests
  import Interleaving
  import Users

  datatype Event =
    | Serve(req: Request, now: nat)
    | Trigger(name: Name, port: nat, sender: Ip, now: nat)
    | Expire(now: nat)
    | Disconnect(ip: Ip)
    | Register(ip: Ip, list: seq<Listed>)
    | Reload(loaded: Services, now: nat)

  ghost predicate EventRel(w: World, event: Event, w': World) {
    match event
    case Serve(req, now) => exists answer :: RequestRel(w, req, now, w', answer)
    case Trigger(n, port, sender, now) => TriggerRel(w, n, port, sender, now, w')
    case Expire(now) => TimeoutsRel(w, now, w')
    case Disconnect(ip) => DisconnectRel(w, ip, w')
    case Register(ip, list) => ServicesListRel(w, ip, list, w')
    case Reload(loaded, now) => FromFile(loaded) && ReloadRel(w, loaded, now, w')
  }

  ghost predicate Step(w: World, w': World) {
    exists event :: EventRel(w, event, w')
  }

  ghost predicate Initial(w: World) {
    FromFile(w.services) && w.pool == Fresh(w.pool.net) && w.downs == []
  }

  ghost predicate AtomicRun(run: seq<World>) {
    && run != [] && Initial(run[0])
    && forall i :: 0 < i < |run| ==> Step(run[i - 1], run[i])
  }

  lemma Shorter(run: seq<World>)
    requires AtomicRun(run) && |run| > 1
    ensures AtomicRun(run[..|run| - 1])
  {
    var before := run[..|run| - 1];
    forall i | 0 < i < |before| ensures Step(before[i - 1], before[i]) {
      assert before[i - 1] == run[i - 1] && before[i] == run[i];
    }
  }

  // ----- every configuration -----

  lemma SameTablesOrderly(w: World, s: Services)
    requires Orderly(w) && Unique(s) && forall n, r :: Tab(s, n, r) == Tab(w.services, n, r)
    ensures Orderly(w.(services := s))
  {
    Interleaving.SameEntries(w.services, s);
    forall l: Link | l.client.proxy.Some? && Entry(s, l).Some? ensures Entry(s, l).value.serverNet != UNSPECIFIED {
      assert Entry(w.services, l) == Entry(s, l);
    }
  }

  lemma ApplyOrderly(w: World, changes: seq<ServiceChange>, w': World)
    requires Orderly(w) && ApplyRel(w, changes, w')
    ensures Orderly(w') && w'.pool.net == w.pool.net && Shrunk(w.services, w'.services)
  {
    var sent := Interleaving.ApplySettles(w, changes, w');
    SettledOrderly(w, w', sent);
  }

  lemma EventOrderly(w: World, event: Event, w': World)
    requires Orderly(w) && EventRel(w, event, w')
    ensures Orderly(w') && w'.pool.net == w.pool.net
    ensures !event.Serve? && !event.Trigger? ==> Shrunk(w.services, w'.services)
  {
    match event
    case Serve(req, now) =>
      var answer :| RequestRel(w, req, now, w', answer);
      RequestIsOrderly(w, req, now, w', answer);
    case Trigger(n, port, sender, now) => TriggerIsOrderly(w, n, port, sender, now, w');
    case Expire(now) =>
      var changes :| TimeoutsDetected(w.services, now, changes) && ApplyRel(w, changes, w');
      ApplyOrderly(w, changes, w');
    case Disconnect(ip) =>
      var changes :| DisconnectDetected(w.services, ip, changes) && ApplyRel(w, changes, w');
      ApplyOrderly(w, changes, w');
    case Register(ip, list) => RegisterOrderly(w, ip, list, w');
    case Reload(loaded, now) => ReloadOrderly(w, loaded, now, w');
  }

  lemma RegisterOrderly(w: World, ip: Ip, list: seq<Listed>, w': World)
    requires Orderly(w) && ServicesListRel(w, ip, list, w')
    ensures Orderly(w') && w'.pool.net == w.pool.net && Shrunk(w.services, w'.services)
  {
    var changes: seq<ServiceChange>, mid: World :|
      Enumerates(changes, NoLongerListed(w.services, ip, list)) && ApplyRel(w, changes, mid)
      && w' == mid.(services := AddListed(mid.services, ip, list));
    ApplyOrderly(w, changes, mid);
    AddListedPorts(mid.services, ip, list);
    SameTablesOrderly(mid, w'.services);
    SameTablesShrunk(w.services, mid.services, w'.services);
  }

  lemma SameTablesShrunk(a: Services, m: Services, b: Services)
    requires Shrunk(a, m) && forall n, r :: Tab(b, n, r) == Tab(m, n, r)
    ensures Shrunk(a, b)
  {
    forall l | Entry(b, l).Some? ensures Entry(a, l).Some? && SameNetwork(Entry(a, l).value, Entry(b, l).value) {
      assert Entry(m, l) == Entry(b, l);
    }
  }

  lemma ReloadOrderly(w: World, loaded: Services, now: nat, w': World)
    requires Orderly(w) && FromFile(loaded) && ReloadRel(w, loaded, now, w')
    ensures Orderly(w') && w'.pool.net == w.pool.net && Shrunk(w.services, w'.services)
  {
    var changes, mid: World :| ConfigDetected(w.services, loaded, now, changes) && ApplyRel(w, changes, mid)
      && w' == mid.(services := Merge(mid.services, loaded));
    ApplyOrderly(w, changes, mid);
    Interleaving.MergeReps(mid.services, loaded);
    SameTablesOrderly(mid, w'.services);
    SameTablesShrunk(w.services, mid.services, w'.services);
  }

  lemma StepOrderly(w: World, w': World)
    requires Orderly(w) && Step(w, w')
    ensures Orderly(w')
  {
    var event :| EventRel(w, event, w');
    EventOrderly(w, event, w');
  }

  lemma InitiallyEmpty(w: World)
    requires Initial(w)
    ensures Orderly(w) && (forall l :: Entry(w.services, l).None?) && forall id: nat :: !Live(w.pool, id)
  {
    Interleaving.FreshTable(w.services);
  }

  /**
   In every run networks are shared only between users of one proxy on one replica, every user is on one replica of a
   service, with its network, and every network of an entry is in use in the pool.
   */
  lemma {:induction false} RunsAreOrderly(run: seq<World>)
    requires AtomicRun(run)
    ensures forall i :: 0 <= i < |run| ==> Orderly(run[i])
    decreases |run|
  {
    InitiallyEmpty(run[0]);
    if |run| > 1 {
      var before, last := run[..|run| - 1], |run| - 1;
      Shorter(run);
      RunsAreOrderly(before);
      assert before[last - 1] == run[last - 1];
      assert Step(run[last - 1], run[last]);
      StepOrderly(run[last - 1], run[last]);
      forall i | 0 <= i < |run| ensures Orderly(run[i]) {
        assert i < last ==> before[i] == run[i];
      }
    }
  }

  // ----- the flow regime -----

  lemma SettledExact(w: World, w': World, sent: seq<Down>)
    requires Exact(w) && Sound(w'.services) && Settles(w, w', sent) && NoLeak(w, w', sent)
    ensures Exact(w')
  {
    SettledPool(w, w', sent);
  }

  lemma EventExact(w: World, event: Event, w': World)
    requires Exact(w) && EventRel(w, event, w') && InRegime(w'.services)
    ensures Exact(w')
  {
    match event
    case Serve(req, now) =>
      var answer :| RequestRel(w, req, now, w', answer);
      RequestKeepsFlow(w, req, now, w', answer);
    case Trigger(n, port, sender, now) => TriggerKeepsExact(w, n, port, sender, now, w');
    case Expire(now) =>
      var sent := TimeoutsKeepFlow(w, now, w');
      SettledExact(w, w', sent);
    case Disconnect(ip) =>
      var sent := DisconnectKeepsFlow(w, ip, w');
      SettledExact(w, w', sent);
    case Register(ip, list) =>
      var sent := ServicesListKeepsFlow(w, ip, list, w');
      SettledExact(w, w', sent);
    case Reload(loaded, now) =>
      var sent := ReloadKeepsFlow(w, loaded, now, w');
      SettledExact(w, w', sent);
  }

  lemma StepExact(w: World, w': World)
    requires Exact(w) && Step(w, w') && InRegime(w'.services)
    ensures Exact(w')
  {
    var event :| EventRel(w, event, w');
    EventExact(w, event, w');
  }

  lemma InitiallyExact(w: World)
    requires Initial(w) && InRegime(w.services)
    ensures Exact(w)
  {
    InitiallyEmpty(w);
    forall n, c: Client, r, q | c.proxy.Some? && c in Tab(w.services, n, r) && c in Tab(w.services, n, q) ensures r == q {
      assert Entry(w.services, Link(c, n, r)).None?;
    }
    forall n, r ensures !HasRep(w.services, n, r) {}
  }

  lemma LastExact(run: seq<World>)
    requires AtomicRun(run) && |run| > 1 && Exact(run[|run| - 2]) && InRegime(run[|run| - 1].services)
    ensures Exact(run[|run| - 1])
  {
    assert Step(run[|run| - 2], run[|run| - 1]);
    StepExact(run[|run| - 2], run[|run| - 1]);
  }

  lemma {:induction false} EndIsExact(run: seq<World>)
    requires AtomicRun(run) && forall i :: 0 <= i < |run| ==> InRegime(run[i].services)
    ensures Exact(run[|run| - 1])
    decreases |run|
  {
    if |run| == 1 {
      InitiallyExact(run[0]);
    } else {
      var before := run[..|run| - 1];
      Shorter(run);
      forall i | 0 <= i < |before| ensures InRegime(before[i].services) {
        assert before[i] == run[i];
      }
      EndIsExact(before);
      assert before[|before| - 1] == run[|run| - 2];
      LastExact(run);
    }
  }

  lemma Prefix(run: seq<World>, i: nat)
    requires AtomicRun(run) && i < |run|
    ensures AtomicRun(run[..i + 1])
  {
    var before := run[..i + 1];
    forall k | 0 < k < |before| ensures Step(before[k - 1], before[k]) {
      assert before[k - 1] == run[k - 1] && before[k] == run[k];
    }
  }

  /**
   In every run whose configurations stay in the flow regime, the flow is conserved everywhere and the IDs in use are
   exactly those of the entries.
   */
  lemma RunsAreExact(run: seq<World>)
    requires AtomicRun(run) && forall i :: 0 <= i < |run| ==> InRegime(run[i].services)
    ensures forall i :: 0 <= i < |run| ==> Exact(run[i])
  {
    forall i | 0 <= i < |run| ensures Exact(run[i]) {
      Prefix(run, i);
      EndIsExact(run[..i + 1]);
    }
  }

  /**
   After a disconnect no service has a replica on the node, no user of its proxy is left, and in the flow regime no
   entry comes from one of its replicas; replicas on other nodes stay.
   */
  lemma DisconnectIsComplete(w: World, ip: Ip, w': World)
    requires Orderly(w) && DisconnectRel(w, ip, w')
    ensures forall n, r: ReplicaId :: Port(w'.services, n, r) == if r.ip == ip then None else Port(w.services, n, r)
    ensures forall l: Link :: l.client.proxy == Some(ip) ==> Entry(w'.services, l).None?
    ensures Exact(w) ==> forall l: Link, q: ReplicaId ::
      l.client.proxy.None? && l.client.replica == Some(q) && q.ip == ip ==> Entry(w'.services, l).None?
  {
    DisconnectRemovesReplicas(w, ip, w');
    Users.DisconnectRemovesUsers(w, ip, w');
    if Exact(w) {
      var sent := DisconnectKeepsFlow(w, ip, w');
    }
  }

  // ----- what exactness means -----

  /** Without users and trigger chains there are no entries and no IDs in use. */
  lemma NothingWithoutRoots(w: World)
    requires Exact(w) && forall l :: !IsOut(w.services, l) ==> Entry(w.services, l).None?
    ensures forall l :: Entry(w.services, l).None?
    ensures forall id: nat :: !Live(w.pool, id)
    ensures |LiveIds(w.pool)| == 0
  {
    forall l ensures Entry(w.services, l).None? {
      assert NoRootsThrough(w.services, l.server);
      NothingThrough(w.services, l.server);
      assert Involves(w.services, l.server, l.server);
    }
    forall id: nat ensures !Held(w.services, id) {}
    assert forall id: nat :: id in LiveIds(w.pool) <==> Live(w.pool, id);
    assert LiveIds(w.pool) == {};
  }

  /** If no triggers are configured, no users is enough. */
  lemma NothingWithoutUsers(w: World)
    requires Exact(w) && forall l: Link :: l.client.proxy.Some? ==> Entry(w.services, l).None?
    requires forall n :: n in w.services ==> w.services[n].config.triggers == map[]
    ensures forall l :: Entry(w.services, l).None?
    ensures forall id: nat :: !Live(w.pool, id)
    ensures |LiveIds(w.pool)| == 0
  {
    forall l: Link | !IsOut(w.services, l) ensures Entry(w.services, l).None? {
      if Entry(w.services, l).Some? {
        assert LinkOk(w.services, l, Entry(w.services, l).value);
      }
    }
    NothingWithoutRoots(w);
  }

  /** The clients of a replica that are services. */
  function ServiceClients(m: map<Client, ClientInfo>): map<Client, ClientInfo> {
    map c | c in m && c.proxy.None? :: m[c]
  }

  lemma {:induction false} TotalSplits(m: map<Client, ClientInfo>)
    requires forall c: Client :: c in m && c.proxy.Some? ==> m[c].activeChains == 1
    ensures Total(m) == |UserKeys(m)| + Total(ServiceClients(m))
    decreases |m|
  {
    if UserKeys(m) != {} {
      var c :| c in UserKeys(m);
      TotalWithout(m, c);
      WithoutUser(m, c);
      TotalSplits(m - {c});
    } else {
      NoUserKeys(m);
    }
  }

  lemma WithoutUser(m: map<Client, ClientInfo>, c: Client)
    requires c in UserKeys(m)
    ensures |UserKeys(m)| == |UserKeys(m - {c})| + 1 && ServiceClients(m - {c}) == ServiceClients(m)
  {
    assert UserKeys(m) == UserKeys(m - {c}) + {c};
  }

  lemma NoUserKeys(m: map<Client, ClientInfo>)
    requires UserKeys(m) == {}
    ensures ServiceClients(m) == m
  {
    forall c | c in m ensures c.proxy.None? {
      assert c !in UserKeys(m);
    }
  }

  /**
   The number of chains on the outgoing edge of a replica is the number of its users plus the chains on its incoming
   service edges, and no entry has a count of zero.
   */
  lemma FlowIsConserved(w: World, n: Name, r: ReplicaId)
    requires Exact(w) && HasRep(w.services, n, r)
    ensures Deps(w.services, n) != [] ==>
      Load(w.services, OutLink(w.services, n, r)) ==
      |UserKeys(Tab(w.services, n, r))| + Total(ServiceClients(Tab(w.services, n, r)))
    ensures forall c :: c in Tab(w.services, n, r) ==> Tab(w.services, n, r)[c].activeChains >= 1
  {
    var s, m := w.services, Tab(w.services, n, r);
    forall c | c in m ensures m[c].activeChains >= 1 && (c.proxy.Some? ==> m[c].activeChains == 1) {
      assert LinkOk(s, Link(c, n, r), Entry(s, Link(c, n, r)).value);
    }
    TotalSplits(m);
    VisibleAmount(s, n, r, {}, ServiceClient(n, r));
    assert Visible(s, n, r, {}) == m;
  }
}
