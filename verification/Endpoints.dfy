/**
 Whom a teardown of a network tells: both ends of the edge that it was set up for, with their containers, whether an
 entry goes or a setup is aborted (src/nullnet_grpc_impl.rs:605-613, 652-660, src/orchestrator.rs:126-145).
 */
module Endpoints {
  import opened Types
  import opened NetIdPool
  import opened ServiceTable
  import opened Chains
  import opened Teardown
  import opened Changes
  import opened Settlement
  import opened Setup
  import opened ChainSetup
  import opened Requests
  import opened AtomicSetup
  import opened AtomicRequests
  import opened Users
  import opened Runs
  import opened Leaks
  import opened NewNetworks
  import opened Addresses

  /** The teardown tells the place where the client is and the replica, each with its container. */
  ghost predicate Tells(d: Down, l: Link) {
    && (if l.client.proxy.Some? then d.client == l.client.proxy.value && d.clientDocker == None
        else l.client.replica == Some(ReplicaId(d.client, d.clientDocker)))
    && l.at == ReplicaId(d.server, d.serverDocker)
  }

  // ----- setups -----

  /** A setup gives its ID back if its endpoints do not answer, or its service is gone. */
  predicate GivesBack(t: Task, ack: bool) {
    (t.phase.Allocated? && !ack) || t.phase.Releasing?
  }

  /** In every interleaving: a step of a setup tells nobody, or both ends of its own edge, with the ID that it holds. */
  lemma SetupTellsBothEnds(w: World, t: Task, ack: bool, now: nat)
    requires Sourced(t.edge)
    ensures var w' := Advance(w, t, ack, now).0;
      if GivesBack(t, ack) then
        exists d :: w'.downs == w.downs + [d] && Tells(d, t.edge.Link()) && d.netId == t.HeldId()
      else w'.downs == w.downs
  {
    var w' := Advance(w, t, ack, now).0;
    if GivesBack(t, ack) {
      var d := w'.downs[|w.downs|];
      assert w'.downs == w.downs + [d];
    }
  }

  // ----- teardowns -----

  /** The teardown is that of an entry: it goes to the addresses that are stored in it, and to its replica. */
  ghost predicate OfEntry(s: Services, d: Down) {
    exists l :: Entry(s, l).Some? && d.client == Entry(s, l).value.clientIp && d.clientDocker == Entry(s, l).value.docker
      && d.server == l.at.ip && d.serverDocker == l.at.docker && d.netId == Entry(s, l).value.netId
  }

  /** What has been sent since is of entries of `w`. */
  ghost predicate SentOf(w: World, w': World) {
    w.downs <= w'.downs && forall k :: |w.downs| <= k < |w'.downs| ==> OfEntry(w.services, w'.downs[k])
  }

  lemma EntrySent(s: Services, l: Link, d: Down)
    requires Entry(s, l).Some? && d == DownOf(Entry(s, l).value, l.at)
    ensures OfEntry(s, d)
  {
  }

  lemma ShrunkSent(a: Services, b: Services, d: Down)
    requires Shrunk(a, b) && OfEntry(b, d)
    ensures OfEntry(a, d)
  {
    var l :| Entry(b, l).Some? && d.client == Entry(b, l).value.clientIp && d.clientDocker == Entry(b, l).value.docker
      && d.server == l.at.ip && d.serverDocker == l.at.docker && d.netId == Entry(b, l).value.netId;
    assert Entry(a, l).Some? && SameNetwork(Entry(a, l).value, Entry(b, l).value);
  }

  lemma SentOn(w: World, m: World, w': World)
    requires SentOf(w, m) && SentOf(m, w') && Shrunk(w.services, m.services)
    ensures SentOf(w, w')
  {
    forall k | |w.downs| <= k < |w'.downs| ensures OfEntry(w.services, w'.downs[k]) {
      if k < |m.downs| {
        assert w'.downs[k] == m.downs[k];
      } else {
        ShrunkSent(w.services, m.services, w'.downs[k]);
      }
    }
  }

  lemma DecrementSent(w: World, n: Name, c: Client)
    requires Unique(w.services)
    ensures SentOf(w, DecrementChain(w, n, c))
  {
    DecrementSpec(w, n, c);
    var h := Holder(w.services, n, c);
    if h.Some? {
      EntrySent(w.services, Link(c, n, h.value), DownOf(Tab(w.services, n, h.value)[c], h.value));
    }
  }

  lemma {:induction false} DecrementEdgesSent(w: World, edges: seq<(Client, Name)>)
    requires Unique(w.services)
    ensures SentOf(w, DecrementEdges(w, edges))
    decreases |edges|
  {
    if edges != [] {
      var m := DecrementChain(w, edges[0].1, edges[0].0);
      DecrementSent(w, edges[0].1, edges[0].0);
      DecrementShrinks(w, edges[0].1, edges[0].0);
      DecrementEdgesSent(m, edges[1..]);
      SentOn(w, m, DecrementEdges(w, edges));
    }
  }

  lemma {:induction false} DepChainsSent(w: World, n: Name, targets: seq<Target>)
    requires Walkable(w.services, targets) && Unique(w.services)
    ensures SentOf(w, TeardownDepChains(w, n, targets))
    decreases |targets|
  {
    if targets != [] {
      var edges := DepChainEdges(w.services, n, targets[0].at);
      var m := TeardownDepChain(w, n, targets[0].at);
      DecrementEdgesSent(w, edges);
      DecrementEdgesShrink(w, edges);
      DecrementEdgesShape(w, edges);
      ShapeKeepsAcyclic(w.services, m.services);
      DepChainsSent(m, n, targets[1..]);
      SentOn(w, m, TeardownDepChains(w, n, targets));
    }
  }

  lemma ChainSent(w: World, n: Name, f: ProxyFilter, targets: seq<Target>)
    requires Walkable(w.services, targets) && Unique(w.services) && Collected(w.services, n, f, targets)
    ensures SentOf(w, TeardownChain(w, n, targets))
  {
    var cut := TeardownDepChains(w, n, targets);
    DepChainsSent(w, n, targets);
    var sent := FreeUnsharedSpec(cut.(services := RemoveTargets(cut.services, n, targets)), n, targets, {});
    var w' := TeardownChain(w, n, targets);
    forall k | |w.downs| <= k < |w'.downs| ensures OfEntry(w.services, w'.downs[k]) {
      if k < |cut.downs| {
        assert w'.downs[k] == cut.downs[k];
      } else {
        assert w'.downs[k] in sent;
        var t :| t in targets && w'.downs[k] == DownOf(t.info, t.at);
        EntrySent(w.services, t.Link(n), w'.downs[k]);
      }
    }
  }

  lemma OpSent(w: World, op: Op, w': World)
    requires Unique(w.services) && OpRel(w, op, w')
    ensures SentOf(w, w')
  {
    match op
    case ChainOp(n, f) =>
      var targets :| Collected(w.services, n, f, targets) && Walkable(w.services, targets)
        && w' == TeardownChain(w, n, targets);
      ChainSent(w, n, f, targets);
    case BackendOp(n, at, through) =>
      var edges :| BackendEdges(w.services, n, at, through, edges) && w' == DecrementEdges(w, edges);
      DecrementEdgesSent(w, edges);
  }

  lemma {:induction false} OpsSent(w: World, ops: seq<Op>, w': World)
    requires Unique(w.services) && OpsRel(w, ops, w')
    ensures SentOf(w, w')
    decreases |ops|
  {
    if ops != [] {
      var mid := OpsLast(w, ops, w');
      OpsSent(w, ops[..|ops| - 1], mid);
      OpsShrink(w, ops[..|ops| - 1], mid);
      OpSent(mid, ops[|ops| - 1], w');
      SentOn(w, mid, w');
    }
  }

  lemma {:induction false} ApplySent(w: World, changes: seq<ServiceChange>, w': World)
    requires Unique(w.services) && ApplyRel(w, changes, w')
    ensures SentOf(w, w')
    decreases |changes|
  {
    if changes != [] {
      var before, last := changes[..|changes| - 1], changes[|changes| - 1];
      var mid :| ApplyRel(w, before, mid) && ChangeRel(mid, last, w');
      ApplySent(w, before, mid);
      ApplyShrinks(w, before, mid);
      var ops, cut: World :| Plan(mid, last, ops, cut) && OpsRel(mid, ops, cut)
        && w' == cut.(services := Finish(mid.services, cut.services, last));
      OpsSent(mid, ops, cut);
      assert SentOf(mid, w');
      SentOn(w, mid, w');
    }
  }

  /** A stored address is where the client of the entry is. */
  lemma EntryTells(net: NetType, s: Services, d: Down) returns (l: Link)
    requires Addressed(net, s) && OfEntry(s, d) && d.netId != 0
    ensures Tells(d, l) && NetAt(s, l) == d.netId
  {
    l :| Entry(s, l).Some? && d.client == Entry(s, l).value.clientIp && d.clientDocker == Entry(s, l).value.docker
      && d.server == l.at.ip && d.serverDocker == l.at.docker && d.netId == Entry(s, l).value.netId;
    assert Placed(net, l, Entry(s, l).value);
  }

  // ----- a chain setup that runs alone -----

  /** The teardown tells both ends of an entry's network, or of an edge of the chain whose network was not in use. */
  ghost predicate Proper(w: World, edges: seq<RegisteredEdge>, d: Down) {
    d.netId != 0 ==> exists l :: Tells(d, l) && IsOfLink(w, edges, l, d.netId)
  }

  ghost predicate IsOfLink(w: World, edges: seq<RegisteredEdge>, l: Link, id: nat) {
    NetAt(w.services, l) == id || (OnChain(edges, l) && !Live(w.pool, id))
  }

  ghost predicate SentProperly(w: World, edges: seq<RegisteredEdge>, w': World) {
    w.downs <= w'.downs && forall k :: |w.downs| <= k < |w'.downs| ==> Proper(w, edges, w'.downs[k])
  }

  lemma StepSends(w0: World, edges: seq<RegisteredEdge>, x: ChainState, y: ChainState, start: nat)
    requires AllSourced(edges) && NewSince(w0, edges, x) && ChainStep(x, y, start)
    requires SentProperly(w0, edges, x.world)
    ensures SentProperly(w0, edges, y.world)
  {
    var k: nat, ack, now :| start <= now && k < |x.tasks| && !x.tasks[k].Done() && y == StepOf(x, k, ack, now);
    var t := x.tasks[k];
    SetupTellsBothEnds(x.world, t, ack, now);
    if GivesBack(t, ack) {
      var d :| y.world.downs == x.world.downs + [d] && Tells(d, t.edge.Link()) && d.netId == t.HeldId();
      assert OnChain(edges, edges[k].Link()) && t.edge.Link() == edges[k].Link();
      assert Proper(w0, edges, d);
      forall j | |w0.downs| <= j < |y.world.downs| ensures Proper(w0, edges, y.world.downs[j]) {
        assert j < |x.world.downs| ==> y.world.downs[j] == x.world.downs[j];
      }
    }
  }

  lemma {:induction false} TraceSends(w0: World, edges: seq<RegisteredEdge>, trace: seq<ChainState>, start: nat)
    requires Orderly(w0) && AllSourced(edges) && ChainTrace(trace, start) && trace[0] == ChainState(w0, Spawn(edges))
    ensures SentProperly(w0, edges, trace[|trace| - 1].world)
    decreases |trace|
  {
    if |trace| > 1 {
      TracePrefix(trace, start);
      TraceSends(w0, edges, trace[..|trace| - 1], start);
      TraceNew(w0, trace[..|trace| - 1], edges, start);
      StepSends(w0, edges, trace[|trace| - 2], trace[|trace| - 1], start);
    }
  }

  lemma RollbackSends(w0: World, edges: seq<RegisteredEdge>, m: World, w': World)
    requires SentProperly(w0, edges, m) && SentOf(m, w') && Addressed(w0.pool.net, m.services)
    requires NetsNew(w0.pool, w0.services, m.services, edges)
    ensures SentProperly(w0, edges, w')
  {
    forall k | |w0.downs| <= k < |w'.downs| ensures Proper(w0, edges, w'.downs[k]) {
      var d := w'.downs[k];
      if k < |m.downs| {
        assert d == m.downs[k];
      } else if d.netId != 0 {
        var l := EntryTells(w0.pool.net, m.services, d);
        assert OldOrNew(w0.pool, w0.services, m.services, edges, l);
      }
    }
  }

  lemma ChainSetupSends(w: World, edges: seq<RegisteredEdge>, user: nat, start: nat, w': World, ok: bool,
                        upstream: Option<Ipv4>)
    requires Orderly(w) && OneUser(w.services, edges, user) && AllSourced(edges) && Addressed(w.pool.net, w.services)
    requires ChainSetupRel(w, edges, start, w', ok, upstream)
    ensures SentProperly(w, edges, w')
  {
    var trace: seq<ChainState> :|
      && ChainTrace(trace, start)
      && trace[0] == ChainState(w, Spawn(edges))
      && AllDone(trace[|trace| - 1].tasks)
      && Concluded(trace[|trace| - 1], w', ok, upstream);
    var last := trace[|trace| - 1];
    TraceSends(w, edges, trace, start);
    if !ok {
      var order :| Successful(last.tasks, order) && w' == DecrementEdges(last.world, EdgesAt(last.tasks, order));
      TraceAddressed(w, edges, user, trace, start);
      TraceNew(w, trace, edges, start);
      DecrementEdgesSent(last.world, EdgesAt(last.tasks, order));
      RollbackSends(w, edges, last.world, w');
    }
  }

  // ----- whole runs -----

  /** The edges of the chain that the event asks for, if it asks for one. */
  ghost function AskedFor(s: Services, event: Event): seq<RegisteredEdge> {
    match event
    case Serve(req, _) =>
      var at := PickReplica(s, req.service);
      if at.Some? && ChainFor(s, req, at.value).Some? then ChainFor(s, req, at.value).value else []
    case Trigger(n, port, sender, _) =>
      var at := ReplicaOn(Reps(s, n), sender);
      if at.Some? && TriggeredEdges(s, n, at.value, port).Some? then TriggeredEdges(s, n, at.value, port).value else []
    case _ => []
  }

  lemma NothingSent(w: World, edges: seq<RegisteredEdge>, w': World)
    requires w'.downs == w.downs
    ensures SentProperly(w, edges, w')
  {
  }

  lemma EntriesSent(w: World, edges: seq<RegisteredEdge>, w': World)
    requires Addressed(w.pool.net, w.services) && SentOf(w, w')
    ensures SentProperly(w, edges, w')
  {
    forall k | |w.downs| <= k < |w'.downs| ensures Proper(w, edges, w'.downs[k]) {
      if w'.downs[k].netId != 0 {
        var l := EntryTells(w.pool.net, w.services, w'.downs[k]);
      }
    }
  }

  lemma RequestSends(w: World, req: Request, now: nat, w': World, answer: Answer)
    requires Orderly(w) && Addressed(w.pool.net, w.services) && RequestRel(w, req, now, w', answer)
    ensures SentProperly(w, AskedFor(w.services, Serve(req, now)), w')
  {
    var s, n, pick := w.services, req.service, PickReplica(w.services, req.service);
    var edges := AskedFor(s, Serve(req, now));
    if n in s && s[n].config.timeout.Some? && s[n].Registered? && !HasHolder(s, req) && !MustShare(s, n, req.proxy)
      && pick.Some? && ChainFor(s, req, pick.value).Some? {
      NewChainSends(w, req, now, w', answer);
    } else {
      NothingSent(w, edges, w');
    }
  }

  lemma NewChainSends(w: World, req: Request, now: nat, w': World, answer: Answer)
    requires Orderly(w) && Addressed(w.pool.net, w.services) && NewChainRel(w, req, now, w', answer)
    requires !HasHolder(w.services, req)
    requires var pick := PickReplica(w.services, req.service); pick.Some? && ChainFor(w.services, req, pick.value).Some?
    ensures SentProperly(w, ChainFor(w.services, req, PickReplica(w.services, req.service).value).value, w')
  {
    var s, at := w.services, PickReplica(w.services, req.service).value;
    var edges := ChainFor(s, req, at).value;
    var ok, upstream :| ChainSetupRel(w, edges, now, w', ok, upstream)
      && answer == ChainAnswer(ok, upstream, Port(s, req.service, at));
    PickedIsThere(s, req.service);
    ChainForHasOneUser(s, req, at);
    ChainForSourced(s, req, at);
    ChainSetupSends(w, edges, |edges| - 1, now, w', ok, upstream);
  }

  lemma TriggerSends(w: World, n: Name, port: nat, sender: Ip, now: nat, w': World)
    requires Orderly(w) && Addressed(w.pool.net, w.services) && TriggerRel(w, n, port, sender, now, w')
    ensures SentProperly(w, AskedFor(w.services, Trigger(n, port, sender, now)), w')
  {
    var s, edges := w.services, AskedFor(w.services, Trigger(n, port, sender, now));
    if w' == w {
      NothingSent(w, edges, w');
    } else {
      var at := ReplicaOn(Reps(s, n), sender).value;
      var ok, upstream :| ChainSetupRel(w, edges, now, w', ok, upstream);
      TriggeredAreServices(s, n, at, port);
      TriggeredAreSourced(s, n, at, port);
      ChainSetupSends(w, edges, |edges|, now, w', ok, upstream);
    }
  }

  lemma EventSends(w: World, event: Event, w': World)
    requires Orderly(w) && Addressed(w.pool.net, w.services) && EventRel(w, event, w')
    ensures SentProperly(w, AskedFor(w.services, event), w')
  {
    match event
    case Serve(req, now) =>
      var answer :| RequestRel(w, req, now, w', answer);
      RequestSends(w, req, now, w', answer);
    case Trigger(n, port, sender, now) => TriggerSends(w, n, port, sender, now, w');
    case Expire(now) =>
      var changes :| TimeoutsDetected(w.services, now, changes) && ApplyRel(w, changes, w');
      ApplySent(w, changes, w');
      EntriesSent(w, [], w');
    case Disconnect(ip) =>
      var changes :| DisconnectDetected(w.services, ip, changes) && ApplyRel(w, changes, w');
      ApplySent(w, changes, w');
      EntriesSent(w, [], w');
    case Register(ip, list) =>
      var changes: seq<ServiceChange>, mid: World :|
        Enumerates(changes, NoLongerListed(w.services, ip, list)) && ApplyRel(w, changes, mid)
        && w' == mid.(services := AddListed(mid.services, ip, list));
      ApplySent(w, changes, mid);
      EntriesSent(w, [], mid);
    case Reload(loaded, now) =>
      var changes, mid: World :| ConfigDetected(w.services, loaded, now, changes) && ApplyRel(w, changes, mid)
        && w' == mid.(services := Merge(mid.services, loaded));
      ApplySent(w, changes, mid);
      EntriesSent(w, [], mid);
  }

  /** The teardown was sent between the two states, by an event, and told both ends. */
  ghost predicate SentBetween(a: World, b: World, d: Down) {
    exists event :: EventRel(a, event, b) && Proper(a, AskedFor(a.services, event), d)
  }

  lemma LastTells(run: seq<World>, k: nat)
    requires AtomicRun(run) && |run| > 1 && |run[|run| - 2].downs| <= k < |run[|run| - 1].downs|
    ensures SentBetween(run[|run| - 2], run[|run| - 1], run[|run| - 1].downs[k])
  {
    var before, last := run[..|run| - 1], |run| - 1;
    Shorter(run);
    RunsAreOrderly(before);
    RunsAreAddressed(before);
    assert before[last - 1] == run[last - 1];
    assert Step(run[last - 1], run[last]);
    var event :| EventRel(run[last - 1], event, run[last]);
    EventSends(run[last - 1], event, run[last]);
  }

  lemma DownsStay(run: seq<World>)
    requires AtomicRun(run) && |run| > 1
    ensures run[|run| - 2].downs <= run[|run| - 1].downs
  {
    var before, last := run[..|run| - 1], |run| - 1;
    Shorter(run);
    RunsAreOrderly(before);
    RunsAreAddressed(before);
    assert before[last - 1] == run[last - 1];
    assert Step(run[last - 1], run[last]);
    var event :| EventRel(run[last - 1], event, run[last]);
    EventSends(run[last - 1], event, run[last]);
  }

  lemma SentEarlier(run: seq<World>, before: seq<World>, k: nat, i: nat)
    requires |run| > 1 && before == run[..|run| - 1] && 0 < i < |before|
    requires before[|before| - 1].downs <= run[|run| - 1].downs && k < |before[|before| - 1].downs|
    requires SentBetween(before[i - 1], before[i], before[|before| - 1].downs[k])
    ensures SentBetween(run[i - 1], run[i], run[|run| - 1].downs[k])
  {
    assert before[i - 1] == run[i - 1] && before[i] == run[i];
  }

  /**
   In every run, whatever network is taken down, by whatever event, both of its ends are told: those of an entry that
   was on it, or of an edge of the chain that was asked for, whose setup had just taken the ID.
   */
  lemma {:induction false} TeardownsTellBothEnds(run: seq<World>, k: nat) returns (i: nat)
    requires AtomicRun(run) && k < |run[|run| - 1].downs|
    ensures 0 < i < |run| && SentBetween(run[i - 1], run[i], run[|run| - 1].downs[k])
    decreases |run|
  {
    i := |run| - 1;
    if |run| > 1 {
      if k < |run[|run| - 2].downs| {
        var before := run[..|run| - 1];
        Shorter(run);
        DownsStay(run);
        i := TeardownsTellBothEnds(before, k);
        SentEarlier(run, before, k, i);
      } else {
        LastTells(run, k);
      }
    }
  }
}
