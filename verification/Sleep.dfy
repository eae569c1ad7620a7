/**
 The timeout loop sleeps while everything else goes on (src/timeout.rs:15-25). No critical section that runs during the
 sleep brings an expiry before its end; a reload wakes the loop, so it is the one thing that does not happen.
 */
module Sleep {
  import opened Types
  import opened ServiceTable
  import opened Chains
  import opened Teardown
  import opened Changes
  import opened Reconcile
  import opened Settlement
  import opened Setup
  import opened Requests
  import opened Users
  import opened AtomicSetup
  import opened AtomicRequests
  import opened Runs
  import opened Timeout
  import Interleaving

  // ----- time stamps -----

  lemma SameStamps(s: Services, from: nat)
    ensures SleptThrough(s, s, from)
  {
  }

  lemma SleptTrans(a: Services, m: Services, b: Services, from: nat)
    requires SleptThrough(a, m, from) && SleptThrough(m, b, from)
    ensures SleptThrough(a, b, from)
  {
    forall l | Entry(b, l).Some? && Entry(b, l).value.latest < from
      ensures Entry(a, l).Some? && Entry(b, l).value.latest >= Entry(a, l).value.latest
    {
      assert Entry(m, l).Some?;
    }
  }

  lemma ShrunkStamps(a: Services, b: Services, from: nat)
    requires Shrunk(a, b)
    ensures Stamped(a, b, from)
  {
    forall l | Entry(b, l).Some? ensures Entry(a, l).Some? && Entry(b, l).value.latest == Entry(a, l).value.latest {
      assert SameNetwork(Entry(a, l).value, Entry(b, l).value);
    }
  }

  lemma PutSleeps(a: Services, b: Services, l: Link, v: Option<ClientInfo>, from: nat)
    requires Put(a, b, l, v) && (v.Some? ==> from <= v.value.latest)
    ensures SleptThrough(a, b, from)
  {
    PutEntries(a, b, l, v);
  }

  lemma AddChainSleeps(s: Services, n: Name, c: Client, now: nat, from: nat)
    requires Unique(s) && from <= now
    ensures SleptThrough(s, ServiceTable.AddChain(s, n, c, now), from) && Unique(ServiceTable.AddChain(s, n, c, now))
  {
    AddChainSpec(s, n, c, now);
    AddChainShape(s, n, c, now);
    var h := Holder(s, n, c);
    if h.Some? {
      PutSleeps(s, ServiceTable.AddChain(s, n, c, now), Link(c, n, h.value),
                Some(Tab(s, n, h.value)[c].AddActiveChain(now)), from);
    } else {
      SameStamps(s, from);
    }
  }

  lemma AddClientSleeps(s: Services, n: Name, r: ReplicaId, c: Client, info: ClientInfo, from: nat)
    requires Unique(s) && from <= info.latest
    ensures SleptThrough(s, AddClientToReplica(s, n, r, c, info), from) && Unique(AddClientToReplica(s, n, r, c, info))
  {
    AddClientSpec(s, n, r, c, info);
    AddClientShape(s, n, r, c, info);
    if HasRep(s, n, r) {
      PutSleeps(s, AddClientToReplica(s, n, r, c, info), Link(c, n, r), Some(info), from);
    } else {
      SameStamps(s, from);
    }
  }

  lemma RemoveClientSleeps(s: Services, n: Name, c: Client, from: nat)
    requires Unique(s)
    ensures SleptThrough(s, RemoveClient(s, n, c), from)
  {
    RemoveClientSpec(s, n, c);
    if Holder(s, n, c).Some? {
      PutSleeps(s, RemoveClient(s, n, c), Link(c, n, Holder(s, n, c).value), None, from);
    } else {
      SameStamps(s, from);
    }
  }

  lemma SetLatestSleeps(s: Services, n: Name, c: Client, now: nat, from: nat)
    requires Unique(s) && from <= now
    ensures SleptThrough(s, SetLatest(s, n, c, now), from) && Unique(SetLatest(s, n, c, now))
  {
    SetLatestSpec(s, n, c, now);
    var h := Holder(s, n, c);
    if h.Some? {
      ShapeFacts(s, SetLatest(s, n, c, now));
      PutSleeps(s, SetLatest(s, n, c, now), Link(c, n, h.value), Some(Tab(s, n, h.value)[c].(latest := now)), from);
    } else {
      SameStamps(s, from);
    }
  }

  lemma {:induction false} AddChainsSleep(s: Services, edges: seq<(Client, Name)>, now: nat, from: nat)
    requires Unique(s) && from <= now
    ensures SleptThrough(s, AddChains(s, edges, now), from) && Unique(AddChains(s, edges, now))
    decreases |edges|
  {
    if edges == [] {
      SameStamps(s, from);
    } else {
      var m := ServiceTable.AddChain(s, edges[0].1, edges[0].0, now);
      AddChainSleeps(s, edges[0].1, edges[0].0, now, from);
      AddChainsSleep(m, edges[1..], now, from);
      SleptTrans(s, m, AddChains(m, edges[1..], now), from);
    }
  }

  /** Every critical section of an edge setup stamps what it writes with its own time. */
  lemma AdvanceSleeps(w: World, t: Task, ack: bool, now: nat, from: nat)
    requires Unique(w.services) && from <= now
    ensures SleptThrough(w.services, Advance(w, t, ack, now).0.services, from)
    ensures Unique(Advance(w, t, ack, now).0.services)
  {
    var e, s := t.edge, w.services;
    AdvanceShape(w, t, ack, now);
    ShapeFacts(s, Advance(w, t, ack, now).0.services);
    SameStamps(s, from);
    match t.phase
    case Start =>
      AddChainSleeps(s, e.server, e.client, now, from);
      AddClientSleeps(s, e.server, e.at, e.client, Placeholder(e.clientIp, now), from);
    case Allocated(id) =>
      var info := Committed(w.pool.net, e, id, now);
      var m := AddClientToReplica(s, e.server, e.at, e.client, info);
      AddClientSleeps(s, e.server, e.at, e.client, info, from);
      AddChainSleeps(m, e.server, e.client, now, from);
      SleptTrans(s, m, ServiceTable.AddChain(m, e.server, e.client, now), from);
    case Aborting => RemoveClientSleeps(s, e.server, e.client, from);
    case _ =>
  }

  lemma RollbackSleeps(w: World, edges: seq<(Client, Name)>, from: nat)
    requires Unique(w.services)
    ensures SleptThrough(w.services, DecrementEdges(w, edges).services, from)
    ensures Unique(DecrementEdges(w, edges).services)
  {
    DecrementEdgesShrink(w, edges);
    DecrementEdgesShape(w, edges);
    ShrunkStamps(w.services, DecrementEdges(w, edges).services, from);
  }

  // ----- changes -----

  lemma FinishConfigs(s0: Services, s: Services, change: ServiceChange)
    ensures ConfigsStay(s, Finish(s0, s, change))
  {
  }

  lemma ChangeConfigs(w: World, change: ServiceChange, w': World)
    requires ChangeRel(w, change, w')
    ensures ConfigsStay(w.services, w'.services)
  {
    var ops, mid: World :| Plan(w, change, ops, mid) && OpsRel(w, ops, mid)
      && w' == mid.(services := Finish(w.services, mid.services, change));
    OpsShape(w, ops, mid);
    FinishConfigs(w.services, mid.services, change);
  }

  lemma {:induction false} ApplyConfigs(w: World, changes: seq<ServiceChange>, w': World)
    requires ApplyRel(w, changes, w')
    ensures ConfigsStay(w.services, w'.services)
    decreases |changes|
  {
    if changes != [] {
      var before, last := changes[..|changes| - 1], changes[|changes| - 1];
      var mid :| ApplyRel(w, before, mid) && ChangeRel(mid, last, w');
      ApplyConfigs(w, before, mid);
      ChangeConfigs(mid, last, w');
    }
  }

  lemma ApplySleeps(w: World, changes: seq<ServiceChange>, w': World, from: nat)
    requires Unique(w.services) && ApplyRel(w, changes, w')
    ensures SleptThrough(w.services, w'.services, from) && Unique(w'.services)
  {
    ApplyShrinks(w, changes, w');
    ApplyConfigs(w, changes, w');
    ShrunkStamps(w.services, w'.services, from);
  }

  lemma ListedSleeps(s: Services, ip: Ip, list: seq<Listed>, from: nat)
    requires Unique(s)
    ensures SleptThrough(s, AddListed(s, ip, list), from) && Unique(AddListed(s, ip, list))
  {
    AddListedPorts(s, ip, list);
    Interleaving.SameEntries(s, AddListed(s, ip, list));
  }

  // ----- every interleaving -----

  predicate SectionAsleep(section: Interleaving.Section, from: nat) {
    match section
    case Reload(_, _) => false
    case Refresh(_, _, now) => from <= now
    case _ => true
  }

  /** A user joins a network found earlier: its entry, its chain, and one chain on each of some edges. */
  ghost predicate Joins(a: Services, from: nat, b: Services) {
    exists n, at, c, info: ClientInfo, edges, now ::
      && from <= info.latest && from <= now
      && b == AddChains(ServiceTable.AddChain(AddClientToReplica(a, n, at, c, info), n, c, now), edges, now)
  }

  /** One step of the system at or after `from` that is no reload: a step of `Interleaving`, or joining a network. */
  ghost predicate StepAsleep(a: Interleaving.System, b: Interleaving.System, from: nat) {
    || (exists edges: seq<RegisteredEdge> :: AllSourced(edges) && b == a.(tasks := a.tasks + Spawn(edges)))
    || (exists k: nat, ack, now :: from <= now && k < |a.tasks| && b == Interleaving.TaskStep(a, k, ack, now))
    || (exists section :: SectionAsleep(section, from) && Interleaving.SectionStep(a, section, b))
    || (exists k: nat :: k < |a.pending| && b == Interleaving.FreeStep(a, k))
    || (Joins(a.services, from, b.services) && b == a.(services := b.services))
  }

  lemma SectionSleeps(w: World, section: Interleaving.Section, w': World, from: nat)
    requires Unique(w.services) && SectionAsleep(section, from) && Interleaving.SectionRel(w, section, w')
    ensures SleptThrough(w.services, w'.services, from) && Unique(w'.services)
  {
    match section
    case Rollback(edges) => RollbackSleeps(w, edges, from);
    case Apply(changes) => ApplySleeps(w, changes, w', from);
    case Register(changes, ip, list) =>
      var mid: World :| ApplyRel(w, changes, mid) && w' == mid.(services := AddListed(mid.services, ip, list));
      ApplySleeps(w, changes, mid, from);
      ListedSleeps(mid.services, ip, list, from);
      SleptTrans(w.services, mid.services, w'.services, from);
    case Refresh(n, c, now) => SetLatestSleeps(w.services, n, c, now, from);
  }

  lemma JoinSleeps(a: Services, from: nat, b: Services)
    requires Unique(a) && Joins(a, from, b)
    ensures SleptThrough(a, b, from) && Unique(b)
  {
    var n, at, c, info: ClientInfo, edges, now :|
      && from <= info.latest && from <= now
      && b == AddChains(ServiceTable.AddChain(AddClientToReplica(a, n, at, c, info), n, c, now), edges, now);
    var m := AddClientToReplica(a, n, at, c, info);
    var m' := ServiceTable.AddChain(m, n, c, now);
    AddClientSleeps(a, n, at, c, info, from);
    AddChainSleeps(m, n, c, now, from);
    AddChainsSleep(m', edges, now, from);
    SleptTrans(a, m, m', from);
    SleptTrans(a, m', b, from);
  }

  lemma StepSleeps(a: Interleaving.System, b: Interleaving.System, from: nat)
    requires Unique(a.services) && StepAsleep(a, b, from)
    ensures SleptThrough(a.services, b.services, from) && Unique(b.services)
  {
    SameStamps(a.services, from);
    if k: nat, ack, now :| from <= now && k < |a.tasks| && b == Interleaving.TaskStep(a, k, ack, now) {
      AdvanceSleeps(World(a.services, a.pool, []), a.tasks[k], ack, now, from);
    } else if section :| SectionAsleep(section, from) && Interleaving.SectionStep(a, section, b) {
      var w': World :| Interleaving.SectionRel(World(a.services, a.pool, []), section, w')
        && b == a.(services := w'.services, pending := a.pending + Interleaving.Ids(w'.downs));
      SectionSleeps(World(a.services, a.pool, []), section, w', from);
    } else if Joins(a.services, from, b.services) && b == a.(services := b.services) {
      JoinSleeps(a.services, from, b.services);
    }
  }

  lemma {:induction false} StepsSleep(run: seq<Interleaving.System>, from: nat)
    requires run != [] && Unique(run[0].services)
    requires forall i :: 0 < i < |run| ==> StepAsleep(run[i - 1], run[i], from)
    ensures SleptThrough(run[0].services, run[|run| - 1].services, from) && Unique(run[|run| - 1].services)
    decreases |run|
  {
    if |run| == 1 {
      SameStamps(run[0].services, from);
    } else {
      var before, last := run[..|run| - 1], |run| - 1;
      forall i | 0 < i < |before| ensures StepAsleep(before[i - 1], before[i], from) {
        assert before[i - 1] == run[i - 1] && before[i] == run[i];
      }
      StepsSleep(before, from);
      assert before[last - 1] == run[last - 1];
      StepSleeps(run[last - 1], run[last], from);
      SleptTrans(run[0].services, run[last - 1].services, run[last].services, from);
    }
  }

  /**
   The sleep that `nearest_timeout` computes for the table of `run[0]` at `now` ends by the time any user can expire,
   whatever edge setups, rollbacks, timeouts, disconnects, registrations, refreshes and joins run meanwhile, in any
   interleaving: also for users that arrive or are refreshed during the sleep, on replicas that came after it began.
   */
  lemma NeverOversleeps(run: seq<Interleaving.System>, now: nat, nearest: nat, l: Link)
    requires run != [] && Unique(run[0].services)
    requires forall i :: 0 < i < |run| ==> StepAsleep(run[i - 1], run[i], now)
    requires SleepsWithin(run[0].services, now, run[0].services.Keys, nearest)
    requires var b := run[|run| - 1].services; HasTimeout(b, l.server) && l.client.proxy.Some? && Entry(b, l).Some?
    ensures var b := run[|run| - 1].services;
      var expiry := Entry(b, l).value.latest + b[l.server].config.timeout.value * SECOND;
      now + nearest <= if expiry < now then now else expiry
  {
    StepsSleep(run, now);
    WakesInTime(run[0].services, run[|run| - 1].services, now, nearest, l);
  }

  // ----- whole requests -----

  lemma {:induction false} TraceSleeps(w: World, edges: seq<RegisteredEdge>, trace: seq<ChainState>, start: nat)
    requires Unique(w.services) && ChainTrace(trace, start) && trace[0] == ChainState(w, Spawn(edges))
    ensures SleptThrough(w.services, trace[|trace| - 1].world.services, start)
    ensures Unique(trace[|trace| - 1].world.services)
    decreases |trace|
  {
    if |trace| == 1 {
      SameStamps(w.services, start);
    } else {
      var before := trace[..|trace| - 1];
      TracePrefix(trace, start);
      TraceSleeps(w, edges, before, start);
      var x, y := trace[|trace| - 2], trace[|trace| - 1];
      var k: nat, ack, now :| start <= now && k < |x.tasks| && !x.tasks[k].Done() && y == StepOf(x, k, ack, now);
      AdvanceSleeps(x.world, x.tasks[k], ack, now, start);
      SleptTrans(w.services, x.world.services, y.world.services, start);
    }
  }

  lemma SetupSleeps(w: World, edges: seq<RegisteredEdge>, start: nat, w': World, ok: bool, upstream: Option<Ipv4>)
    requires Unique(w.services) && ChainSetupRel(w, edges, start, w', ok, upstream)
    ensures SleptThrough(w.services, w'.services, start)
  {
    var trace: seq<ChainState> :|
      && ChainTrace(trace, start)
      && trace[0] == ChainState(w, Spawn(edges))
      && AllDone(trace[|trace| - 1].tasks)
      && Concluded(trace[|trace| - 1], w', ok, upstream);
    var last := trace[|trace| - 1];
    TraceSleeps(w, edges, trace, start);
    if !ok {
      var order :| Successful(last.tasks, order) && w' == DecrementEdges(last.world, EdgesAt(last.tasks, order));
      RollbackSleeps(last.world, EdgesAt(last.tasks, order), start);
      SleptTrans(w.services, last.world.services, w'.services, start);
    }
  }

  lemma ReuseSleeps(w: World, l: Link, c: Client, proxy: Ip, now: nat, w': World)
    requires Unique(w.services) && Entry(w.services, l).Some? && ReuseRel(w, l, c, proxy, now, w')
    ensures SleptThrough(w.services, w'.services, now)
  {
    var shared := Entry(w.services, l).value;
    var info := ClientInfo(proxy, shared.clientNet, shared.serverNet, shared.netId, 0, now, None);
    var joined := Joined(w.services, l, c, proxy, now);
    assert w'.services == AddChains(ServiceTable.AddChain(AddClientToReplica(w.services, l.server, l.at, c, info),
                                                          l.server, c, now), DepChainEdges(joined, l.server, l.at), now);
    JoinSleeps(w.services, now, w'.services);
  }

  /** Whatever a request writes carries a time stamp of its own. */
  lemma RequestSleeps(w: World, req: Request, now: nat, w': World, answer: Answer)
    requires Unique(w.services) && RequestRel(w, req, now, w', answer)
    ensures SleptThrough(w.services, w'.services, now)
  {
    var s, n, c := w.services, req.service, req.Client();
    SameStamps(s, now);
    if n in s && s[n].config.timeout.Some? && s[n].Registered? {
      if Holder(s, n, c).Some? {
        SetLatestSleeps(s, n, c, now, now);
      } else if MustShare(s, n, req.proxy) {
        var l: Link :| LeastUsed(s, n, req.proxy, l) && ReuseRel(w, l, c, req.proxy, now, w')
          && answer == AnswerFrom(s, n, l.at, Entry(s, l).value);
        ReuseSleeps(w, l, c, req.proxy, now, w');
      } else {
        var at := PickReplica(s, n);
        if at.Some? && ChainFor(s, req, at.value).Some? {
          var ok, upstream :| ChainSetupRel(w, ChainFor(s, req, at.value).value, now, w', ok, upstream)
            && answer == ChainAnswer(ok, upstream, Port(s, n, at.value));
          SetupSleeps(w, ChainFor(s, req, at.value).value, now, w', ok, upstream);
        }
      }
    }
  }

  /** The idle time of a user that is answered starts no earlier than its request. */
  lemma AnsweredIsFresh(w: World, req: Request, now: nat, w': World, answer: Answer)
    requires Orderly(w) && RequestRel(w, req, now, w', answer) && answer.Upstream?
    ensures exists at ::
      && ServedAt(w'.services, req, at, answer.ip, answer.port)
      && Entry(w'.services, Link(req.Client(), req.service, at)).value.latest >= now
  {
    RequestIsOrderly(w, req, now, w', answer);
    RequestSleeps(w, req, now, w', answer);
    var at :| ServedAt(w'.services, req, at, answer.ip, answer.port);
    var l := Link(req.Client(), req.service, at);
    if HasHolder(w.services, req) {
      var r :| Entry(w'.services, Link(req.Client(), req.service, r)).Some?
        && Entry(w'.services, Link(req.Client(), req.service, r)).value.latest == now;
      assert r == at;
    } else {
      HolderSpec(w.services, req.service, req.Client());
      assert Entry(w.services, l).None?;
    }
  }

  lemma TriggerSleeps(w: World, n: Name, port: nat, sender: Ip, now: nat, w': World)
    requires Unique(w.services) && TriggerRel(w, n, port, sender, now, w')
    ensures SleptThrough(w.services, w'.services, now)
  {
    SameStamps(w.services, now);
    if w' != w {
      var at := ReplicaOn(Reps(w.services, n), sender).value;
      var edges := TriggeredEdges(w.services, n, at, port).value;
      var ok, upstream :| ChainSetupRel(w, edges, now, w', ok, upstream);
      SetupSleeps(w, edges, now, w', ok, upstream);
    }
  }

  /** An event at or after `from` that is no reload. */
  predicate EventAsleep(event: Event, from: nat) {
    match event
    case Serve(_, now) => from <= now
    case Trigger(_, _, _, now) => from <= now
    case Reload(_, _) => false
    case _ => true
  }

  lemma Earlier(a: Services, b: Services, from: nat, now: nat)
    requires SleptThrough(a, b, now) && from <= now
    ensures SleptThrough(a, b, from)
  {
  }

  lemma EventSleeps(w: World, event: Event, w': World, from: nat)
    requires Unique(w.services) && EventRel(w, event, w') && EventAsleep(event, from)
    ensures SleptThrough(w.services, w'.services, from)
  {
    match event
    case Serve(req, now) =>
      var answer :| RequestRel(w, req, now, w', answer);
      RequestSleeps(w, req, now, w', answer);
      Earlier(w.services, w'.services, from, now);
    case Trigger(n, port, sender, now) =>
      TriggerSleeps(w, n, port, sender, now, w');
      Earlier(w.services, w'.services, from, now);
    case Expire(now) =>
      var changes :| TimeoutsDetected(w.services, now, changes) && ApplyRel(w, changes, w');
      ApplySleeps(w, changes, w', from);
    case Disconnect(ip) =>
      var changes :| DisconnectDetected(w.services, ip, changes) && ApplyRel(w, changes, w');
      ApplySleeps(w, changes, w', from);
    case Register(ip, list) =>
      var changes: seq<ServiceChange>, mid: World :|
        Enumerates(changes, NoLongerListed(w.services, ip, list)) && ApplyRel(w, changes, mid)
        && w' == mid.(services := AddListed(mid.services, ip, list));
      ApplySleeps(w, changes, mid, from);
      ListedSleeps(mid.services, ip, list, from);
      SleptTrans(w.services, mid.services, w'.services, from);
  }

  ghost predicate AtomicStepAsleep(w: World, w': World, from: nat) {
    exists event :: EventAsleep(event, from) && EventRel(w, event, w')
  }

  lemma AtomicStepSleeps(w: World, w': World, from: nat)
    requires Unique(w.services) && AtomicStepAsleep(w, w', from)
    ensures SleptThrough(w.services, w'.services, from)
  {
    var event :| EventAsleep(event, from) && EventRel(w, event, w');
    EventSleeps(w, event, w', from);
  }

  lemma {:induction false} EventsSleep(run: seq<World>, from: nat)
    requires run != [] && forall k :: 0 <= k < |run| ==> Unique(run[k].services)
    requires forall k :: 0 < k < |run| ==> AtomicStepAsleep(run[k - 1], run[k], from)
    ensures SleptThrough(run[0].services, run[|run| - 1].services, from)
    decreases |run|
  {
    if |run| == 1 {
      SameStamps(run[0].services, from);
    } else {
      var before, last := run[..|run| - 1], |run| - 1;
      forall k | 0 < k < |before| ensures AtomicStepAsleep(before[k - 1], before[k], from) {
        assert before[k - 1] == run[k - 1] && before[k] == run[k];
      }
      EventsSleep(before, from);
      assert before[last - 1] == run[last - 1];
      AtomicStepSleeps(run[last - 1], run[last], from);
      SleptTrans(run[0].services, run[last - 1].services, run[last].services, from);
    }
  }

  lemma SegmentSleeps(run: seq<World>, i: nat, j: nat, from: nat)
    requires i <= j < |run| && forall k :: 0 <= k < |run| ==> Orderly(run[k])
    requires forall k :: i < k <= j ==> AtomicStepAsleep(run[k - 1], run[k], from)
    ensures SleptThrough(run[i].services, run[j].services, from)
  {
    var part := run[i..j + 1];
    forall k | 0 < k < |part| ensures AtomicStepAsleep(part[k - 1], part[k], from) {
      assert part[k - 1] == run[i + k - 1] && part[k] == run[i + k];
    }
    EventsSleep(part, from);
  }

  /** The same for the events of an atomic run: nobody expires between the `i`th state and the end of the sleep. */
  lemma AtomicNeverOversleeps(run: seq<World>, i: nat, j: nat, now: nat, nearest: nat, l: Link)
    requires AtomicRun(run) && i <= j < |run|
    requires forall k :: i < k <= j ==> AtomicStepAsleep(run[k - 1], run[k], now)
    requires SleepsWithin(run[i].services, now, run[i].services.Keys, nearest)
    requires var b := run[j].services; HasTimeout(b, l.server) && l.client.proxy.Some? && Entry(b, l).Some?
    ensures var b := run[j].services;
      var expiry := Entry(b, l).value.latest + b[l.server].config.timeout.value * SECOND;
      now + nearest <= if expiry < now then now else expiry
  {
    RunsAreOrderly(run);
    SegmentSleeps(run, i, j, now);
    WakesInTime(run[i].services, run[j].services, now, nearest, l);
  }
}
