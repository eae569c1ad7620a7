/** How many chains are counted when several setups of the same new edge race (src/nullnet_grpc_impl.rs:549-576). */
module Races {
  import opened Types
  import opened NetIdPool
  import opened ServiceTable
  import opened Chains
  import opened Teardown
  import opened Setup
  import opened AtomicSetup
  import opened Counts

  // ----- what a setup meets when it starts -----

  /** In this step a task starts and finds the slot at `l` that another one has reserved and not committed yet. */
  ghost predicate StartsOnSlot(x: ChainState, y: ChainState, l: Link) {
    Starts(x, y) && Entry(x.world.services, l).Some? && Entry(x.world.services, l).value.netId == 0
  }

  /** In this step a task starts and finds the committed entry at `l`, with its network. */
  ghost predicate StartsOnNetwork(x: ChainState, y: ChainState, l: Link) {
    Starts(x, y) && Entry(x.world.services, l).Some? && Entry(x.world.services, l).value.netId != 0
  }

  ghost predicate Starts(x: ChainState, y: ChainState) {
    |x.tasks| == |y.tasks| && exists k :: 0 <= k < |x.tasks| && x.tasks[k].phase.Start? && !y.tasks[k].phase.Start?
  }

  ghost function SlotStarts(trace: seq<ChainState>, l: Link): nat {
    if |trace| <= 1 then 0
    else SlotStarts(trace[..|trace| - 1], l) + if StartsOnSlot(trace[|trace| - 2], trace[|trace| - 1], l) then 1 else 0
  }

  ghost function NetworkStarts(trace: seq<ChainState>, l: Link): nat {
    if |trace| <= 1 then 0
    else
      NetworkStarts(trace[..|trace| - 1], l)
      + if StartsOnNetwork(trace[|trace| - 2], trace[|trace| - 1], l) then 1 else 0
  }

  function Started(tasks: seq<Task>): nat {
    if tasks == [] then 0 else (if tasks[0].phase.Start? then 0 else 1) + Started(tasks[1..])
  }

  lemma {:induction false} StartedOne(tasks: seq<Task>, k: nat, t: Task)
    requires k < |tasks| && !t.phase.Start?
    ensures Started(tasks[k := t]) == Started(tasks) + if tasks[k].phase.Start? then 1 else 0
  {
    if k > 0 {
      assert tasks[k := t][1..] == tasks[1..][k - 1 := t];
      StartedOne(tasks[1..], k - 1, t);
    }
  }

  lemma {:induction false} NoneStarted(tasks: seq<Task>)
    requires forall k :: 0 <= k < |tasks| ==> tasks[k].phase.Start?
    ensures Started(tasks) == 0
  {
    if tasks != [] {
      NoneStarted(tasks[1..]);
    }
  }

  lemma {:induction false} AllStarted(tasks: seq<Task>)
    requires forall k :: 0 <= k < |tasks| ==> !tasks[k].phase.Start?
    ensures Started(tasks) == |tasks|
  {
    if tasks != [] {
      AllStarted(tasks[1..]);
    }
  }

  // ----- the race -----

  ghost predicate Failing(tasks: seq<Task>) {
    exists k :: 0 <= k < |tasks| && Fails(tasks[k])
  }

  predicate Fails(t: Task) {
    t.phase.Failed? || t.phase.Aborting? || t.phase.Releasing?
  }

  ghost predicate Idle(t: Task) {
    t.phase.Start? || t.phase.Succeeded?
  }

  /** Nobody has started. */
  ghost predicate Untouched(x: ChainState, l: Link) {
    (forall k :: 0 <= k < |x.tasks| ==> x.tasks[k].phase.Start?) && Entry(x.world.services, l).None?
  }

  /** Task `m` has reserved the slot and works on its network; all others wait or have counted themselves on the slot. */
  ghost predicate Making(x: ChainState, l: Link, m: nat) {
    && m < |x.tasks| && (x.tasks[m].phase.Reserved? || (x.tasks[m].phase.Allocated? && x.tasks[m].phase.id != 0))
    && (forall k :: 0 <= k < |x.tasks| && k != m ==> Idle(x.tasks[k]))
    && Entry(x.world.services, l).Some? && Entry(x.world.services, l).value.netId == 0
  }

  /** The network is there; it counts its maker and everybody who came after the commit. */
  ghost predicate Counting(x: ChainState, l: Link, late: nat) {
    && (forall k :: 0 <= k < |x.tasks| ==> Idle(x.tasks[k]))
    && Entry(x.world.services, l).Some? && Entry(x.world.services, l).value.netId != 0
    && Entry(x.world.services, l).value.activeChains == 1 + late
  }

  /** The client of the edge is set up if and only if the edge has its entry. */
  ghost predicate Asks(s: Services, e: RegisteredEdge) {
    Unique(s) && HasRep(s, e.server, e.at) && (e.client.proxy.Some? ==> OnlyHere(s, e))
  }

  ghost predicate InRace(x: ChainState, e: RegisteredEdge) {
    && Asks(x.world.services, e) && FirstHere(x.world.services, e) && Valid(x.world.pool)
    && forall k :: 0 <= k < |x.tasks| ==> x.tasks[k].edge == e
  }

  ghost predicate Stage(x: ChainState, l: Link, early: nat, late: nat) {
    || (Untouched(x, l) && Started(x.tasks) == early == late == 0)
    || (Started(x.tasks) == 1 + early && late == 0 && exists m :: Making(x, l, m))
    || (Counting(x, l, late) && Started(x.tasks) == 1 + early + late)
  }

  ghost predicate RaceInv(x: ChainState, e: RegisteredEdge, early: nat, late: nat) {
    Failing(x.tasks) || (InRace(x, e) && Stage(x, e.Link(), early, late))
  }

  function One(b: bool): nat {
    if b then 1 else 0
  }

  lemma FailingStays(x: ChainState, k: nat, ack: bool, now: nat)
    requires Failing(x.tasks) && k < |x.tasks| && !x.tasks[k].Done()
    ensures Failing(StepOf(x, k, ack, now).tasks)
  {
    var j :| 0 <= j < |x.tasks| && Fails(x.tasks[j]);
    assert Fails(StepOf(x, k, ack, now).tasks[j]);
  }

  lemma HeldHere(s: Services, e: RegisteredEdge)
    requires Asks(s, e)
    ensures IsRegistered(s, e.server)
    ensures AlreadySetup(s, e) <==> Entry(s, e.Link()).Some?
  {
    if e.client.proxy.Some? {
      HolderHere(s, e);
    }
  }

  /** Nothing changed but the entry of the edge, which is there now, and the counts. */
  ghost predicate EdgeOnly(a: Services, b: Services, e: RegisteredEdge) {
    && SameShape(a, b)
    && forall l :: Entry(b, l).Some? <==> Entry(a, l).Some? || l == e.Link()
  }

  lemma StillAsks(a: Services, b: Services, e: RegisteredEdge)
    requires Asks(a, e) && EdgeOnly(a, b, e)
    ensures Asks(b, e) && (FirstHere(b, e) <==> FirstHere(a, e))
  {
    ShapeFacts(a, b);
    SameIndices(a, b, e.server);
    forall r ensures e.client in Tab(b, e.server, r) <==> e.client in Tab(a, e.server, r) || r == e.at {
      assert Entry(b, Link(e.client, e.server, r)).Some? <==> e.client in Tab(b, e.server, r);
      assert Entry(a, Link(e.client, e.server, r)).Some? <==> e.client in Tab(a, e.server, r);
    }
  }

  lemma StillRacing(x: ChainState, e: RegisteredEdge, k: nat, w: World, t: Task)
    requires InRace(x, e) && k < |x.tasks| && t.edge == e && w.pool == x.world.pool
    requires EdgeOnly(x.world.services, w.services, e)
    ensures InRace(ChainState(w, x.tasks[k := t]), e)
  {
    StillAsks(x.world.services, w.services, e);
  }

  /** The first start reserves the slot. */
  lemma FirstRaces(x: ChainState, e: RegisteredEdge, k: nat, ack: bool, now: nat)
    requires InRace(x, e) && Untouched(x, e.Link()) && Started(x.tasks) == 0 && k < |x.tasks|
    ensures var y := StepOf(x, k, ack, now); InRace(y, e) && Stage(y, e.Link(), 0, 0)
  {
    var y := StepOf(x, k, ack, now);
    assert x.tasks[k] == Task(e, Start);
    HeldHere(x.world.services, e);
    AddedFirst(x.world.services, e, Placeholder(e.clientIp, now));
    StillRacing(x, e, k, y.world, y.tasks[k]);
    StartedOne(x.tasks, k, y.tasks[k]);
    assert Making(y, e.Link(), k);
  }

  /** Every other start counts itself on what it finds. */
  lemma NextRaces(x: ChainState, e: RegisteredEdge, k: nat, ack: bool, now: nat)
    requires InRace(x, e) && k < |x.tasks| && x.tasks[k].phase.Start? && Entry(x.world.services, e.Link()).Some?
    ensures var y, l := StepOf(x, k, ack, now), e.Link();
      && InRace(y, e) && y.tasks == x.tasks[k := Task(e, Succeeded(None))]
      && Started(y.tasks) == Started(x.tasks) + 1 && Starts(x, y)
      && Entry(y.world.services, l) == Some(Entry(x.world.services, l).value.AddActiveChain(now))
  {
    var y, l := StepOf(x, k, ack, now), e.Link();
    assert x.tasks[k] == Task(e, Start);
    HeldHere(x.world.services, e);
    ReuseCounts(x.world, e, ack, now);
    AdvanceShape(x.world, x.tasks[k], ack, now);
    StillRacing(x, e, k, y.world, y.tasks[k]);
    StartedOne(x.tasks, k, y.tasks[k]);
  }

  lemma StartRaces(x: ChainState, e: RegisteredEdge, early: nat, late: nat, k: nat, ack: bool, now: nat)
    requires InRace(x, e) && Stage(x, e.Link(), early, late) && k < |x.tasks| && x.tasks[k].phase.Start?
    ensures var y, l := StepOf(x, k, ack, now), e.Link();
      InRace(y, e) && Stage(y, l, early + One(StartsOnSlot(x, y, l)), late + One(StartsOnNetwork(x, y, l)))
  {
    var y, l := StepOf(x, k, ack, now), e.Link();
    if Entry(x.world.services, l).None? {
      FirstRaces(x, e, k, ack, now);
    } else {
      NextRaces(x, e, k, ack, now);
      if Entry(x.world.services, l).value.netId == 0 {
        StillMaking(x, y, l, k, e);
      }
    }
  }

  lemma StillMaking(x: ChainState, y: ChainState, l: Link, k: nat, e: RegisteredEdge)
    requires (exists m :: Making(x, l, m)) && k < |x.tasks| && x.tasks[k].phase.Start?
    requires y.tasks == x.tasks[k := Task(e, Succeeded(None))]
    requires Entry(y.world.services, l).Some? && Entry(y.world.services, l).value.netId == 0
    ensures exists m :: Making(y, l, m)
  {
    var m :| Making(x, l, m);
    assert Making(y, l, m);
  }

  lemma CommitRaces(x: ChainState, e: RegisteredEdge, m: nat, now: nat)
    requires InRace(x, e) && Making(x, e.Link(), m) && x.tasks[m].phase.Allocated?
    ensures InRace(StepOf(x, m, true, now), e) && Counting(StepOf(x, m, true, now), e.Link(), 0)
  {
    var y, id := StepOf(x, m, true, now), x.tasks[m].phase.id;
    assert x.tasks[m] == Task(e, Allocated(id));
    CommitCounts(x.world, e, id, now);
    AdvanceShape(x.world, x.tasks[m], true, now);
    StillRacing(x, e, m, y.world, y.tasks[m]);
  }

  /** The maker of the network goes on; its commit puts an entry with one chain over the slot. */
  lemma MakerRaces(x: ChainState, e: RegisteredEdge, early: nat, m: nat, ack: bool, now: nat)
    requires InRace(x, e) && Making(x, e.Link(), m) && Started(x.tasks) == 1 + early
    ensures var y := StepOf(x, m, ack, now);
      !Starts(x, y) && (Failing(y.tasks) || (InRace(y, e) && Stage(y, e.Link(), early, 0)))
  {
    var y, l := StepOf(x, m, ack, now), e.Link();
    HeldHere(x.world.services, e);
    StartedOne(x.tasks, m, y.tasks[m]);
    if x.tasks[m].phase.Reserved? {
      AllocateSpec(x.world.pool);
      assert y.tasks[m].phase.Allocated? ==> Making(y, l, m);
      assert y.tasks[m].phase.Aborting? ==> Fails(y.tasks[m]);
    } else if ack {
      CommitRaces(x, e, m, now);
    } else {
      assert Fails(y.tasks[m]);
    }
  }

  lemma RaceStep(x: ChainState, y: ChainState, e: RegisteredEdge, start: nat, early: nat, late: nat)
    requires RaceInv(x, e, early, late) && ChainStep(x, y, start)
    ensures var l := e.Link();
      RaceInv(y, e, early + One(StartsOnSlot(x, y, l)), late + One(StartsOnNetwork(x, y, l)))
  {
    var k: nat, ack, now :| start <= now && k < |x.tasks| && !x.tasks[k].Done() && y == StepOf(x, k, ack, now);
    if Failing(x.tasks) {
      FailingStays(x, k, ack, now);
    } else if x.tasks[k].phase.Start? {
      StartRaces(x, e, early, late, k, ack, now);
    } else {
      var m :| Making(x, e.Link(), m);
      MakerRaces(x, e, early, m, ack, now);
    }
  }

  function Racers(e: RegisteredEdge, n: nat): seq<RegisteredEdge> {
    seq(n, _ => e)
  }

  /** The edge is new, and no replica before its own holds its client. */
  ghost predicate NewAndFirst(s: Services, e: RegisteredEdge) {
    Unique(s) && HasRep(s, e.server, e.at) && !AlreadySetup(s, e) && FirstHere(s, e)
  }

  lemma NewIsAsked(s: Services, e: RegisteredEdge)
    requires Unique(s) && HasRep(s, e.server, e.at) && !AlreadySetup(s, e)
    ensures Asks(s, e) && Entry(s, e.Link()).None?
  {
    HolderSpec(s, e.server, e.client);
  }

  lemma {:induction false} TraceRaces(w: World, e: RegisteredEdge, n: nat, trace: seq<ChainState>, start: nat)
    requires NewAndFirst(w.services, e) && Valid(w.pool)
    requires ChainTrace(trace, start) && trace[0] == ChainState(w, Spawn(Racers(e, n)))
    ensures RaceInv(trace[|trace| - 1], e, SlotStarts(trace, e.Link()), NetworkStarts(trace, e.Link()))
    ensures |trace[|trace| - 1].tasks| == n
    decreases |trace|
  {
    if |trace| == 1 {
      NewIsAsked(w.services, e);
      NoneStarted(trace[0].tasks);
      assert Untouched(trace[0], e.Link());
    } else {
      var before := trace[..|trace| - 1];
      TracePrefix(trace, start);
      TraceRaces(w, e, n, before, start);
      RaceStep(trace[|trace| - 2], trace[|trace| - 1], e, start,
               SlotStarts(before, e.Link()), NetworkStarts(before, e.Link()));
    }
  }

  lemma AllCounted(x: ChainState, e: RegisteredEdge, early: nat, late: nat)
    requires RaceInv(x, e, early, late) && AllSucceeded(x.tasks) && x.tasks != []
    ensures Counting(x, e.Link(), late) && |x.tasks| == 1 + early + late
  {
    assert x.tasks[0].phase.Succeeded?;
    AllStarted(x.tasks);
  }

  /**
   Of any number of setups of one new edge that race and all succeed, exactly those are counted that did not start on
   a slot that another one had reserved: the count is the number of setups less those, and it is one more than the
   number of setups that started after the commit. If a replica before holds the client none is lost, but all are
   counted there (`RaceCountsBefore`).
   */
  lemma RaceCounts(w: World, e: RegisteredEdge, n: nat, trace: seq<ChainState>, start: nat)
    requires NewAndFirst(w.services, e) && Valid(w.pool) && n > 0
    requires ChainTrace(trace, start) && trace[0] == ChainState(w, Spawn(Racers(e, n)))
    requires AllSucceeded(trace[|trace| - 1].tasks)
    ensures var l := e.Link(); var entry := Entry(trace[|trace| - 1].world.services, l);
      && entry.Some? && entry.value.netId != 0
      && entry.value.activeChains == n - SlotStarts(trace, l)
      && entry.value.activeChains == 1 + NetworkStarts(trace, l)
  {
    TraceRaces(w, e, n, trace, start);
    AllCounted(trace[|trace| - 1], e, SlotStarts(trace, e.Link()), NetworkStarts(trace, e.Link()));
  }

  /** Some setup starts when the entry at `l` has its network. */
  ghost predicate StartsAfterCommit(trace: seq<ChainState>, l: Link) {
    exists i :: 0 < i < |trace| && StartsOnNetwork(trace[i - 1], trace[i], l)
  }

  lemma StartsBefore(trace: seq<ChainState>, l: Link)
    requires |trace| > 1
    ensures StartsAfterCommit(trace, l) <==>
      StartsAfterCommit(trace[..|trace| - 1], l) || StartsOnNetwork(trace[|trace| - 2], trace[|trace| - 1], l)
  {
    var before, last := trace[..|trace| - 1], |trace| - 1;
    if i :| 0 < i < |before| && StartsOnNetwork(before[i - 1], before[i], l) {
      assert StartsOnNetwork(trace[i - 1], trace[i], l);
    }
    if i :| 0 < i < |trace| && StartsOnNetwork(trace[i - 1], trace[i], l) {
      assert i < last ==> StartsOnNetwork(before[i - 1], before[i], l);
    }
  }

  lemma {:induction false} SomeNetworkStart(trace: seq<ChainState>, l: Link)
    ensures NetworkStarts(trace, l) > 0 <==> StartsAfterCommit(trace, l)
    decreases |trace|
  {
    if |trace| > 1 {
      SomeNetworkStart(trace[..|trace| - 1], l);
      StartsBefore(trace, l);
    }
  }

  /** Two setups of one new edge that both succeed count two chains if and only if one starts after the other's commit. */
  lemma BothCountIffAfterCommit(w: World, e: RegisteredEdge, trace: seq<ChainState>, start: nat)
    requires NewAndFirst(w.services, e) && Valid(w.pool)
    requires ChainTrace(trace, start) && trace[0] == ChainState(w, Spawn(Racers(e, 2)))
    requires AllSucceeded(trace[|trace| - 1].tasks)
    ensures var l := e.Link(); var entry := Entry(trace[|trace| - 1].world.services, l);
      && entry.Some? && 1 <= entry.value.activeChains <= 2
      && (entry.value.activeChains == 2 <==> StartsAfterCommit(trace, l))
  {
    RaceCounts(w, e, 2, trace, start);
    SomeNetworkStart(trace, e.Link());
  }

  /**
   A commit leaves one chain more on its edge than it finds if and only if nobody has counted itself there and no
   replica before holds the client.
   */
  lemma CommitAddsIffUncounted(w: World, e: RegisteredEdge, id: nat, now: nat)
    requires Unique(w.services) && HasRep(w.services, e.server, e.at)
    ensures var s, b, l := w.services, Advance(w, Task(e, Allocated(id)), true, now).0.services, e.Link();
      && Entry(b, l).Some?
      && (Count(b, l) == Count(s, l) + 1 <==> Count(s, l) == 0 && FirstHere(s, e))
  {
    CommitCounts(w, e, id, now);
  }

  // ----- the race for an edge whose client is on a replica before -----

  function Successes(tasks: seq<Task>): nat {
    if tasks == [] then 0 else (if tasks[0].phase.Succeeded? then 1 else 0) + Successes(tasks[1..])
  }

  lemma {:induction false} SuccessesOne(tasks: seq<Task>, k: nat, t: Task)
    requires k < |tasks| && !tasks[k].phase.Succeeded?
    ensures Successes(tasks[k := t]) == Successes(tasks) + One(t.phase.Succeeded?)
  {
    if k > 0 {
      assert tasks[k := t][1..] == tasks[1..][k - 1 := t];
      SuccessesOne(tasks[1..], k - 1, t);
    }
  }

  lemma {:induction false} SuccessesAll(tasks: seq<Task>)
    ensures AllSucceeded(tasks) ==> Successes(tasks) == |tasks|
    ensures (forall k :: 0 <= k < |tasks| ==> tasks[k].phase.Start?) ==> Successes(tasks) == 0
  {
    if tasks != [] {
      assert AllSucceeded(tasks) ==> AllSucceeded(tasks[1..]);
      SuccessesAll(tasks[1..]);
    }
  }

  /** The edge counts nothing; its chains are counted on the replica before, at `place`. */
  ghost predicate CountedBefore(s: Services, e: RegisteredEdge, place: Link) {
    && Asks(s, e) && !FirstHere(s, e) && CountsAt(s, e) == place && Entry(s, place).Some?
    && Count(s, e.Link()) == 0
  }

  /** So far all chains are counted at `place`; `had` is its count at the beginning. */
  ghost predicate Elsewhere(x: ChainState, e: RegisteredEdge, place: Link, had: nat) {
    && CountedBefore(x.world.services, e, place)
    && (forall k :: 0 <= k < |x.tasks| ==> x.tasks[k].edge == e)
    && Count(x.world.services, place) == had + Successes(x.tasks)
  }

  lemma ElsewhereStays(s: Services, b: Services, e: RegisteredEdge)
    requires Asks(s, e) && !FirstHere(s, e) && EdgeOnly(s, b, e)
    ensures Asks(b, e) && !FirstHere(b, e) && CountsAt(b, e) == CountsAt(s, e) != e.Link()
  {
    StillAsks(s, b, e);
    forall r ensures e.client in Tab(b, e.server, r) <==> e.client in Tab(s, e.server, r) || r == e.at {
      assert Entry(b, Link(e.client, e.server, r)).Some? <==> e.client in Tab(b, e.server, r);
      assert Entry(s, Link(e.client, e.server, r)).Some? <==> e.client in Tab(s, e.server, r);
    }
    EarlierIsFound(s, b, e);
  }

  /** One step of a setup for an edge whose client is on a replica before: a success counts there, all else nowhere. */
  ghost predicate CountsBefore(s: Services, b: Services, e: RegisteredEdge, place: Link, success: bool) {
    EdgeOnly(s, b, e) && Count(b, e.Link()) == 0 && Count(b, place) == Count(s, place) + One(success)
  }

  lemma ReuseElsewhere(w: World, e: RegisteredEdge, place: Link, ack: bool, now: nat)
    requires CountedBefore(w.services, e, place) && Entry(w.services, e.Link()).Some?
    ensures var (w', t') := Advance(w, Task(e, Start), ack, now);
      t' == Task(e, Succeeded(None)) && CountsBefore(w.services, w'.services, e, place, true)
  {
    HeldHere(w.services, e);
    HolderIsFirst(w.services, e);
    AdvanceShape(w, Task(e, Start), ack, now);
    ReuseCounts(w, e, ack, now);
  }

  lemma ReserveElsewhere(w: World, e: RegisteredEdge, place: Link, ack: bool, now: nat)
    requires CountedBefore(w.services, e, place) && Entry(w.services, e.Link()).None?
    ensures var (w', t') := Advance(w, Task(e, Start), ack, now);
      t' == Task(e, Reserved) && CountsBefore(w.services, w'.services, e, place, false)
  {
    HeldHere(w.services, e);
    AddedFirst(w.services, e, Placeholder(e.clientIp, now));
  }

  /** The entry of the edge counts nothing, the one at `place` counts one more, and all others are as before. */
  lemma CountsBeforeBy(s: Services, b: Services, e: RegisteredEdge, place: Link, info: ClientInfo, now: nat)
    requires SameShape(s, b) && place != e.Link() && CountsOneMore(s, b, place, now)
    requires Entry(b, e.Link()) == Some(info) && info.activeChains == 0
    requires forall l :: l != e.Link() && l != place ==> Entry(b, l) == Entry(s, l)
    ensures CountsBefore(s, b, e, place, true)
  {
  }

  lemma CommitElsewhere(w: World, e: RegisteredEdge, place: Link, id: nat, now: nat)
    requires CountedBefore(w.services, e, place)
    ensures var (w', t') := Advance(w, Task(e, Allocated(id)), true, now);
      t'.edge == e && t'.phase.Succeeded? && CountsBefore(w.services, w'.services, e, place, true)
  {
    var b := Advance(w, Task(e, Allocated(id)), true, now).0.services;
    HeldHere(w.services, e);
    AdvanceShape(w, Task(e, Allocated(id)), true, now);
    CommitCounts(w, e, id, now);
    CountsBeforeBy(w.services, b, e, place, Committed(w.pool.net, e, id, now), now);
  }

  lemma StillBefore(s: Services, b: Services, e: RegisteredEdge, place: Link, success: bool)
    requires CountedBefore(s, e, place) && CountsBefore(s, b, e, place, success)
    ensures CountedBefore(b, e, place)
  {
    ElsewhereStays(s, b, e);
    assert Entry(s, place).Some? ==> Entry(b, place).Some?;
  }

  lemma StaysElsewhere(x: ChainState, e: RegisteredEdge, place: Link, had: nat, k: nat, w: World, t: Task)
    requires (forall j :: 0 <= j < |x.tasks| ==> x.tasks[j].edge == e) && t.edge == e
    requires k < |x.tasks| && !x.tasks[k].phase.Succeeded?
    requires Count(x.world.services, place) == had + Successes(x.tasks)
    requires Count(w.services, place) == Count(x.world.services, place) + One(t.phase.Succeeded?)
    requires CountedBefore(w.services, e, place)
    ensures Elsewhere(ChainState(w, x.tasks[k := t]), e, place, had)
  {
    SuccessesOne(x.tasks, k, t);
  }

  lemma AllocateElsewhere(x: ChainState, e: RegisteredEdge, place: Link, had: nat, k: nat, ack: bool, now: nat)
    requires Elsewhere(x, e, place, had) && k < |x.tasks| && x.tasks[k].phase.Reserved?
    ensures Elsewhere(StepOf(x, k, ack, now), e, place, had)
  {
    SuccessesOne(x.tasks, k, StepOf(x, k, ack, now).tasks[k]);
  }

  lemma StartElsewhere(x: ChainState, e: RegisteredEdge, place: Link, had: nat, k: nat, ack: bool, now: nat)
    requires Elsewhere(x, e, place, had) && k < |x.tasks| && x.tasks[k].phase.Start?
    ensures Elsewhere(StepOf(x, k, ack, now), e, place, had)
  {
    var y := StepOf(x, k, ack, now);
    assert x.tasks[k] == Task(e, Start);
    if Entry(x.world.services, e.Link()).Some? {
      ReuseElsewhere(x.world, e, place, ack, now);
    } else {
      ReserveElsewhere(x.world, e, place, ack, now);
    }
    StillBefore(x.world.services, y.world.services, e, place, y.tasks[k].phase.Succeeded?);
    StaysElsewhere(x, e, place, had, k, y.world, y.tasks[k]);
  }

  ghost predicate FailingOrElsewhere(x: ChainState, e: RegisteredEdge, place: Link, had: nat) {
    Failing(x.tasks) || Elsewhere(x, e, place, had)
  }

  lemma OneElsewhere(x: ChainState, e: RegisteredEdge, place: Link, had: nat, k: nat, ack: bool, now: nat)
    requires Elsewhere(x, e, place, had) && k < |x.tasks| && !x.tasks[k].Done()
    ensures FailingOrElsewhere(StepOf(x, k, ack, now), e, place, had)
  {
    var y := StepOf(x, k, ack, now);
    if Fails(y.tasks[k]) {
      assert Failing(y.tasks);
    } else if x.tasks[k].phase.Start? {
      StartElsewhere(x, e, place, had, k, ack, now);
    } else if x.tasks[k].phase.Reserved? {
      AllocateElsewhere(x, e, place, had, k, ack, now);
    } else {
      assert x.tasks[k] == Task(e, Allocated(x.tasks[k].phase.id));
      CommitElsewhere(x.world, e, place, x.tasks[k].phase.id, now);
      StillBefore(x.world.services, y.world.services, e, place, y.tasks[k].phase.Succeeded?);
      StaysElsewhere(x, e, place, had, k, y.world, y.tasks[k]);
    }
  }

  lemma ElsewhereStep(x: ChainState, y: ChainState, e: RegisteredEdge, place: Link, had: nat, start: nat)
    requires FailingOrElsewhere(x, e, place, had) && ChainStep(x, y, start)
    ensures FailingOrElsewhere(y, e, place, had)
  {
    var k: nat, ack, now :| start <= now && k < |x.tasks| && !x.tasks[k].Done() && y == StepOf(x, k, ack, now);
    if Failing(x.tasks) {
      FailingStays(x, k, ack, now);
    } else {
      OneElsewhere(x, e, place, had, k, ack, now);
    }
  }

  lemma {:induction false} TraceElsewhere(x: ChainState, e: RegisteredEdge, trace: seq<ChainState>, start: nat)
    requires Elsewhere(x, e, CountsAt(x.world.services, e), Count(x.world.services, CountsAt(x.world.services, e)))
    requires ChainTrace(trace, start) && trace[0] == x
    ensures var place := CountsAt(x.world.services, e);
      FailingOrElsewhere(trace[|trace| - 1], e, place, Count(x.world.services, place))
    ensures |trace[|trace| - 1].tasks| == |x.tasks|
    decreases |trace|
  {
    if |trace| > 1 {
      var place := CountsAt(x.world.services, e);
      TracePrefix(trace, start);
      TraceElsewhere(x, e, trace[..|trace| - 1], start);
      ElsewhereStep(trace[|trace| - 2], trace[|trace| - 1], e, place, Count(x.world.services, place), start);
    }
  }

  lemma AllStart(e: RegisteredEdge, n: nat)
    ensures Successes(Spawn(Racers(e, n))) == 0
    ensures forall k :: 0 <= k < n ==> Spawn(Racers(e, n))[k].edge == e
  {
    SuccessesAll(Spawn(Racers(e, n)));
  }

  lemma NewIsBefore(s: Services, e: RegisteredEdge)
    requires Unique(s) && HasRep(s, e.server, e.at) && !AlreadySetup(s, e) && !FirstHere(s, e)
    ensures CountedBefore(s, e, CountsAt(s, e)) && CountsAt(s, e) != e.Link()
  {
    NewIsAsked(s, e);
    BeforeHasEntry(s, e);
  }

  lemma BeginsElsewhere(w: World, e: RegisteredEdge, n: nat)
    requires Unique(w.services) && HasRep(w.services, e.server, e.at) && !AlreadySetup(w.services, e)
    requires !FirstHere(w.services, e)
    ensures var place := CountsAt(w.services, e);
      Elsewhere(ChainState(w, Spawn(Racers(e, n))), e, place, Count(w.services, place)) && place != e.Link()
  {
    NewIsBefore(w.services, e);
    AllStart(e, n);
  }

  lemma BeforeHasEntry(s: Services, e: RegisteredEdge)
    requires Unique(s) && !FirstHere(s, e)
    ensures Entry(s, CountsAt(s, e)).Some?
  {
    var r :| e.client in Tab(s, e.server, r) && IndexOf(Reps(s, e.server), r) < IndexOf(Reps(s, e.server), e.at);
    HolderLeast(s, e.server, e.client, r);
  }

  /**
   If a replica before the edge's own holds the client, all of any number of racing setups that succeed are counted
   there, and none on the edge itself.
   */
  lemma RaceCountsBefore(w: World, e: RegisteredEdge, n: nat, trace: seq<ChainState>, start: nat)
    requires Unique(w.services) && HasRep(w.services, e.server, e.at) && !AlreadySetup(w.services, e)
    requires !FirstHere(w.services, e)
    requires ChainTrace(trace, start) && trace[0] == ChainState(w, Spawn(Racers(e, n)))
    requires AllSucceeded(trace[|trace| - 1].tasks)
    ensures var s, b, place := w.services, trace[|trace| - 1].world.services, CountsAt(w.services, e);
      && place != e.Link() && Entry(s, place).Some?
      && Count(b, place) == Count(s, place) + n && Count(b, e.Link()) == 0
  {
    var last := trace[|trace| - 1];
    BeginsElsewhere(w, e, n);
    TraceElsewhere(trace[0], e, trace, start);
    SuccessesAll(last.tasks);
  }
}
