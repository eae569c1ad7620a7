/** Short runs in which the code does not do what it is meant to do. */
module Counterexamples {
  import opened Types
  import opened NetIdPool
  import opened ServiceTable
  import opened Chains
  import opened Teardown
  import opened Changes
  import opened Reconcile
  import opened Setup
  import opened ChainSetup
  import opened Requests
  import opened AtomicSetup
  import opened Runs
  import opened Success
  import opened Stickiness
  import opened Counts
  import opened Cycles
  import opened Loader
  import Interleaving

  // ----- how the runs begin -----

  /** Nothing is used, and the pool is as it was at the beginning. */
  ghost predicate Unused(w: World) {
    Orderly(w) && w.pool == Fresh(w.pool.net) && forall l :: Entry(w.services, l).None?
  }

  /** A host registers while nothing is registered. */
  lemma FirstRegistration(w: World, ip: Ip, list: seq<Listed>) returns (w': World)
    requires Initial(w)
    ensures w' == w.(services := AddListed(w.services, ip, list))
    ensures EventRel(w, Register(ip, list), w') && Unused(w')
  {
    w' := w.(services := AddListed(w.services, ip, list));
    var changes: seq<ServiceChange> := [];
    assert NoLongerListed(w.services, ip, list) == {};
    assert Enumerates(changes, NoLongerListed(w.services, ip, list)) && ApplyRel(w, changes, w);
    InitiallyEmpty(w);
    RegisterOrderly(w, ip, list, w');
    AddListedPorts(w.services, ip, list);
    forall l ensures Entry(w'.services, l).None? {
      assert Entry(w.services, l).None?;
    }
  }

  lemma NobodyIsHeld(s: Services, n: Name, c: Client)
    requires Unique(s) && forall r :: Entry(s, Link(c, n, r)).None?
    ensures Holder(s, n, c).None?
  {
    HolderSpec(s, n, c);
    forall r ensures c !in Tab(s, n, r) {
      assert Entry(s, Link(c, n, r)).None?;
    }
  }

  lemma RunGoesOn(run: seq<World>, event: Event, w: World)
    requires AtomicRun(run) && EventRel(run[|run| - 1], event, w)
    ensures AtomicRun(run + [w])
  {
    var longer := run + [w];
    assert Step(run[|run| - 1], w);
    forall i | 0 < i < |longer| ensures Step(longer[i - 1], longer[i]) {
      if i < |run| {
        assert longer[i - 1] == run[i - 1] && longer[i] == run[i];
      }
    }
  }

  /** The chain behind a replica of a service with one dependency. */
  function OneEdge(n: Name, at: ReplicaId, dep: Name, next: ReplicaId): RegisteredEdge {
    RegisteredEdge(at.ip, at.docker, ServiceClient(n, at), dep, next, None)
  }

  lemma ChainOfOne(s: Services, req: Request, at: ReplicaId, dep: Name, next: ReplicaId)
    requires Deps(s, req.service) == [dep] && PickReplica(s, dep) == Some(next)
    ensures ChainFor(s, req, at) == Some([OneEdge(req.service, at, dep, next), ProxyEdge(req, at)])
  {
    var chain := BuildChain(s, [dep], req.service, Some(at));
    assert [dep][1..] == [] && BuildChain(s, [], dep, Some(next)) == [];
    assert chain == [Edge(Some(at), ServiceClient(req.service, at), dep, Some(next))];
    assert chain[0].IntoRegistered() == Some(OneEdge(req.service, at, dep, next));
    assert chain[1..] == [] && AllRegistered(chain[1..]) == Some([]);
    assert [OneEdge(req.service, at, dep, next)] + [] == [OneEdge(req.service, at, dep, next)];
    assert AllRegistered(chain) == Some([OneEdge(req.service, at, dep, next)]);
    assert [OneEdge(req.service, at, dep, next)] + [ProxyEdge(req, at)] ==
           [OneEdge(req.service, at, dep, next), ProxyEdge(req, at)];
  }

  lemma OnChainOfTwo(a: RegisteredEdge, b: RegisteredEdge, l: Link)
    ensures OnChain([a, b], l) <==> l == a.Link() || l == b.Link()
  {
    assert [a, b][0] == a && [a, b][1] == b;
  }

  // ----- a service that lists itself -----

  /** A service that is its own dependency, with its only replica. */
  ghost predicate OwnDependency(s: Services, n: Name, r: ReplicaId) {
    && n in s && s[n].Registered? && Deps(s, n) == [n] && |Reps(s, n)| == 1 && Reps(s, n)[0].Id() == r
    && s[n].config.timeout.Some? && s[n].config.maxNetworks.None?
  }

  lemma {:induction false} LoopNeverEnds(s: Services, n: Name, r: ReplicaId, hops: nat)
    requires Hop(s, n, r) == Some((n, r))
    ensures !EndsWithin(s, n, r, hops)
    decreases hops
  {
    if hops > 0 {
      LoopNeverEnds(s, n, r, hops - 1);
    }
  }

  lemma HopsToItself(s: Services, n: Name, r: ReplicaId)
    requires Unique(s) && OwnDependency(s, n, r) && Entry(s, Link(ServiceClient(n, r), n, r)).Some?
    ensures Hop(s, n, r) == Some((n, r)) && !WalkEnds(s, n, r)
  {
    var c := ServiceClient(n, r);
    HolderSpec(s, n, c);
    assert c in Tab(s, n, r);
    assert Holder(s, n, c) == Some(r);
    forall hops: nat ensures !EndsWithin(s, n, r, hops) {
      LoopNeverEnds(s, n, r, hops);
    }
  }

  lemma OwnDependencyAsks(w: World, n: Name, r: ReplicaId, req: Request)
    requires Unused(w) && OwnDependency(w.services, n, r) && req.service == n
    ensures AsksForChain(w.services, req, r)
    ensures ChainFor(w.services, req, r) == Some([OneEdge(n, r, n, r), ProxyEdge(req, r)])
  {
    assert PickReplica(w.services, n) == Some(r);
    NobodyIsHeld(w.services, n, req.Client());
    ChainOfOne(w.services, req, r, n, r);
  }

  lemma ServesItself(w: World, n: Name, r: ReplicaId, req: Request, now: nat) returns (w': World, answer: Answer)
    requires Unused(w) && OwnDependency(w.services, n, r) && req.service == n
    ensures RequestRel(w, req, now, w', answer) && answer.Upstream?
    ensures Hop(w'.services, n, r) == Some((n, r)) && !WalkEnds(w'.services, n, r)
  {
    OwnDependencyAsks(w, n, r, req);
    w', answer := RequestCanBeAnswered(w, req, r, now);
    OnChainOfTwo(OneEdge(n, r, n, r), ProxyEdge(req, r), Link(ServiceClient(n, r), n, r));
    ShapeFacts(w.services, w'.services);
    HopsToItself(w'.services, n, r);
  }

  lemma LoadsItself(name: Name, timeout: nat, loaded: Services)
    requires IsLoaded([ServiceToml(name, None, [name], [], None)], timeout, loaded)
    ensures FromFile(loaded) && name in loaded
    ensures loaded[name] == Unregistered(Config([name], map[], Some(timeout), None))
  {
    var services := [ServiceToml(name, None, [name], [], None)];
    LoadedIsClosed(services, timeout, loaded);
    LoadedAt(services, timeout, loaded, name);
    DeclaredOnce(services, services[0]);
  }

  lemma RegistersItself(w: World, name: Name, port: nat, r: ReplicaId) returns (w': World)
    requires Initial(w) && name in w.services && Deps(w.services, name) == [name]
    requires w.services[name].config.timeout.Some? && w.services[name].config.maxNetworks.None?
    ensures EventRel(w, Register(r.ip, [Listed(name, port, r.docker)]), w')
    ensures Unused(w') && w'.pool.net == w.pool.net && OwnDependency(w'.services, name, r)
  {
    var list := [Listed(name, port, r.docker)];
    w' := FirstRegistration(w, r.ip, list);
    assert list[..0] == [];
    assert w'.services == w.services[name := AddReplica(w.services[name], r.ip, port, r.docker)];
  }

  /**
   A file in which a service lists itself is accepted. After one registration and one answered request, the walk along
   the service's dependencies goes from its replica to the same replica, for ever: no teardown of the chain can end.
   */
  lemma SelfDependencyNeverEnds(name: Name, timeout: nat, loaded: Services, net: NetType, port: nat, r: ReplicaId,
                                req: Request, now: nat)
    returns (run: seq<World>)
    requires IsLoaded([ServiceToml(name, None, [name], [], None)], timeout, loaded) && req.service == name
    ensures |run| == 3 && AtomicRun(run) && run[0] == World(loaded, Fresh(net), [])
    ensures EventRel(run[0], Register(r.ip, [Listed(name, port, r.docker)]), run[1])
    ensures exists answer :: RequestRel(run[1], req, now, run[2], answer) && answer.Upstream?
    ensures Hop(run[2].services, name, r) == Some((name, r)) && !WalkEnds(run[2].services, name, r)
  {
    var w0 := World(loaded, Fresh(net), []);
    LoadsItself(name, timeout, loaded);
    var w1 := RegistersItself(w0, name, port, r);
    var w2, answer := ServesItself(w1, name, r, req, now);
    run := [w0];
    RunGoesOn(run, Register(r.ip, [Listed(name, port, r.docker)]), w1);
    RunGoesOn(run + [w1], Serve(req, now), w2);
    run := run + [w1] + [w2];
  }

  // ----- a service client on two replicas -----

  const FRONT: Name := "front"
  const BACK: Name := "back"

  /** The front depends on the back. */
  function FrontAndBack(): Services {
    map[FRONT := Unregistered(Config([BACK], map[], Some(60), None)), BACK := Unregistered(Config([], map[], None, None))]
  }

  const FRONT_ID: ReplicaId := ReplicaId(1, None)
  const FIRST: ReplicaId := ReplicaId(1, Some("first"))
  const SECOND: ReplicaId := ReplicaId(1, Some("second"))

  /** One replica of the front, two of the back. */
  ghost predicate OneAndTwo(s: Services) {
    && FRONT in s && BACK in s && s[FRONT].Registered? && s[BACK].Registered?
    && s[FRONT].config == Config([BACK], map[], Some(60), None)
    && |Reps(s, FRONT)| == 1 && Reps(s, FRONT)[0].Id() == FRONT_ID
    && |Reps(s, BACK)| == 2 && Reps(s, BACK)[0].Id() == FIRST && Reps(s, BACK)[1].Id() == SECOND
  }

  lemma ShapeOneAndTwo(a: Services, b: Services)
    requires SameShape(a, b) && OneAndTwo(a)
    ensures OneAndTwo(b)
  {
  }

  function HostList(): seq<Listed> {
    [Listed(FRONT, 80, None), Listed(BACK, 81, Some("first")), Listed(BACK, 82, Some("second"))]
  }

  lemma HostIsListed(s: Services)
    requires s == FrontAndBack()
    ensures OneAndTwo(AddListed(s, 1, HostList()))
  {
    var list := HostList();
    assert list[..1][..0] == [] && list[..2][..1] == list[..1] && list[..3][..2] == list[..2] && list[..3] == list;
    assert AddListed(s, 1, list[..1][..0]) == s;
    var s1 := s[FRONT := AddReplica(s[FRONT], 1, 80, None)];
    assert AddListed(s, 1, list[..1]) == s1;
    var s2 := s1[BACK := AddReplica(s1[BACK], 1, 81, Some("first"))];
    assert AddListed(s, 1, list[..2]) == s2;
    var s3 := s2[BACK := AddReplica(s2[BACK], 1, 82, Some("second"))];
    assert AddListed(s, 1, list[..3]) == s3;
    SecondIsAppended(s2);
  }

  lemma SecondIsAppended(s: Services)
    requires BACK in s && s[BACK].Registered? && s[BACK].replicas == [Replica(1, 81, Some("first"), map[])]
    ensures AddReplica(s[BACK], 1, 82, Some("second")) ==
      Registered(s[BACK].config, s[BACK].replicas + [Replica(1, 82, Some("second"), map[])])
  {
    assert IndexOf(s[BACK].replicas, SECOND) == 1;
  }

  lemma HostRegisters(net: NetType) returns (w: World, w': World)
    ensures w == World(FrontAndBack(), Fresh(net), []) && Initial(w)
    ensures EventRel(w, Register(1, HostList()), w') && Unused(w') && OneAndTwo(w'.services)
  {
    w := World(FrontAndBack(), Fresh(net), []);
    w' := FirstRegistration(w, 1, HostList());
    HostIsListed(w.services);
  }

  /** The back's first replica is picked while nobody uses it, the second while only the first is used. */
  lemma PicksOfBack(s: Services)
    requires Unique(s) && OneAndTwo(s)
    ensures PickReplica(s, FRONT) == Some(FRONT_ID)
    ensures Tab(s, BACK, FIRST) == map[] ==> PickReplica(s, BACK) == Some(FIRST)
    ensures Tab(s, BACK, FIRST) != map[] && Tab(s, BACK, SECOND) == map[] ==> PickReplica(s, BACK) == Some(SECOND)
  {
    TabAt(Reps(s, BACK), 0);
    TabAt(Reps(s, BACK), 1);
    var i := LeastClients(Reps(s, BACK));
    assert i == 0 || i == 1;
  }

  lemma FrontAsks(w: World, req: Request, next: ReplicaId)
    requires Orderly(w) && OneAndTwo(w.services) && req.service == FRONT && PickReplica(w.services, BACK) == Some(next)
    requires forall r :: Entry(w.services, Link(req.Client(), FRONT, r)).None?
    ensures AsksForChain(w.services, req, FRONT_ID)
    ensures ChainFor(w.services, req, FRONT_ID) == Some([OneEdge(FRONT, FRONT_ID, BACK, next), ProxyEdge(req, FRONT_ID)])
  {
    PicksOfBack(w.services);
    NobodyIsHeld(w.services, FRONT, req.Client());
    ChainOfOne(w.services, req, FRONT_ID, BACK, next);
  }

  /** One answered request brings the edge to the picked replica of the back, and the user. */
  lemma FrontAnswers(w: World, req: Request, next: ReplicaId, now: nat) returns (w': World, answer: Answer)
    requires Orderly(w) && OneAndTwo(w.services) && req.service == FRONT && PickReplica(w.services, BACK) == Some(next)
    requires forall r :: Entry(w.services, Link(req.Client(), FRONT, r)).None?
    requires Spare(w.pool) >= 2
    ensures RequestRel(w, req, now, w', answer) && answer.Upstream? && EventRel(w, Serve(req, now), w')
    ensures Orderly(w') && OneAndTwo(w'.services) && Spare(w'.pool) >= Spare(w.pool) - 2
    ensures forall l :: Entry(w'.services, l).Some? <==>
      Entry(w.services, l).Some? || l == Link(ServiceClient(FRONT, FRONT_ID), BACK, next)
      || l == Link(req.Client(), FRONT, FRONT_ID)
  {
    FrontAsks(w, req, next);
    w', answer := RequestCanBeAnswered(w, req, FRONT_ID, now);
    ShapeOneAndTwo(w.services, w'.services);
    forall l {
      OnChainOfTwo(OneEdge(FRONT, FRONT_ID, BACK, next), ProxyEdge(req, FRONT_ID), l);
    }
  }

  lemma EmptyTab(s: Services, n: Name, r: ReplicaId)
    requires forall c :: Entry(s, Link(c, n, r)).None?
    ensures Tab(s, n, r) == map[]
  {
    forall c ensures c !in Tab(s, n, r) {
      assert Entry(s, Link(c, n, r)).None?;
    }
  }

  /** The chain of the first user leads to the first replica of the back. */
  lemma FirstUser(w: World, req: Request, now: nat) returns (w': World)
    requires Unused(w) && OneAndTwo(w.services) && req.service == FRONT
    ensures EventRel(w, Serve(req, now), w') && Orderly(w') && OneAndTwo(w'.services) && Spare(w'.pool) >= 2
    ensures forall l :: Entry(w'.services, l).Some? <==>
      l == Link(ServiceClient(FRONT, FRONT_ID), BACK, FIRST) || l == Link(req.Client(), FRONT, FRONT_ID)
  {
    EmptyTab(w.services, BACK, FIRST);
    PicksOfBack(w.services);
    var answer: Answer;
    w', answer := FrontAnswers(w, req, FIRST, now);
  }

  /** The chain of the second leads to the other one, which nobody uses. */
  lemma SecondUser(w: World, one: Client, req: Request, now: nat) returns (w': World)
    requires Orderly(w) && OneAndTwo(w.services) && Spare(w.pool) >= 2 && req.service == FRONT && req.Client() != one
    requires forall l :: Entry(w.services, l).Some? <==>
      l == Link(ServiceClient(FRONT, FRONT_ID), BACK, FIRST) || l == Link(one, FRONT, FRONT_ID)
    ensures EventRel(w, Serve(req, now), w')
    ensures ServiceClient(FRONT, FRONT_ID) in Tab(w'.services, BACK, FIRST)
    ensures ServiceClient(FRONT, FRONT_ID) in Tab(w'.services, BACK, SECOND)
    ensures Count(w'.services, Link(ServiceClient(FRONT, FRONT_ID), BACK, SECOND)) == 0
  {
    var c := ServiceClient(FRONT, FRONT_ID);
    assert Entry(w.services, Link(c, BACK, FIRST)).Some?;
    EmptyTab(w.services, BACK, SECOND);
    PicksOfBack(w.services);
    var answer: Answer;
    w', answer := FrontAnswers(w, req, SECOND, now);
    assert Entry(w'.services, Link(c, BACK, FIRST)).Some? && Entry(w'.services, Link(c, BACK, SECOND)).Some?;
    FrontAsks(w, req, SECOND);
    CountedOnTheFirst(w, req, now, w', answer);
  }

  /** The chain of an answered request counts nothing on the back's second replica while the first holds the client. */
  lemma CountedOnTheFirst(w: World, req: Request, now: nat, w': World, answer: Answer)
    requires Unique(w.services) && OneAndTwo(w.services) && AsksForChain(w.services, req, FRONT_ID)
    requires RequestRel(w, req, now, w', answer) && answer.Upstream?
    requires Entry(w.services, Link(ServiceClient(FRONT, FRONT_ID), BACK, FIRST)).Some?
    ensures var l := Link(ServiceClient(FRONT, FRONT_ID), BACK, SECOND); Count(w'.services, l) <= Count(w.services, l)
  {
    var s, l := w.services, Link(ServiceClient(FRONT, FRONT_ID), BACK, SECOND);
    var edges := ChainFor(s, req, FRONT_ID).value;
    var ok, upstream :| ChainSetupRel(w, edges, now, w', ok, upstream)
      && answer == ChainAnswer(ok, upstream, Port(s, req.service, FRONT_ID));
    IndexIs(Reps(s, BACK), 0);
    IndexIs(Reps(s, BACK), 1);
    assert l.client in Tab(s, BACK, FIRST);
    LaterIsNotCounted(w, edges, now, w', upstream, l);
  }

  /**
   The front has one replica, the back two, and two users ask for the front one after the other. The second chain goes
   to the back's other replica, as nobody uses that one, and the front's replica is a client of both. The second edge
   counts no chain: its chain is counted on the first one.
   */
  lemma ClientOnTwoReplicas(net: NetType, proxy: Ip, one: Name, two: Name, now: nat) returns (run: seq<World>)
    requires one != two
    ensures |run| == 4 && AtomicRun(run) && run[0] == World(FrontAndBack(), Fresh(net), [])
    ensures EventRel(run[0], Register(1, HostList()), run[1])
    ensures EventRel(run[1], Serve(Request(FRONT, proxy, one), now), run[2]) && ServiceOnce(run[2].services)
    ensures EventRel(run[2], Serve(Request(FRONT, proxy, two), now), run[3]) && !ServiceOnce(run[3].services)
    ensures ServiceClient(FRONT, FRONT_ID) in Tab(run[3].services, BACK, FIRST)
    ensures ServiceClient(FRONT, FRONT_ID) in Tab(run[3].services, BACK, SECOND)
    ensures Count(run[3].services, Link(ServiceClient(FRONT, FRONT_ID), BACK, SECOND)) == 0
  {
    var c := ServiceClient(FRONT, FRONT_ID);
    var req1, req2 := Request(FRONT, proxy, one), Request(FRONT, proxy, two);
    var w0, w1 := HostRegisters(net);
    var w2 := FirstUser(w1, req1, now);
    OnceWithOneEdge(w2.services, Link(c, BACK, FIRST));
    var w3 := SecondUser(w2, req1.Client(), req2, now);
    assert !OnOneReplica(w3.services, BACK, c);
    run := [w0];
    RunGoesOn(run, Register(1, HostList()), w1);
    RunGoesOn(run + [w1], Serve(req1, now), w2);
    RunGoesOn(run + [w1] + [w2], Serve(req2, now), w3);
    run := run + [w1] + [w2] + [w3];
  }

  lemma OnceWithOneEdge(s: Services, l: Link)
    requires forall x: Link :: x.client.proxy.None? && Entry(s, x).Some? ==> x == l
    ensures ServiceOnce(s)
  {
    forall n, c: Client, r, q | c.proxy.None? && c in Tab(s, n, r) && c in Tab(s, n, q) ensures r == q {
      assert Entry(s, Link(c, n, r)).Some? && Entry(s, Link(c, n, q)).Some?;
    }
  }

  // ----- an ID that nobody owns -----

  /** One service with two replicas. */
  ghost predicate TwoReplicas(s: Services) {
    && s.Keys == {BACK} && s[BACK].Registered? && s[BACK].config == Config([], map[], Some(60), None)
    && s[BACK].replicas == [Replica(1, 81, Some("first"), map[]), Replica(1, 82, Some("second"), map[])]
  }

  lemma NoEntries(s: Services)
    requires TwoReplicas(s)
    ensures Unique(s) && HasRep(s, BACK, FIRST) && forall l :: Entry(s, l).None?
  {
    assert Reps(s, BACK)[0].Id() == FIRST && Reps(s, BACK)[1].Id() == SECOND;
    TabAt(Reps(s, BACK), 0);
    TabAt(Reps(s, BACK), 1);
    forall l ensures Entry(s, l).None? {
      TabNeedsRep(s, l.server, l.at);
    }
  }

  lemma IdleBackend(w: World)
    requires TwoReplicas(w.services)
    ensures OpRel(w, BackendOp(BACK, FIRST, None), w)
  {
    var ports: seq<nat> := [];
    assert Enumerates(ports, Triggers(w.services, BACK).Keys);
    assert TriggerEdges(w.services, BACK, FIRST, None, ports) == [];
    assert BackendEdges(w.services, BACK, FIRST, None, []);
    assert DecrementEdges(w, []) == w;
  }

  lemma IdleChain(w: World)
    requires TwoReplicas(w.services)
    ensures OpRel(w, ChainOp(BACK, OnReplica(FIRST)), w)
  {
    NoEntries(w.services);
    assert Collected(w.services, BACK, OnReplica(FIRST), []);
    assert TeardownChain(w, BACK, []) == w;
  }

  lemma NothingToTearDown(w: World)
    requires TwoReplicas(w.services)
    ensures OpsRel(w, [BackendOp(BACK, FIRST, None)], w) && OpsRel(w, [ChainOp(BACK, OnReplica(FIRST))], w)
    ensures OpsRel(w, [BackendOp(BACK, FIRST, None), ChainOp(BACK, OnReplica(FIRST))], w)
  {
    var before, chain := BackendOp(BACK, FIRST, None), ChainOp(BACK, OnReplica(FIRST));
    IdleBackend(w);
    IdleChain(w);
    OpsExtend(w, [], w, before, w);
    OpsExtend(w, [], w, chain, w);
    assert [] + [before] == [before] && [] + [chain] == [chain];
    OpsExtend(w, [before], w, chain, w);
    assert [before] + [chain] == [before, chain];
  }

  lemma FirstIsPlanned(w: World)
    requires TwoReplicas(w.services)
    ensures Plan(w, ReplicaRemoved(BACK, FIRST), [BackendOp(BACK, FIRST, None), ChainOp(BACK, OnReplica(FIRST))], w)
  {
    var before, chain := BackendOp(BACK, FIRST, None), ChainOp(BACK, OnReplica(FIRST));
    var affected: seq<Client> := [];
    NothingToTearDown(w);
    assert Covers(affected, Affected(w.services, BACK, OnReplica(FIRST)));
    assert UpstreamOps(BACK, affected) + [chain] == [chain];
    assert PartialPlan(w.services, BACK, OnReplica(FIRST), [chain]);
    assert [before] + [chain] == [before, chain];
    assert ThenPartial(w, [before], BACK, OnReplica(FIRST), [before, chain], w);
  }

  /** A replica without clients goes without a teardown. */
  lemma FirstGoes(w: World)
    requires TwoReplicas(w.services)
    ensures ApplyRel(w, [ReplicaRemoved(BACK, FIRST)],
                     w.(services := DropReplicas(w.services, BACK, OtherThan(FIRST))))
  {
    FirstChanges(w);
    ApplyOne(w, ReplicaRemoved(BACK, FIRST), w.(services := DropReplicas(w.services, BACK, OtherThan(FIRST))));
  }

  lemma FirstChanges(w: World)
    requires TwoReplicas(w.services)
    ensures ChangeRel(w, ReplicaRemoved(BACK, FIRST), w.(services := DropReplicas(w.services, BACK, OtherThan(FIRST))))
  {
    var ops := [BackendOp(BACK, FIRST, None), ChainOp(BACK, OnReplica(FIRST))];
    FirstIsPlanned(w);
    NothingToTearDown(w);
    assert Plan(w, ReplicaRemoved(BACK, FIRST), ops, w) && OpsRel(w, ops, w);
  }

  lemma ApplyOne(w: World, change: ServiceChange, w': World)
    requires ChangeRel(w, change, w')
    ensures ApplyRel(w, [change], w')
  {
    var changes := [change];
    assert changes[..|changes| - 1] == [] && changes[|changes| - 1] == change;
    assert ApplyRel(w, changes[..|changes| - 1], w) && ChangeRel(w, changes[|changes| - 1], w');
  }

  lemma FirstIsGone(s: Services)
    requires TwoReplicas(s)
    ensures var b := DropReplicas(s, BACK, OtherThan(FIRST));
      Unique(b) && IsRegistered(b, BACK) && !HasRep(b, BACK, FIRST) && forall l :: Entry(b, l).None?
  {
    var b := DropReplicas(s, BACK, OtherThan(FIRST));
    NoEntries(s);
    KeepPorts(s, BACK, OtherThan(FIRST));
    HasRepByPort(b, BACK, FIRST);
    forall l ensures Entry(b, l).None? {
      assert Entry(s, l).None?;
    }
    var reps := s[BACK].replicas;
    assert Retain(reps, OtherThan(FIRST)) == Retain(reps[1..], OtherThan(FIRST)) != [];
  }

  lemma InterleavingGoesOn(run: seq<Interleaving.System>, b: Interleaving.System)
    requires Interleaving.Reachable(run) && Interleaving.Step(run[|run| - 1], b)
    ensures Interleaving.Reachable(run + [b])
  {
    var longer := run + [b];
    assert longer[0] == run[0];
    forall i | 0 < i < |longer| ensures Interleaving.Step(longer[i - 1], longer[i]) {
      if i < |run| {
        assert longer[i - 1] == run[i - 1] && longer[i] == run[i];
      }
    }
  }

  /** The service alone, as loaded. */
  function BackAlone(): Services {
    map[BACK := Unregistered(Config([], map[], Some(60), None))]
  }

  function BackList(): seq<Listed> {
    [Listed(BACK, 81, Some("first")), Listed(BACK, 82, Some("second"))]
  }

  lemma BackIsListed()
    ensures TwoReplicas(AddListed(BackAlone(), 1, BackList()))
  {
    var s, list := BackAlone(), BackList();
    assert list[..1][..0] == [] && list[..2][..1] == list[..1] && list[..2] == list;
    assert AddListed(s, 1, list[..1][..0]) == s;
    var s1 := s[BACK := AddReplica(s[BACK], 1, 81, Some("first"))];
    assert AddListed(s, 1, list[..1]) == s1;
    assert AddListed(s, 1, list[..2]) == s1[BACK := AddReplica(s1[BACK], 1, 82, Some("second"))];
    SecondIsAppended(s1);
  }

  /** The host brings both replicas. */
  lemma BothRegister(a: Interleaving.System) returns (b: Interleaving.System)
    requires a.services == BackAlone()
    ensures b == a.(services := b.services) && Interleaving.Step(a, b) && TwoReplicas(b.services)
  {
    var w := World(a.services, a.pool, []);
    var section := Interleaving.Section.Register([], 1, BackList());
    var w' := w.(services := AddListed(w.services, 1, BackList()));
    BackIsListed();
    b := a.(services := w'.services);
    assert Interleaving.SectionRel(w, section, w') by {
      assert ApplyRel(w, [], w);
    }
    assert a.pending + Interleaving.Ids(w'.downs) == a.pending;
    assert Interleaving.SectionStep(a, section, b);
  }

  /** The host's next list leaves the first one out. */
  lemma FirstIsUnlisted(a: Interleaving.System) returns (b: Interleaving.System)
    requires TwoReplicas(a.services)
    ensures b == a.(services := DropReplicas(a.services, BACK, OtherThan(FIRST))) && Interleaving.Step(a, b)
  {
    var w := World(a.services, a.pool, []);
    var section := Interleaving.Section.Apply([ReplicaRemoved(BACK, FIRST)]);
    FirstGoes(w);
    b := a.(services := DropReplicas(a.services, BACK, OtherThan(FIRST)));
    assert a.pending + Interleaving.Ids([]) == a.pending;
    assert Interleaving.SectionStep(a, section, b);
  }

  ghost predicate OneTask(a: Interleaving.System, req: Request, phase: Phase) {
    a.tasks == [Task(ProxyEdge(req, FIRST), phase)] && a.pending == []
  }

  lemma UserIsSpawned(a: Interleaving.System, req: Request) returns (b: Interleaving.System)
    requires a.tasks == []
    ensures Interleaving.Step(a, b) && b == a.(tasks := [Task(ProxyEdge(req, FIRST), Start)])
  {
    var edges := [ProxyEdge(req, FIRST)];
    assert AllSourced(edges) && Spawn(edges) == [Task(edges[0], Start)];
    b := a.(tasks := [Task(ProxyEdge(req, FIRST), Start)]);
    assert b == a.(tasks := a.tasks + Spawn(edges));
  }

  lemma BeforeAll(net: NetType) returns (run: seq<Interleaving.System>)
    ensures run == [Interleaving.System(BackAlone(), Fresh(net), [], [])] && Interleaving.Reachable(run)
  {
    run := [Interleaving.System(BackAlone(), Fresh(net), [], [])];
    assert FromFile(BackAlone());
  }

  /** The chain of a user is spawned while both replicas are there; before its task starts the first one goes. */
  lemma FirstIsPicked(net: NetType, req: Request) returns (run: seq<Interleaving.System>)
    requires req.service == BACK
    ensures Interleaving.Reachable(run) && Left(run[|run| - 1], req) && run[|run| - 1].pool == Fresh(net)
  {
    run := BeforeAll(net);
    var a1 := BothRegister(run[0]);
    InterleavingGoesOn(run, a1);
    var a2 := UserIsSpawned(a1, req);
    InterleavingGoesOn(run + [a1], a2);
    var a3 := FirstIsUnlisted(a2);
    InterleavingGoesOn(run + [a1] + [a2], a3);
    FirstIsGone(a2.services);
    run := run + [a1] + [a2] + [a3];
  }

  /** The replica that the waiting task leads to has gone. */
  ghost predicate Left(a: Interleaving.System, req: Request) {
    && Unique(a.services) && IsRegistered(a.services, BACK) && !HasRep(a.services, BACK, FIRST)
    && (forall l :: Entry(a.services, l).None?) && OneTask(a, req, Start)
  }

  /** The task reserves nothing, and takes an ID. */
  lemma FirstIsTaken(run: seq<Interleaving.System>, req: Request, now: nat)
    returns (longer: seq<Interleaving.System>, id: nat)
    requires Interleaving.Reachable(run) && Left(run[|run| - 1], req) && req.service == BACK
    requires Valid(run[|run| - 1].pool) && Spare(run[|run| - 1].pool) > 0
    ensures Interleaving.Reachable(longer) && OneTask(longer[|longer| - 1], req, Allocated(id))
    ensures longer[|longer| - 1].services == run[|run| - 1].services
  {
    var a, e := run[|run| - 1], ProxyEdge(req, FIRST);
    NobodyIsHeld(a.services, BACK, req.Client());
    AddClientSpec(a.services, BACK, FIRST, req.Client(), Placeholder(e.clientIp, now));
    var b := Interleaving.TaskStep(a, 0, true, now);
    assert b.services == a.services && b.pool == a.pool && OneTask(b, req, Reserved);
    SpareTaken(b.pool);
    var c := Interleaving.TaskStep(b, 0, true, now);
    InterleavingGoesOn(run, b);
    InterleavingGoesOn(run + [b], c);
    longer, id := run + [b] + [c], c.tasks[0].phase.id;
  }

  /**
   A replica goes between the moment it is picked for a user and the moment the user's slot is reserved. The setup
   still succeeds, and the ID of its network stays in use though nothing owns it.
   */
  lemma CommitWithoutReplica(net: NetType, req: Request, now: nat) returns (run: seq<Interleaving.System>, id: nat)
    requires req.service == BACK
    ensures Interleaving.Reachable(run) && |run[|run| - 1].tasks| == 1
    ensures run[|run| - 1].tasks[0].edge == ProxyEdge(req, FIRST) && run[|run| - 1].tasks[0].phase.Succeeded?
    ensures Live(run[|run| - 1].pool, id) && !Interleaving.HasOwner(run[|run| - 1], id)
  {
    run := FirstIsPicked(net, req);
    run, id := FirstIsTaken(run, req, now);
    var a := run[|run| - 1];
    Interleaving.IdsAreExclusive(run);
    Interleaving.CommitOwnsIffReplica(a, 0, now);
    var b := Interleaving.TaskStep(a, 0, true, now);
    InterleavingGoesOn(run, b);
    run := run + [b];
  }
}
