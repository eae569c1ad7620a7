/** What a request does as a whole, and that a timeout takes it back. */
module FlowRequests {
  import opened Types
  import opened NetIdPool
  import opened ServiceTable
  import opened Teardown
  import opened Changes
  import opened Settlement
  import opened Setup
  import opened ChainSetup
  import opened Requests
  import opened Sharing
  import opened AtomicSetup
  import opened AtomicRequests
  import opened Flow
  import opened FlowTeardown
  import opened Conservation
  import opened Cascade
  import opened FlowChanges
  import opened FlowSetup
  import opened FlowReuse
  import opened FlowTriggers
  import opened FlowOperations
  import Users

  // ----- the counts follow from the edges that chains start with -----

  /** The users, and the first edges of trigger chains, count the same. */
  ghost predicate SameRootLoads(a: Services, b: Services) {
    forall l: Link :: !IsOut(a, l) ==> Load(a, l) == Load(b, l)
  }

  lemma OutLinkOf(s: Services, l: Link)
    requires FlowInvariant(s) && Load(s, l) > 0 && IsOut(s, l)
    ensures l.client.replica.Some?
    ensures var m, q := l.client.name, l.client.replica.value;
      HasRep(s, m, q) && Deps(s, m) != [] && l == OutLink(s, m, q) && Deps(s, l.server) == Deps(s, m)[1..]
  {
    LoadOfEntry(s, l);
    EntryIsOutLink(s, l);
  }

  /**
   Two tables of the same shape with the same users and the same trigger chains have the same number of chains on every
   edge.
   */
  lemma {:induction false} CountsFollowRoots(a: Services, b: Services, l: Link, bound: nat)
    requires FlowInvariant(a) && FlowInvariant(b) && SameShape(a, b) && SameRootLoads(a, b)
    requires forall n :: |Deps(a, n)| <= bound
    ensures Load(a, l) == Load(b, l)
    decreases bound - |Deps(a, l.server)|
  {
    if IsOut(a, l) && (Load(a, l) > 0 || Load(b, l) > 0) {
      ShapeFacts(a, b);
      SameEdgeKinds(a, b);
      OutLinkOf(if Load(a, l) > 0 then a else b, l);
      var m, q := l.client.name, l.client.replica.value;
      SameSole(a, b, Deps(a, m)[0]);
      assert |Deps(a, l.server)| < |Deps(a, m)|;
      assert l == OutLink(a, m, q) == OutLink(b, m, q);
      forall c ensures LoadWithout(b, {}, Link(c, m, q)) == LoadWithout(a, {}, Link(c, m, q)) {
        CountsFollowRoots(a, b, Link(c, m, q), bound);
      }
      InflowShift(a, {}, b, {}, Link(l.client, m, q), 0);
      assert HasRep(a, m, q) && HasRep(b, m, q);
    }
  }

  // ----- growing and shrinking back -----

  lemma CountedIsThere(s: Services, l: Link)
    requires FlowInvariant(s)
    ensures Entry(s, l).Some? <==> Load(s, l) >= 1
    ensures Entry(s, l).Some? ==> Load(s, l) == Entry(s, l).value.activeChains
  {
    LoadOfEntry(s, l);
    if Entry(s, l).Some? {
      assert LinkOk(s, l, Entry(s, l).value);
    }
  }

  lemma GrownAndShrunkBack(a: Services, m: Services, b: Services)
    requires FlowInvariant(a) && FlowInvariant(b) && SameShape(a, b) && SameRootLoads(a, b)
    requires Grown(a, m) && Shrunk(m, b)
    ensures Refreshed(a, b)
  {
    var bound := DepsBounded(a);
    forall l ensures Alike(Entry(a, l), Entry(b, l)) {
      CountsFollowRoots(a, b, l, bound);
      CountedIsThere(a, l);
      CountedIsThere(b, l);
    }
  }

  // ----- requests -----

  /** The flow invariant, and the IDs in use are exactly those of the entries. */
  ghost predicate Exact(w: World) {
    Sound(w.services) && PoolExact(w)
  }

  lemma ExactIsOrderly(w: World)
    requires Exact(w)
    ensures Orderly(w)
  {
    forall l: Link | l.client.proxy.Some? && Entry(w.services, l).Some?
      ensures Entry(w.services, l).value.serverNet != UNSPECIFIED
    {
      assert LinkOk(w.services, l, Entry(w.services, l).value);
    }
  }

  lemma RefreshedExact(w: World, w': World)
    requires Exact(w) && Refreshed(w.services, w'.services) && SameIds(w.pool, w'.pool)
    ensures Exact(w')
  {
    RefreshedKeepsFlow(w.services, w'.services);
    RefreshedHolds(w.services, w'.services);
  }

  /** Nothing but time stamps changes. */
  ghost predicate NoEffect(w: World, w': World) {
    Refreshed(w.services, w'.services) && SameIds(w.pool, w'.pool)
  }

  lemma Unchanged(w: World)
    requires PoolExact(w)
    ensures NoEffect(w, w)
  {
  }

  lemma ChainPrepared(s: Services, req: Request, at: ReplicaId)
    requires FlowInvariant(s) && !HasHolder(s, req)
    requires HasRep(s, req.service, at) && ChainFor(s, req, at).Some?
    ensures ChainOf(s, req, at, ChainFor(s, req, at).value) && Ready(s, ChainFor(s, req, at).value)
  {
    ChainForSpec(s, req, at);
    ChainIsReady(s, req, at, ChainFor(s, req, at).value);
  }

  lemma ChainRequest(w: World, req: Request, at: ReplicaId, now: nat, w': World, ok: bool, upstream: Option<Ipv4>)
    requires Exact(w) && !HasHolder(w.services, req)
    requires HasRep(w.services, req.service, at) && ChainFor(w.services, req, at).Some?
    requires ChainSetupRel(w, ChainFor(w.services, req, at).value, now, w', ok, upstream)
    ensures Exact(w')
    ensures if ok then Arrived(w.services, w'.services, Link(req.Client(), req.service, at)) else NoEffect(w, w')
  {
    var edges, p := ChainFor(w.services, req, at).value, Link(req.Client(), req.service, at);
    ChainPrepared(w.services, req, at);
    if ok {
      SuccessfulSetup(w, edges, now, w', upstream);
      UserChainStarts(w.services, req, at, edges);
      SetUpKeepsFlow(w, edges, p, w');
      SetUpArrives(w, edges, p, w');
    } else {
      FailedSetupIsNoOp(w, edges, now, w', upstream);
      RefreshedExact(w, w');
    }
  }

  lemma NewChainRequest(w: World, req: Request, now: nat, w': World, answer: Answer)
    requires Exact(w) && NewChainRel(w, req, now, w', answer)
    requires !HasHolder(w.services, req) && !MustShare(w.services, req.service, req.proxy)
    ensures Exact(w')
    ensures if answer.Upstream? then exists at :: Arrived(w.services, w'.services, Link(req.Client(), req.service, at))
            else NoEffect(w, w')
  {
    var s, pick := w.services, PickReplica(w.services, req.service);
    if pick.Some? && ChainFor(s, req, pick.value).Some? {
      var ok, upstream :| ChainSetupRel(w, ChainFor(s, req, pick.value).value, now, w', ok, upstream)
        && answer == ChainAnswer(ok, upstream, Port(s, req.service, pick.value));
      PickedIsThere(s, req.service);
      ExactIsOrderly(w);
      ChainIsOrderly(w, req, pick.value, now, w', ok, upstream, answer);
      ChainRequest(w, req, pick.value, now, w', ok, upstream);
    } else {
      Unchanged(w);
    }
  }

  lemma StickyRequest(w: World, req: Request, now: nat, w': World, answer: Answer)
    requires Exact(w) && RequestRel(w, req, now, w', answer) && HasHolder(w.services, req)
    requires req.service in w.services && w.services[req.service].config.timeout.Some?
    ensures Exact(w') && NoEffect(w, w')
  {
    ExactIsOrderly(w);
    StickyIsOrderly(w, req, now, w', answer);
    Unchanged(w);
    RefreshedExact(w, w');
  }

  lemma SharedRequest(w: World, l: Link, req: Request, now: nat, w': World, answer: Answer)
    requires Exact(w) && Reusable(w.services, req.service, req.proxy, l) && !HasHolder(w.services, req)
    requires ReuseRel(w, l, req.Client(), req.proxy, now, w')
    requires answer == AnswerFrom(w.services, req.service, l.at, Entry(w.services, l).value)
    ensures Exact(w') && answer.Upstream?
    ensures Arrived(w.services, w'.services, Link(req.Client(), req.service, l.at))
  {
    ReuseKeepsFlow(w, l, req, now, w');
    EntryNeedsRep(w.services, l);
    PortOf(w.services, req.service, l.at);
  }

  /**
   In the flow regime a request keeps the flow invariant and the exact pool. A new user that is answered has arrived
   with a chain of its own; in every other case nothing but time stamps changes.
   */
  lemma RequestKeepsFlow(w: World, req: Request, now: nat, w': World, answer: Answer)
    requires Exact(w) && RequestRel(w, req, now, w', answer)
    ensures Exact(w')
    ensures if answer.Upstream? && !HasHolder(w.services, req) then
              exists at :: Arrived(w.services, w'.services, Link(req.Client(), req.service, at))
            else NoEffect(w, w')
  {
    var s, n := w.services, req.service;
    Unchanged(w);
    if n in s && s[n].config.timeout.Some? && s[n].Registered? {
      if HasHolder(s, req) {
        StickyRequest(w, req, now, w', answer);
      } else if MustShare(s, n, req.proxy) {
        var l: Link :| LeastUsed(s, n, req.proxy, l) && ReuseRel(w, l, req.Client(), req.proxy, now, w')
          && answer == AnswerFrom(s, n, l.at, Entry(s, l).value);
        SharedRequest(w, l, req, now, w', answer);
      } else {
        NewChainRequest(w, req, now, w', answer);
      }
    }
  }

  // ----- triggers -----

  lemma ReplicaOnIsThere(s: Services, n: Name, ip: Ip)
    requires ReplicaOn(Reps(s, n), ip).Some?
    ensures HasRep(s, n, ReplicaOn(Reps(s, n), ip).value)
  {
    ReplicaOnIn(Reps(s, n), ip);
  }

  lemma {:induction false} ReplicaOnIn(reps: seq<Replica>, ip: Ip)
    requires ReplicaOn(reps, ip).Some?
    ensures exists i :: 0 <= i < |reps| && reps[i].Id() == ReplicaOn(reps, ip).value
  {
    if reps[0].ip == ip {
      assert reps[0].Id() == ReplicaOn(reps, ip).value;
    } else {
      ReplicaOnIn(reps[1..], ip);
      var i :| 0 <= i < |reps[1..]| && reps[1..][i].Id() == ReplicaOn(reps, ip).value;
      assert reps[i + 1].Id() == ReplicaOn(reps, ip).value;
    }
  }

  lemma TriggeredChainIs(w: World, n: Name, at: ReplicaId, port: nat, now: nat, w': World, ok: bool,
                         upstream: Option<Ipv4>)
    requires Exact(w) && HasRep(w.services, n, at) && TriggeredEdges(w.services, n, at, port).Some?
    requires TriggerAt(w.services, n, port) != []
    requires Holder(w.services, TriggerAt(w.services, n, port)[0], ServiceClient(n, at)).None?
    requires ChainSetupRel(w, TriggeredEdges(w.services, n, at, port).value, now, w', ok, upstream)
    ensures Exact(w')
    ensures if ok then Arrived(w.services, w'.services, TriggerRoot(w.services, n, at, port)) else NoEffect(w, w')
  {
    var edges, p := TriggeredEdges(w.services, n, at, port).value, TriggerRoot(w.services, n, at, port);
    TriggerChainSpec(w.services, n, at, port);
    TriggerChainIsReady(w.services, n, at, port, edges);
    if ok {
      SuccessfulSetup(w, edges, now, w', upstream);
      TriggerChainStarts(w.services, n, at, port, edges);
      SetUpKeepsFlow(w, edges, p, w');
      SetUpArrives(w, edges, p, w');
    } else {
      FailedSetupIsNoOp(w, edges, now, w', upstream);
      RefreshedExact(w, w');
    }
  }

  /** The chain of the trigger, for some replica, is new. */
  ghost predicate TriggerArrived(a: Services, b: Services, n: Name, port: nat) {
    TriggerAt(a, n, port) != [] && exists at :: Arrived(a, b, TriggerRoot(a, n, at, port))
  }

  /**
   A backend trigger keeps the flow invariant and the exact pool. Either its chain has arrived, with its first edge, or
   nothing but time stamps changes.
   */
  lemma TriggerKeepsExact(w: World, n: Name, port: nat, sender: Ip, now: nat, w': World)
    requires Exact(w) && TriggerRel(w, n, port, sender, now, w')
    ensures Exact(w')
    ensures NoEffect(w, w') || TriggerArrived(w.services, w'.services, n, port)
  {
    Unchanged(w);
    if w' != w {
      var at := ReplicaOn(Reps(w.services, n), sender).value;
      var ok, upstream :| ChainSetupRel(w, TriggeredEdges(w.services, n, at, port).value, now, w', ok, upstream);
      ReplicaOnIsThere(w.services, n, sender);
      assert TriggerChain(w.services, n, port) == TriggerAt(w.services, n, port);
      TriggeredChainIs(w, n, at, port, now, w', ok, upstream);
    }
  }

  // ----- a timeout takes a request back -----

  lemma RootsBack(a: Services, m: Services, b: Services, p: Link)
    requires Unique(a) && Holder(a, p.server, p.client).None? && Arrived(a, m, p) && p.client.proxy.Some?
    requires forall l: Link :: l.client.proxy.Some? ==>
      Entry(b, l) == if l.server == p.server && l.client == p.client then None else Entry(m, l)
    requires SameTriggered(m, b)
    ensures SameRootLoads(a, b)
  {
    HolderSpec(a, p.server, p.client);
    SameEdgeKinds(a, m);
    forall l: Link | !IsOut(a, l) ensures Load(a, l) == Load(b, l) {
      LoadOfEntry(a, l);
      LoadOfEntry(b, l);
      assert l.server == p.server && l.client == p.client ==> Entry(a, l).None?;
    }
  }

  lemma TimeoutKeepsTriggers(w: World, n: Name, c: Client, w': World)
    requires FlowInvariant(w.services) && ChangeRel(w, ProxyClientTimedOut(n, c), w')
    ensures SameTriggered(w.services, w'.services)
  {
    var ops, mid: World :| Plan(w, ProxyClientTimedOut(n, c), ops, mid) && OpsRel(w, ops, mid)
      && w' == mid.(services := Finish(w.services, mid.services, ProxyClientTimedOut(n, c)));
    OpsKeepFlow(w, ops, mid);
    forall l ensures !SomeCutsTrigger(w.services, ops, l) {}
  }

  /**
   A request of a new user that was answered, followed by the timeout of that user, restores every entry with its
   network and its count, and the IDs in use; only time stamps may differ.
   */
  lemma TimeoutUndoesRequest(w: World, req: Request, now: nat, w1: World, answer: Answer, w2: World)
    requires Exact(w) && RequestRel(w, req, now, w1, answer) && answer.Upstream? && !HasHolder(w.services, req)
    requires ChangeRel(w1, ProxyClientTimedOut(req.service, req.Client()), w2)
    ensures NoEffect(w, w2)
  {
    var n, c := req.service, req.Client();
    ExactIsOrderly(w);
    RequestIsOrderly(w, req, now, w1, answer);
    RequestKeepsFlow(w, req, now, w1, answer);
    var at :| Arrived(w.services, w1.services, Link(c, n, at));
    TimeoutRestores(w.services, Link(c, n, at), w1, w2);
    var sent := ChangeKeepsFlow(w1, ProxyClientTimedOut(n, c), w2);
    SettledPool(w1, w2, sent);
    PoolBack(w, w1, w2);
  }

  lemma TimeoutRestores(s: Services, p: Link, w1: World, w2: World)
    requires FlowInvariant(s) && Holder(s, p.server, p.client).None? && Arrived(s, w1.services, p)
    requires p.client.proxy.Some?
    requires Sound(w1.services) && ChangeRel(w1, ProxyClientTimedOut(p.server, p.client), w2)
    ensures Refreshed(s, w2.services)
  {
    Users.TimedOutUsers(w1, p.server, p.client, w2);
    var sent := ChangeKeepsFlow(w1, ProxyClientTimedOut(p.server, p.client), w2);
    ShapeTrans(s, w1.services, w2.services);
    TimeoutKeepsTriggers(w1, p.server, p.client, w2);
    RootsBack(s, w1.services, w2.services, p);
    GrownAndShrunkBack(s, w1.services, w2.services);
  }

  lemma PoolBack(w: World, w1: World, w2: World)
    requires PoolExact(w) && PoolExact(w2) && Refreshed(w.services, w2.services)
    requires w.pool.net == w1.pool.net == w2.pool.net
    ensures SameIds(w.pool, w2.pool)
  {
    RefreshedHolds(w.services, w2.services);
  }

  // ----- the pool follows the table -----

  /** If what is released is exactly what falls out of use, the pool and the table keep agreeing on what is in use. */
  lemma SettledPool(w: World, w': World, sent: seq<Down>)
    requires PoolExact(w) && Settles(w, w', sent) && NoLeak(w, w', sent)
    ensures PoolExact(w') && w'.pool.net == w.pool.net
  {
    FreeAllLive(w.pool, sent);
    forall id: nat ensures Live(w'.pool, id) <==> Held(w'.services, id) {
      if Held(w'.services, id) {
        ShrunkHeld(w.services, w'.services, id);
      }
    }
  }
}
