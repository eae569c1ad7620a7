/** Requests and triggers that are served one at a time, for every configuration. */
module AtomicRequests {
  import opened Types
  import opened ServiceTable
  import opened Chains
  import opened Teardown
  import opened Settlement
  import opened Setup
  import opened ChainSetup
  import opened Requests
  import opened Sharing
  import opened AtomicSetup
  import Reconcile

  ghost predicate SameUsers(a: Services, b: Services) {
    forall l: Link :: l.client.proxy.Some? ==> Alike(Entry(a, l), Entry(b, l))
  }

  /** The user of the request is the only new one; if a network had to be shared, it is on one of the same proxy. */
  ghost predicate Admitted(a: Services, b: Services, req: Request, at: ReplicaId) {
    var p := Link(req.Client(), req.service, at);
    && Entry(a, p).None? && Entry(b, p).Some?
    && (forall l: Link :: l.client.proxy.Some? && l != p ==> Entry(b, l) == Entry(a, l))
    && (MustShare(a, req.service, req.proxy) ==> OnSharedNetwork(a, req, Entry(b, p).value.netId))
  }

  ghost predicate OnSharedNetwork(s: Services, req: Request, id: nat) {
    exists l :: Reusable(s, req.service, req.proxy, l) && Entry(s, l).value.netId == id
  }

  /** The user's idle time starts again. */
  ghost predicate FreshAt(s: Services, req: Request, now: nat) {
    exists at :: Entry(s, Link(req.Client(), req.service, at)).Some?
                 && Entry(s, Link(req.Client(), req.service, at)).value.latest == now
  }

  // ----- a user that is already there -----

  lemma LatestRefreshes(s: Services, n: Name, c: Client, now: nat)
    requires Unique(s) && Holder(s, n, c).Some?
    ensures Refreshed(s, SetLatest(s, n, c, now))
    ensures Port(SetLatest(s, n, c, now), n, Holder(s, n, c).value) == Port(s, n, Holder(s, n, c).value)
    ensures Entry(SetLatest(s, n, c, now), Link(c, n, Holder(s, n, c).value)).Some?
    ensures Entry(SetLatest(s, n, c, now), Link(c, n, Holder(s, n, c).value)).value.latest == now
  {
    var at, b := Holder(s, n, c).value, SetLatest(s, n, c, now);
    SetLatestSpec(s, n, c, now);
    PutEntries(s, b, Link(c, n, at), Some(Tab(s, n, at)[c].(latest := now)));
    ShapeFacts(s, b);
  }

  lemma SameNetsOrderly(w: World, s: Services)
    requires Orderly(w) && SameNets(w.services, s)
    ensures Orderly(w.(services := s))
  {
    ShapeFacts(w.services, s);
    forall x, y | SameId(s, x, y) ensures SameId(w.services, x, y) {
      assert Entry(s, x).Some? && Entry(s, y).Some?;
    }
    forall n, c: Client, r, q | c.proxy.Some? && c in Tab(s, n, r) && c in Tab(s, n, q) ensures r == q {
      assert Entry(s, Link(c, n, r)).Some? && Entry(s, Link(c, n, q)).Some?;
      assert Entry(w.services, Link(c, n, r)).Some? && Entry(w.services, Link(c, n, q)).Some?;
    }
    forall id: nat | Held(s, id) ensures Held(w.services, id) {
      var l :| Entry(s, l).Some? && Entry(s, l).value.netId == id;
      assert Entry(w.services, l).Some?;
    }
  }

  lemma RefreshedNets(a: Services, b: Services)
    requires Refreshed(a, b)
    ensures SameNets(a, b) && SameUsers(a, b)
  {
    forall l ensures Entry(a, l).Some? == Entry(b, l).Some? {
      assert Alike(Entry(a, l), Entry(b, l));
    }
  }

  lemma PortOf(s: Services, n: Name, r: ReplicaId)
    requires HasRep(s, n, r)
    ensures Port(s, n, r).Some?
  {
    Reconcile.HasRepByPort(s, n, r);
  }

  lemma StickyIsOrderly(w: World, req: Request, now: nat, w': World, answer: Answer)
    requires Orderly(w) && RequestRel(w, req, now, w', answer) && HasHolder(w.services, req)
    requires req.service in w.services && w.services[req.service].config.timeout.Some?
    ensures Orderly(w') && w'.pool == w.pool && Refreshed(w.services, w'.services)
    ensures answer.Upstream? && exists at :: ServedAt(w'.services, req, at, answer.ip, answer.port)
    ensures FreshAt(w'.services, req, now)
  {
    var s, n, c := w.services, req.service, req.Client();
    var at := Holder(s, n, c).value;
    HolderSpec(s, n, c);
    PortOf(s, n, at);
    LatestRefreshes(s, n, c, now);
    RefreshedNets(s, w'.services);
    SameNetsOrderly(w, w'.services);
    assert Alike(Entry(s, Link(c, n, at)), Entry(w'.services, Link(c, n, at)));
    assert ServedAt(w'.services, req, at, answer.ip, answer.port);
  }

  // ----- a user that joins a network -----

  lemma NewcomerIsOrderly(w: World, l: Link, p: Link, s1: Services, info: ClientInfo)
    requires Orderly(w) && Entry(w.services, l).Some? && l.client.proxy.Some? && l != p
    requires p.server == l.server && p.at == l.at && p.client.proxy == l.client.proxy
    requires Holder(w.services, p.server, p.client).None? && Entry(w.services, p).None?
    requires Put(w.services, s1, p, Some(info)) && Shares(info, Entry(w.services, l).value)
    ensures Orderly(w.(services := s1))
  {
    var s := w.services;
    PutEntries(s, s1, p, Some(info));
    ShapeFacts(s, s1);
    JoinShares(s, l, p, s1);
    JoinOnce(s, p, s1);
  }

  lemma JoinIsOrderly(w: World, l: Link, req: Request, now: nat, w': World, answer: Answer)
    requires Orderly(w) && Reusable(w.services, req.service, req.proxy, l) && !HasHolder(w.services, req)
    requires ReuseRel(w, l, req.Client(), req.proxy, now, w')
    requires answer == AnswerFrom(w.services, req.service, l.at, Entry(w.services, l).value)
    ensures Orderly(w') && w'.pool == w.pool && SameShape(w.services, w'.services)
    ensures answer.Upstream? && ServedAt(w'.services, req, l.at, answer.ip, answer.port)
    ensures Admitted(w.services, w'.services, req, l.at) && FreshAt(w'.services, req, now)
  {
    var s, c, p := w.services, req.Client(), Link(req.Client(), l.server, l.at);
    SharedIsNotTheUser(s, req.service, req.proxy, l, c);
    var s1 := Joined(s, l, c, req.proxy, now);
    var info := JoinedSpec(s, l, c, req.proxy, now);
    NewcomerIsOrderly(w, l, p, s1, info);
    PutEntries(s, s1, p, Some(info));
    WalkIsService(s1, l.server, l.at);
    AddChainsKeepNets(s1, DepChainEdges(s1, l.server, l.at), now);
    SameNetsOrderly(w.(services := s1), w'.services);
    ShapeTrans(s, s1, w'.services);
    ShapeFacts(s, w'.services);
    EntryNeedsRep(s, l);
    PortOf(s, l.server, l.at);
    assert Entry(w'.services, p) == Entry(s1, p) == Some(info);
  }

  // ----- a new chain -----

  lemma {:induction false} BuiltAreServices(s: Services, deps: seq<Name>, n: Name, at: Option<ReplicaId>)
    requires AllRegistered(BuildChain(s, deps, n, at)).Some?
    ensures forall e :: e in AllRegistered(BuildChain(s, deps, n, at)).value ==> e.client.proxy.None?
    decreases |deps|
  {
    if deps != [] {
      var next := PickReplica(s, deps[0]);
      assert BuildChain(s, deps, n, at)[1..] == BuildChain(s, deps[1..], deps[0], next);
      BuiltAreServices(s, deps[1..], deps[0], next);
    }
  }

  lemma PickedIsThere(s: Services, n: Name)
    requires PickReplica(s, n).Some?
    ensures HasRep(s, n, PickReplica(s, n).value)
  {
    assert Reps(s, n)[LeastClients(Reps(s, n))].Id() == PickReplica(s, n).value;
  }

  lemma ChainForHasOneUser(s: Services, req: Request, at: ReplicaId)
    requires Unique(s) && !HasHolder(s, req) && HasRep(s, req.service, at) && ChainFor(s, req, at).Some?
    ensures var edges := ChainFor(s, req, at).value;
      edges != [] && edges[|edges| - 1] == ProxyEdge(req, at) && OneUser(s, edges, |edges| - 1)
  {
    var edges := ChainFor(s, req, at).value;
    BuiltAreServices(s, Deps(s, req.service), req.service, Some(at));
    HolderSpec(s, req.service, req.Client());
    forall k | 0 <= k < |edges| - 1 ensures edges[k].client.proxy.None? {
      assert edges[k] in AllRegistered(BuildChain(s, Deps(s, req.service), req.service, Some(at))).value;
    }
  }

  lemma ChainIsOrderly(w: World, req: Request, at: ReplicaId, now: nat, w': World, ok: bool, upstream: Option<Ipv4>,
                       answer: Answer)
    requires Orderly(w) && !HasHolder(w.services, req) && !MustShare(w.services, req.service, req.proxy)
    requires HasRep(w.services, req.service, at) && ChainFor(w.services, req, at).Some?
    requires ChainSetupRel(w, ChainFor(w.services, req, at).value, now, w', ok, upstream)
    requires answer == ChainAnswer(ok, upstream, Port(w.services, req.service, at))
    ensures Orderly(w') && w'.pool.net == w.pool.net && SameShape(w.services, w'.services)
    ensures answer.Upstream? <==> ok
    ensures answer.Refused? ==> SameUsers(w.services, w'.services)
    ensures answer.Upstream? ==>
      ServedAt(w'.services, req, at, answer.ip, answer.port) && Admitted(w.services, w'.services, req, at)
  {
    var edges := ChainFor(w.services, req, at).value;
    var user := |edges| - 1;
    ChainForHasOneUser(w.services, req, at);
    AtomicChain(w, edges, user, now, w', ok, upstream);
    PortOf(w.services, req.service, at);
    ShapeFacts(w.services, w'.services);
    forall l: Link | l.client.proxy.Some? && l != ProxyEdge(req, at).Link()
      ensures Entry(w'.services, l) == Entry(w.services, l)
    {
      assert !IsUser(edges, user, l);
    }
  }

  lemma NewChainIsOrderly(w: World, req: Request, now: nat, w': World, answer: Answer)
    requires Orderly(w) && NewChainRel(w, req, now, w', answer)
    requires !HasHolder(w.services, req) && !MustShare(w.services, req.service, req.proxy)
    ensures Orderly(w') && w'.pool.net == w.pool.net && SameShape(w.services, w'.services)
    ensures answer.Refused? ==> SameUsers(w.services, w'.services)
    ensures answer.Upstream? ==> exists at ::
      ServedAt(w'.services, req, at, answer.ip, answer.port) && Admitted(w.services, w'.services, req, at)
  {
    var s, pick := w.services, PickReplica(w.services, req.service);
    if pick.Some? && ChainFor(s, req, pick.value).Some? {
      var ok, upstream :| ChainSetupRel(w, ChainFor(s, req, pick.value).value, now, w', ok, upstream)
        && answer == ChainAnswer(ok, upstream, Port(s, req.service, pick.value));
      PickedIsThere(s, req.service);
      ChainIsOrderly(w, req, pick.value, now, w', ok, upstream, answer);
    }
  }

  // ----- requests and triggers -----

  /**
   A request keeps the state orderly. If it is answered, the user is on the network whose server address and port the
   answer names, and is the only user that is new; otherwise all users are as before.
   */
  lemma RequestIsOrderly(w: World, req: Request, now: nat, w': World, answer: Answer)
    requires Orderly(w) && RequestRel(w, req, now, w', answer)
    ensures Orderly(w') && w'.pool.net == w.pool.net && SameShape(w.services, w'.services)
    ensures answer.Upstream? ==> exists at :: ServedAt(w'.services, req, at, answer.ip, answer.port)
    ensures answer.Refused? || HasHolder(w.services, req) ==> SameUsers(w.services, w'.services)
    ensures answer.Upstream? && (HasHolder(w.services, req) || MustShare(w.services, req.service, req.proxy)) ==>
      FreshAt(w'.services, req, now)
    ensures answer.Upstream? && !HasHolder(w.services, req) ==>
      exists at :: Admitted(w.services, w'.services, req, at)
  {
    var s, n := w.services, req.service;
    if n in s && s[n].config.timeout.Some? && s[n].Registered? {
      if HasHolder(s, req) {
        StickyIsOrderly(w, req, now, w', answer);
        RefreshedNets(s, w'.services);
      } else if MustShare(s, n, req.proxy) {
        var l: Link :| LeastUsed(s, n, req.proxy, l) && ReuseRel(w, l, req.Client(), req.proxy, now, w')
          && answer == AnswerFrom(s, n, l.at, Entry(s, l).value);
        JoinIsOrderly(w, l, req, now, w', answer);
      } else {
        NewChainIsOrderly(w, req, now, w', answer);
      }
    }
  }

  lemma TriggeredAreServices(s: Services, n: Name, at: ReplicaId, port: nat)
    requires TriggeredEdges(s, n, at, port).Some?
    ensures var edges := TriggeredEdges(s, n, at, port).value; OneUser(s, edges, |edges|)
  {
    var built := AllRegistered(BuildChain(s, TriggerChain(s, n, port), n, Some(at))).value;
    BuiltAreServices(s, TriggerChain(s, n, port), n, Some(at));
    var edges := TriggeredEdges(s, n, at, port).value;
    forall k | 0 <= k < |edges| ensures edges[k].client.proxy.None? {
      assert built[k] in built;
    }
  }

  /** A backend trigger keeps the state orderly and touches no user. */
  lemma TriggerIsOrderly(w: World, n: Name, port: nat, sender: Ip, now: nat, w': World)
    requires Orderly(w) && TriggerRel(w, n, port, sender, now, w')
    ensures Orderly(w') && w'.pool.net == w.pool.net && SameShape(w.services, w'.services)
    ensures SameProxies(w.services, w'.services)
  {
    var s := w.services;
    var at := ReplicaOn(Reps(s, n), sender);
    if w' != w {
      var edges := TriggeredEdges(s, n, at.value, port).value;
      var ok, upstream :| ChainSetupRel(w, edges, now, w', ok, upstream);
      TriggeredAreServices(s, n, at.value, port);
      AtomicChain(w, edges, |edges|, now, w', ok, upstream);
    }
  }
}
