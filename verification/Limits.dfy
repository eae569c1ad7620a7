/**
 What a request comes to: when a new user gets a network of its own, when it shares one and which, and when it is
 refused (src/nullnet_grpc_impl.rs:105-187).
 */
module Limits {
  import opened Types
  import opened NetIdPool
  import opened ServiceTable
  import opened Chains
  import opened Teardown
  import opened Settlement
  import opened Setup
  import opened ChainSetup
  import opened Requests
  import opened AtomicSetup
  import opened AtomicRequests
  import opened Leaks
  import opened NewNetworks
  import Sharing

  // ----- the users of a service -----

  /** These are the users on the service, of all proxies. */
  ghost predicate AreUsers(s: Services, n: Name, users: set<Link>) {
    forall l :: l in users <==> l.server == n && l.client.proxy.Some? && Entry(s, l).Some?
  }

  /** The users on the first replicas of the list. */
  function UserLinks(reps: seq<Replica>, n: Name): set<Link> {
    set i, c | 0 <= i < |reps| && c in reps[i].clients && c.proxy.Some? :: Link(c, n, reps[i].Id())
  }

  lemma UserLinksAre(s: Services, n: Name)
    requires Unique(s)
    ensures AreUsers(s, n, UserLinks(Reps(s, n), n))
  {
    var reps := Reps(s, n);
    forall l | l in UserLinks(reps, n) ensures l.server == n && l.client.proxy.Some? && Entry(s, l).Some? {
      var i, c :| 0 <= i < |reps| && c in reps[i].clients && c.proxy.Some? && l == Link(c, n, reps[i].Id());
      TabAt(reps, i);
    }
    forall l: Link | l.server == n && l.client.proxy.Some? && Entry(s, l).Some? ensures l in UserLinks(reps, n) {
      EntryNeedsRep(s, l);
      var i :| 0 <= i < |reps| && reps[i].Id() == l.at;
      TabAt(reps, i);
    }
  }

  function LinksAt(rep: Replica, n: Name): set<Link> {
    set c | c in rep.clients && c.proxy.Some? :: Link(c, n, rep.Id())
  }

  lemma {:induction false} LinksOfKeys(keys: set<Client>, links: set<Link>, n: Name, r: ReplicaId)
    requires links == set c | c in keys :: Link(c, n, r)
    ensures |links| == |keys|
    decreases |keys|
  {
    if keys == {} {
      assert links == {};
    } else {
      var c :| c in keys;
      var rest := set d | d in keys - {c} :: Link(d, n, r);
      LinksOfKeys(keys - {c}, rest, n, r);
      assert links == rest + {Link(c, n, r)};
    }
  }

  lemma LinksSplit(reps: seq<Replica>, n: Name)
    requires reps != []
    ensures UserLinks(reps, n) == LinksAt(reps[0], n) + UserLinks(reps[1..], n)
  {
    forall l | l in UserLinks(reps, n) ensures l in LinksAt(reps[0], n) + UserLinks(reps[1..], n) {
      var i, c :| 0 <= i < |reps| && c in reps[i].clients && c.proxy.Some? && l == Link(c, n, reps[i].Id());
      assert i > 0 ==> reps[1..][i - 1] == reps[i];
    }
    forall l | l in UserLinks(reps[1..], n) ensures l in UserLinks(reps, n) {
      var i, c :| 0 <= i < |reps[1..]| && c in reps[1..][i].clients && c.proxy.Some?
        && l == Link(c, n, reps[1..][i].Id());
      assert reps[i + 1] == reps[1..][i];
    }
  }

  lemma LinksApart(reps: seq<Replica>, n: Name)
    requires UniqueReps(reps) && reps != []
    ensures LinksAt(reps[0], n) !! UserLinks(reps[1..], n)
  {
    forall l | l in UserLinks(reps[1..], n) ensures l.at != reps[0].Id() {
      var i, c :| 0 <= i < |reps[1..]| && c in reps[1..][i].clients && c.proxy.Some?
        && l == Link(c, n, reps[1..][i].Id());
      assert reps[i + 1] == reps[1..][i];
    }
  }

  lemma {:induction false} CountIsLinks(reps: seq<Replica>, n: Name)
    requires UniqueReps(reps)
    ensures ProxyClientsCount(reps) == |UserLinks(reps, n)|
  {
    if reps == [] {
      assert UserLinks(reps, n) == {};
    } else {
      assert UniqueReps(reps[1..]) by {
        forall i, j | 0 <= i < j < |reps[1..]| ensures reps[1..][i].Id() != reps[1..][j].Id() {
          assert reps[i + 1].Id() != reps[j + 1].Id();
        }
      }
      CountIsLinks(reps[1..], n);
      assert LinksAt(reps[0], n) == set c | c in UserKeys(reps[0].clients) :: Link(c, n, reps[0].Id());
      LinksOfKeys(UserKeys(reps[0].clients), LinksAt(reps[0], n), n, reps[0].Id());
      LinksSplit(reps, n);
      LinksApart(reps, n);
    }
  }

  /** The number that is compared with the limit is that of the users on the service, of all proxies. */
  lemma CountIsUsers(s: Services, n: Name, users: set<Link>)
    requires Unique(s) && AreUsers(s, n, users)
    ensures ProxyClientsCount(Reps(s, n)) == |users|
  {
    UserLinksAre(s, n);
    CountIsLinks(Reps(s, n), n);
    assert users == UserLinks(Reps(s, n), n);
  }

  // ----- sharing or not -----

  /** Nobody of that name behind the proxy is on the service. */
  ghost predicate IsNew(s: Services, req: Request) {
    forall r :: Entry(s, Link(req.Client(), req.service, r)).None?
  }

  lemma NewHasNoHolder(s: Services, req: Request)
    requires Unique(s)
    ensures IsNew(s, req) <==> !HasHolder(s, req)
  {
    HolderSpec(s, req.service, req.Client());
    if HasHolder(s, req) {
      assert Entry(s, Link(req.Client(), req.service, Holder(s, req.service, req.Client()).value)).Some?;
    }
  }

  /** The service is full, and someone behind the same proxy is on it. */
  ghost predicate FullWithCompany(s: Services, req: Request, users: set<Link>) {
    && req.service in s && s[req.service].config.maxNetworks.Some?
    && |users| >= s[req.service].config.maxNetworks.value
    && exists l :: l in users && l.client.proxy == Some(req.proxy)
  }

  lemma SharesIffFull(s: Services, req: Request, users: set<Link>)
    requires Unique(s) && UsersUp(s) && AreUsers(s, req.service, users) && req.service in s
    ensures MustShare(s, req.service, req.proxy) <==> FullWithCompany(s, req, users)
  {
    CountIsUsers(s, req.service, users);
    if FullWithCompany(s, req, users) {
      var l :| l in users && l.client.proxy == Some(req.proxy);
      assert Reusable(s, req.service, req.proxy, l);
    }
    if MustShare(s, req.service, req.proxy) {
      var l :| Reusable(s, req.service, req.proxy, l);
      assert l in users;
    }
  }

  /** The user is on the service, on the network whose address and port the answer names. */
  ghost predicate IsOn(s: Services, req: Request, at: ReplicaId, answer: Answer) {
    && answer.Upstream? && ServedAt(s, req, at, answer.ip, answer.port)
  }

  /**
   A new user that is answered gets a network of its own, that nobody has used, unless the service is full and someone
   behind the same proxy is on it.
   */
  lemma OwnNetworkBelowLimit(w: World, req: Request, now: nat, w': World, answer: Answer, users: set<Link>)
    returns (at: ReplicaId)
    requires Orderly(w) && RequestRel(w, req, now, w', answer) && answer.Upstream? && IsNew(w.services, req)
    requires AreUsers(w.services, req.service, users) && req.service in w.services
    requires !FullWithCompany(w.services, req, users)
    ensures IsOn(w'.services, req, at, answer) && IsLeastUsed(w.services, req.service, at)
    ensures var id := NetAt(w'.services, Link(req.Client(), req.service, at));
      id != 0 && !Live(w.pool, id) && forall l :: NetAt(w.services, l) != id
  {
    var s, n := w.services, req.service;
    SharesIffFull(s, req, users);
    NewHasNoHolder(s, req);
    at := PickReplica(s, n).value;
    var edges := ChainFor(s, req, at).value;
    var ok, upstream :| ChainSetupRel(w, edges, now, w', ok, upstream)
      && answer == ChainAnswer(ok, upstream, Port(s, n, at));
    PickedIsLeast(s, n);
    ChainForHasOneUser(s, req, at);
    ChainIsOrderly(w, req, at, now, w', ok, upstream, answer);
    UserGetsItsOwn(w, edges, |edges| - 1, now, w', upstream);
    var id := NetAt(w'.services, Link(req.Client(), n, at));
    forall l ensures NetAt(s, l) != id {
      HeldIsNetAt(s, NetAt(s, l));
    }
  }

  /** No user of the proxy on the service has fewer chains, and none with as many is on an earlier replica. */
  ghost predicate FewestChains(s: Services, users: set<Link>, proxy: Ip, l: Link)
    requires Entry(s, l).Some? && forall m :: m in users ==> Entry(s, m).Some?
  {
    forall m :: m in users && m.client.proxy == Some(proxy) ==>
      var x, y := Entry(s, l).value.activeChains, Entry(s, m).value.activeChains;
      x < y || (x == y && IndexOf(Reps(s, l.server), l.at) <= IndexOf(Reps(s, m.server), m.at))
  }

  /**
   A new user of a full service joins someone behind the same proxy, on the network with the fewest chains: it is
   answered with the address of that network, on the same replica, and no ID is taken.
   */
  lemma SharedAtLimit(w: World, req: Request, now: nat, w': World, answer: Answer, users: set<Link>) returns (l: Link)
    requires Orderly(w) && RequestRel(w, req, now, w', answer) && IsNew(w.services, req)
    requires AreUsers(w.services, req.service, users) && req.service in w.services
    requires w.services[req.service].config.timeout.Some? && w.services[req.service].Registered?
    requires FullWithCompany(w.services, req, users)
    ensures w'.pool == w.pool && l in users && l.client.proxy == Some(req.proxy)
    ensures FewestChains(w.services, users, req.proxy, l)
    ensures IsOn(w'.services, req, l.at, answer) && answer.ip == Entry(w.services, l).value.serverNet
    ensures NetAt(w'.services, Link(req.Client(), req.service, l.at)) == NetAt(w.services, l)
  {
    var s, n := w.services, req.service;
    SharesIffFull(s, req, users);
    NewHasNoHolder(s, req);
    l :| LeastUsed(s, n, req.proxy, l) && ReuseRel(w, l, req.Client(), req.proxy, now, w')
      && answer == AnswerFrom(s, n, l.at, Entry(s, l).value);
    LeastHasFewest(s, req, users, l);
    JoinsTheNetwork(w, l, req, now, w', answer);
  }

  lemma LeastHasFewest(s: Services, req: Request, users: set<Link>, l: Link)
    requires UsersUp(s) && AreUsers(s, req.service, users) && LeastUsed(s, req.service, req.proxy, l)
    ensures l in users && l.client.proxy == Some(req.proxy) && FewestChains(s, users, req.proxy, l)
  {
    forall m | m in users && m.client.proxy == Some(req.proxy) ensures ComesFirst(s, l, m) {
      assert Reusable(s, req.service, req.proxy, m);
    }
  }

  lemma JoinsTheNetwork(w: World, l: Link, req: Request, now: nat, w': World, answer: Answer)
    requires Orderly(w) && Reusable(w.services, req.service, req.proxy, l) && !HasHolder(w.services, req)
    requires ReuseRel(w, l, req.Client(), req.proxy, now, w')
    requires answer == AnswerFrom(w.services, req.service, l.at, Entry(w.services, l).value)
    ensures w'.pool == w.pool && IsOn(w'.services, req, l.at, answer) && answer.ip == Entry(w.services, l).value.serverNet
    ensures NetAt(w'.services, Link(req.Client(), req.service, l.at)) == NetAt(w.services, l)
  {
    JoinIsOrderly(w, l, req, now, w', answer);
    EntryNeedsRep(w.services, l);
    PortOf(w.services, l.server, l.at);
    JoinedNet(w, l, req, now, w');
  }

  lemma JoinedNet(w: World, l: Link, req: Request, now: nat, w': World)
    requires Orderly(w) && Reusable(w.services, req.service, req.proxy, l) && !HasHolder(w.services, req)
    requires ReuseRel(w, l, req.Client(), req.proxy, now, w')
    ensures NetAt(w'.services, Link(req.Client(), req.service, l.at)) == NetAt(w.services, l)
  {
    var s, c, p := w.services, req.Client(), Link(req.Client(), l.server, l.at);
    var s1 := Joined(s, l, c, req.proxy, now);
    var info := Sharing.JoinedSpec(s, l, c, req.proxy, now);
    PutEntries(s, s1, p, Some(info));
    ShapeFacts(s, s1);
    WalkIsService(s1, l.server, l.at);
    Sharing.AddChainsKeepNets(s1, DepChainEdges(s1, l.server, l.at), now);
    assert Entry(w'.services, p) == Entry(s1, p);
  }

  /** A user that is on the service already is answered with its network, whatever the limit; only its idle time changes. */
  lemma KnownIsAnswered(w: World, req: Request, now: nat, w': World, answer: Answer, at: ReplicaId)
    requires Orderly(w) && RequestRel(w, req, now, w', answer)
    requires req.service in w.services && w.services[req.service].config.timeout.Some?
    requires Entry(w.services, Link(req.Client(), req.service, at)).Some?
    ensures var p := Link(req.Client(), req.service, at);
      && answer.Upstream? && answer.ip == Entry(w.services, p).value.serverNet
      && Port(w.services, req.service, at) == Some(answer.port)
      && w'.pool == w.pool && w'.downs == w.downs
      && Entry(w'.services, p) == Some(Entry(w.services, p).value.(latest := now))
      && forall l :: l != p ==> Entry(w'.services, l) == Entry(w.services, l)
  {
    var s, p := w.services, Link(req.Client(), req.service, at);
    EntryNeedsRep(s, p);
    PortOf(s, req.service, at);
    HolderIsSole(s, p);
    SetLatestSpec(s, req.service, req.Client(), now);
    PutEntries(s, w'.services, p, Some(Entry(s, p).value.(latest := now)));
  }

  // ----- the chain -----

  /** No replica of the service has fewer clients. */
  ghost predicate IsLeastUsed(s: Services, n: Name, at: ReplicaId) {
    HasRep(s, n, at) && forall r :: HasRep(s, n, r) ==> |Tab(s, n, at)| <= |Tab(s, n, r)|
  }

  lemma PickedIsLeast(s: Services, n: Name)
    requires Unique(s) && PickReplica(s, n).Some?
    ensures IsLeastUsed(s, n, PickReplica(s, n).value)
  {
    var reps := Reps(s, n);
    var i := LeastClients(reps);
    TabAt(reps, i);
    forall r | HasRep(s, n, r) ensures |reps[i].clients| <= |Tab(s, n, r)| {
      var j :| 0 <= j < |reps| && reps[j].Id() == r;
      TabAt(reps, j);
    }
  }

  /** The edge leads from replica `from` of `n` to a least used replica of `dep`. */
  ghost predicate EdgeLeads(s: Services, n: Name, from: ReplicaId, dep: Name, e: RegisteredEdge) {
    && e.client == Client(n, None, Some(from)) && e.clientIp == from.ip && e.clientDocker == from.docker
    && e.server == dep && IsLeastUsed(s, dep, e.at) && e.entryPort == None
  }

  /** Where edge `k` begins: at the service itself, or where the edge before ends. */
  function NameBefore(deps: seq<Name>, n: Name, k: nat): Name
    requires k < |deps|
  {
    if k == 0 then n else deps[k - 1]
  }

  function PlaceBefore(edges: seq<RegisteredEdge>, at: ReplicaId, k: nat): ReplicaId
    requires k < |edges|
  {
    if k == 0 then at else edges[k - 1].at
  }

  /** The edges lead from replica `at` of `n` along the dependencies. */
  ghost predicate Leads(s: Services, deps: seq<Name>, n: Name, at: ReplicaId, edges: seq<RegisteredEdge>) {
    && |edges| == |deps|
    && forall k: nat :: k < |edges| ==>
         EdgeLeads(s, NameBefore(deps, n, k), PlaceBefore(edges, at, k), deps[k], edges[k])
  }

  lemma OneBefore(deps: seq<Name>, n: Name, at: ReplicaId, first: RegisteredEdge, rest: seq<RegisteredEdge>, k: nat)
    requires 0 < k < |deps| == |rest| + 1 && first.server == deps[0]
    ensures NameBefore(deps, n, k) == NameBefore(deps[1..], deps[0], k - 1) && deps[k] == deps[1..][k - 1]
    ensures PlaceBefore([first] + rest, at, k) == PlaceBefore(rest, first.at, k - 1) && ([first] + rest)[k] == rest[k - 1]
  {
  }

  lemma LeadsOn(s: Services, deps: seq<Name>, n: Name, at: ReplicaId, first: RegisteredEdge, rest: seq<RegisteredEdge>)
    requires deps != [] && Leads(s, deps[1..], deps[0], first.at, rest)
    requires EdgeLeads(s, n, at, deps[0], first)
    ensures Leads(s, deps, n, at, [first] + rest)
  {
    var edges := [first] + rest;
    forall k: nat | k < |edges|
      ensures EdgeLeads(s, NameBefore(deps, n, k), PlaceBefore(edges, at, k), deps[k], edges[k])
    {
      if k > 0 {
        OneBefore(deps, n, at, first, rest, k);
      }
    }
  }

  function FirstEdge(n: Name, at: ReplicaId, dep: Name, to: ReplicaId): RegisteredEdge {
    RegisteredEdge(at.ip, at.docker, Client(n, None, Some(at)), dep, to, None)
  }

  lemma BuiltStep(s: Services, deps: seq<Name>, n: Name, at: ReplicaId)
    requires deps != []
    ensures var next, built := PickReplica(s, deps[0]), AllRegistered(BuildChain(s, deps, n, Some(at)));
      if next.None? then built.None?
      else
        var rest := AllRegistered(BuildChain(s, deps[1..], deps[0], next));
        built == if rest.Some? then Some([FirstEdge(n, at, deps[0], next.value)] + rest.value) else None
  {
    var next := PickReplica(s, deps[0]);
    assert BuildChain(s, deps, n, Some(at))[1..] == BuildChain(s, deps[1..], deps[0], next);
  }

  /** The chain behind a replica can be built if and only if every dependency has a replica, and leads along them all. */
  lemma {:induction false} BuiltLeads(s: Services, deps: seq<Name>, n: Name, at: ReplicaId)
    requires Unique(s)
    ensures var built := AllRegistered(BuildChain(s, deps, n, Some(at)));
      && (built.Some? <==> forall d :: d in deps ==> Reps(s, d) != [])
      && (built.Some? ==> Leads(s, deps, n, at, built.value))
    decreases |deps|
  {
    if deps != [] {
      var next := PickReplica(s, deps[0]);
      assert forall d :: d in deps <==> d == deps[0] || d in deps[1..];
      BuiltStep(s, deps, n, at);
      if next.Some? {
        BuiltLeads(s, deps[1..], deps[0], next.value);
        PickedIsLeast(s, deps[0]);
        var rest := AllRegistered(BuildChain(s, deps[1..], deps[0], next));
        if rest.Some? {
          LeadsOn(s, deps, n, at, FirstEdge(n, at, deps[0], next.value), rest.value);
        }
      }
    }
  }

  /** The chain of a new user: along the dependencies of the service, and then the user's own edge. */
  lemma ChainLeads(s: Services, req: Request, at: ReplicaId)
    requires Unique(s)
    ensures var chain, deps := ChainFor(s, req, at), Deps(s, req.service);
      && (chain.Some? <==> forall d :: d in deps ==> Reps(s, d) != [])
      && (chain.Some? ==> |chain.value| == |deps| + 1 && Leads(s, deps, req.service, at, chain.value[..|deps|]))
      && (chain.Some? ==> chain.value[|deps|] == RegisteredEdge(req.proxy, None, Client(req.name, Some(req.proxy), None),
                                                                req.service, at, None))
  {
    BuiltLeads(s, Deps(s, req.service), req.service, at);
  }

  // ----- refusals -----

  /** The service is an entry point with a replica, and the request comes to a new chain. */
  ghost predicate NeedsChain(s: Services, req: Request, users: set<Link>) {
    && req.service in s && s[req.service].config.timeout.Some? && s[req.service].Registered?
    && IsNew(s, req) && !FullWithCompany(s, req, users)
  }

  /** When each refusal is given; otherwise the request is answered, or its setup has failed. */
  lemma RefusalsAre(w: World, req: Request, now: nat, w': World, answer: Answer, users: set<Link>)
    requires Orderly(w) && RequestRel(w, req, now, w', answer) && AreUsers(w.services, req.service, users)
    ensures var s, n := w.services, req.service;
      && (answer == Refused(NotFound) <==> n !in s)
      && (answer == Refused(NotAnEntryPoint) <==> n in s && s[n].config.timeout.None?)
      && (answer == Refused(NotRegistered) <==> n in s && s[n].config.timeout.Some? && s[n].Unregistered?)
      && (answer == Refused(NoReplicas) <==> NeedsChain(s, req, users) && Reps(s, n) == [])
      && (answer == Refused(DependencyNotRegistered) <==>
            NeedsChain(s, req, users) && Reps(s, n) != [] && exists d :: d in Deps(s, n) && Reps(s, d) == [])
      && (answer.Refused? ==> answer.reason == SetupFailed || w' == w)
      && answer != Refused(NoUpstream)
  {
    var s, n := w.services, req.service;
    if n in s && s[n].config.timeout.Some? && s[n].Registered? {
      NewHasNoHolder(s, req);
      SharesIffFull(s, req, users);
      if HasHolder(s, req) {
        StickyIsOrderly(w, req, now, w', answer);
      } else if FullWithCompany(s, req, users) {
        var l := SharedAtLimit(w, req, now, w', answer, users);
      } else {
        ChainRefusals(w, req, now, w', answer);
      }
    }
  }

  lemma ChainRefusals(w: World, req: Request, now: nat, w': World, answer: Answer)
    requires Orderly(w) && NewChainRel(w, req, now, w', answer) && !HasHolder(w.services, req)
    requires !MustShare(w.services, req.service, req.proxy)
    ensures var s, n := w.services, req.service;
      && (answer == Refused(NoReplicas) <==> Reps(s, n) == [])
      && (answer == Refused(DependencyNotRegistered) <==>
            Reps(s, n) != [] && exists d :: d in Deps(s, n) && Reps(s, d) == [])
      && (answer.Refused? ==> answer.reason == SetupFailed || w' == w)
      && (answer.Refused? ==> answer.reason in {NoReplicas, DependencyNotRegistered, SetupFailed})
  {
    var s, n := w.services, req.service;
    var pick := PickReplica(s, n);
    if pick.Some? {
      ChainLeads(s, req, pick.value);
      if ChainFor(s, req, pick.value).Some? {
        var ok, upstream :| ChainSetupRel(w, ChainFor(s, req, pick.value).value, now, w', ok, upstream)
          && answer == ChainAnswer(ok, upstream, Port(s, n, pick.value));
        PickedIsThere(s, n);
        ChainIsOrderly(w, req, pick.value, now, w', ok, upstream, answer);
      }
    }
  }
}
