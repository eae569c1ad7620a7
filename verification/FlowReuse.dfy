/** In the flow regime, a user that joins an existing network keeps the flow invariant. */
module FlowReuse {
  import opened Types
  import opened ServiceTable
  import opened Chains
  import opened Teardown
  import opened Settlement
  import opened ChainSetup
  import opened Requests
  import opened Flow
  import opened FlowTeardown
  import opened Conservation
  import opened FlowTriggers
  import opened FlowChanges
  import opened FlowSetup
  import opened Sharing

  /** One chain more through each of the links, nothing else changed. */
  ghost predicate Raised(a: Services, b: Services, links: seq<Link>) {
    && SameShape(a, b)
    && forall l ::
      if l in links then Entry(a, l).Some? && Entry(b, l).Some? && OneMore(Entry(a, l).value, Entry(b, l).value)
      else Entry(b, l) == Entry(a, l)
  }

  lemma RaisedKeeps(a: Services, b: Services, links: seq<Link>)
    requires Raised(a, b, links) && Regime(a) && Linked(a)
    requires forall l :: l in links ==> IsOut(a, l)
    ensures Regime(b) && Linked(b)
    ensures forall l :: Entry(b, l).Some? <==> Entry(a, l).Some?
  {
    RegimeShape(a, b);
    SameEdgeKinds(a, b);
    forall l | Entry(b, l).Some? ensures LinkOk(b, l, Entry(b, l).value) {
      assert Entry(a, l).Some? && LinkOk(a, l, Entry(a, l).value);
    }
  }

  lemma RaisedJoin(a: Services, m: Services, b: Services, first: Link, rest: seq<Link>)
    requires Raised(a, m, [first]) && Raised(m, b, rest) && first !in rest
    ensures Raised(a, b, [first] + rest)
  {
    ShapeTrans(a, m, b);
    forall l ensures
      if l in [first] + rest then Entry(a, l).Some? && Entry(b, l).Some? && OneMore(Entry(a, l).value, Entry(b, l).value)
      else Entry(b, l) == Entry(a, l)
    {
      assert l in [first] <==> l == first;
    }
  }

  lemma {:induction false} AddChainsConcat(s: Services, a: seq<(Client, Name)>, b: seq<(Client, Name)>, now: nat)
    ensures AddChains(s, a + b, now) == AddChains(AddChains(s, a, now), b, now)
    decreases |a|
  {
    if a == [] {
      assert a + b == b;
    } else {
      assert (a + b)[1..] == a[1..] + b;
      AddChainsConcat(AddChain(s, a[0].1, a[0].0, now), a[1..], b, now);
    }
  }

  lemma {:induction false} GhostsIgnored(s: Services, c: Client, deps: seq<Name>, now: nat)
    requires forall i :: 0 <= i < |deps| ==> Holder(s, deps[i], c).None?
    ensures AddChains(s, Level(c, deps), now) == s
  {
    if deps != [] {
      forall i | 0 <= i < |deps[1..]| ensures Holder(s, deps[1..][i], c).None? {
        assert deps[1..][i] == deps[i + 1];
      }
      GhostsIgnored(s, c, deps[1..], now);
      assert Level(c, deps)[0] == (c, deps[0]) && Level(c, deps)[1..] == Level(c, deps[1..]);
    }
  }

  lemma LevelRaises(s: Services, n: Name, r: ReplicaId, now: nat)
    requires Regime(s) && Linked(s) && Deps(s, n) != []
    requires Entry(s, LinkAt(s, ServiceClient(n, r), Deps(s, n), 0)).Some?
    ensures var c, deps := ServiceClient(n, r), Deps(s, n);
      Raised(s, AddChains(s, Level(c, deps), now), [LinkAt(s, c, deps, 0)])
  {
    var c, deps := ServiceClient(n, r), Deps(s, n);
    OnlyFirstHolds(s, n, r, 0);
    var m := RaisesOne(s, deps[0], c, now);
    RestIsGhosts(s, m, n, r);
    GhostsIgnored(m, c, deps[1..], now);
    assert Level(c, deps)[0] == (c, deps[0]) && Level(c, deps)[1..] == Level(c, deps[1..]);
  }

  lemma RestIsGhosts(s: Services, m: Services, n: Name, r: ReplicaId)
    requires Regime(s) && Linked(s) && Deps(s, n) != [] && Unique(m)
    requires Entry(s, LinkAt(s, ServiceClient(n, r), Deps(s, n), 0)).Some?
    requires forall x :: Entry(m, x).Some? ==> Entry(s, x).Some?
    ensures forall i :: 0 <= i < |Deps(s, n)[1..]| ==> Holder(m, Deps(s, n)[1..][i], ServiceClient(n, r)).None?
  {
    var c, deps := ServiceClient(n, r), Deps(s, n);
    forall i | 0 <= i < |deps[1..]| ensures Holder(m, deps[1..][i], c).None? {
      GhostAt(s, m, n, r, i + 1);
    }
  }

  lemma GhostAt(s: Services, m: Services, n: Name, r: ReplicaId, i: nat)
    requires Regime(s) && Linked(s) && 0 < i < |Deps(s, n)| && Unique(m)
    requires Entry(s, LinkAt(s, ServiceClient(n, r), Deps(s, n), 0)).Some?
    requires forall x :: Entry(m, x).Some? ==> Entry(s, x).Some?
    ensures Holder(m, Deps(s, n)[i], ServiceClient(n, r)).None?
  {
    OnlyFirstHolds(s, n, r, i);
    NobodyHolds(s, m, Deps(s, n)[i], ServiceClient(n, r));
  }

  lemma RaisesOne(s: Services, d: Name, c: Client, now: nat) returns (m: Services)
    requires Unique(s) && Holder(s, d, c).Some?
    ensures m == AddChain(s, d, c, now) && Unique(m) && Raised(s, m, [Link(c, d, Holder(s, d, c).value)])
    ensures forall x :: Entry(m, x).Some? ==> Entry(s, x).Some?
  {
    var l := Link(c, d, Holder(s, d, c).value);
    AddChainSpec(s, d, c, now);
    m := AddChain(s, d, c, now);
    PutEntries(s, m, l, Some(Entry(s, l).value.AddActiveChain(now)));
    ShapeFacts(s, m);
  }

  lemma AliveKept(a: Services, b: Services, c: Client, deps: seq<Name>)
    requires SameShape(a, b) && Alive(a, c, deps)
    requires forall l :: Entry(b, l).Some? <==> Entry(a, l).Some?
    ensures Alive(b, c, deps)
  {
    WalkOfShape(a, b, c, deps);
    forall j | 0 <= j < |deps| ensures Entry(b, LinkAt(b, c, deps, j)).Some? {
      assert ChainLinks(a, c, deps)[j] == ChainLinks(b, c, deps)[j];
      assert Entry(a, LinkAt(a, c, deps, j)).Some?;
    }
  }

  /** Adding a chain along the walk adds one to every edge of the chain and touches nothing else. */
  lemma {:induction false} WalkRaises(s: Services, n: Name, r: ReplicaId, now: nat)
    requires Regime(s) && Linked(s) && Alive(s, ServiceClient(n, r), Deps(s, n))
    ensures var c, deps := ServiceClient(n, r), Deps(s, n);
      Raised(s, AddChains(s, WalkOf(s, c, deps), now), ChainLinks(s, c, deps))
    decreases |Deps(s, n)|
  {
    var c, deps := ServiceClient(n, r), Deps(s, n);
    if deps != [] {
      var first := LinkAt(s, c, deps, 0);
      assert Entry(s, first).Some?;
      EntryNeedsRep(s, first);
      var d, rest := deps[0], deps[1..];
      var c' := ServiceClient(d, Sole(s, d));
      AddChainsConcat(s, Level(c, deps), WalkOf(s, c', rest), now);
      LevelRaises(s, n, r, now);
      var m := AddChains(s, Level(c, deps), now);
      RaisedKeeps(s, m, [first]);
      TailAlive(s, c, deps);
      AliveKept(s, m, c', rest);
      SameSole(s, m, d);
      TailDeps(s, n);
      ShapeFacts(s, m);
      WalkOfShape(s, m, c', rest);
      WalkRaises(m, d, Sole(s, d), now);
      LinksSplit(s, n, r);
      RaisedJoin(s, m, AddChains(m, WalkOf(s, c', rest), now), first, ChainLinks(s, c', rest));
    }
  }

  // ----- joining -----

  ghost predicate JoinsAt(s: Services, l: Link, c: Client, s1: Services, info: ClientInfo) {
    && Entry(s, l).Some? && Shares(info, Entry(s, l).value)
    && Put(s, s1, Link(c, l.server, l.at), Some(info))
  }

  lemma JoinLinked(s: Services, l: Link, c: Client, s1: Services, info: ClientInfo)
    requires FlowInvariant(s) && JoinsAt(s, l, c, s1, info) && l.client.proxy.Some?
    requires c.proxy == l.client.proxy && c.replica.None? && Holder(s, l.server, c).None?
    ensures Regime(s1) && Linked(s1) && ProxyOnce(s1)
    ensures Alive(s1, ServiceClient(l.server, l.at), Deps(s1, l.server))
  {
    var p := Link(c, l.server, l.at);
    PutEntries(s, s1, p, Some(info));
    RegimeShape(s, s1);
    SameEdgeKinds(s, s1);
    forall x | Entry(s1, x).Some? ensures LinkOk(s1, x, Entry(s1, x).value) {
      assert LinkOk(s, l, Entry(s, l).value);
      assert x != p ==> LinkOk(s, x, Entry(s, x).value);
    }
    JoinOnce(s, p, s1);
    EntryNeedsRep(s, l);
    UsedIsAlive(s, l.server, l.at) by {
      assert l.client in Tab(s, l.server, l.at);
    }
    JoinAlive(s, p, s1);
  }

  lemma JoinAlive(s: Services, p: Link, s1: Services)
    requires SameShape(s, s1) && forall x :: x != p ==> Entry(s1, x) == Entry(s, x)
    requires Entry(s1, p).Some?
    requires Alive(s, ServiceClient(p.server, p.at), Deps(s, p.server))
    ensures Alive(s1, ServiceClient(p.server, p.at), Deps(s1, p.server))
  {
    var c, deps := ServiceClient(p.server, p.at), Deps(s, p.server);
    ShapeFacts(s, s1);
    WalkOfShape(s, s1, c, deps);
    forall j | 0 <= j < |deps| ensures Entry(s1, LinkAt(s1, c, deps, j)).Some? {
      assert ChainLinks(s, c, deps)[j] == ChainLinks(s1, c, deps)[j];
      assert Entry(s, LinkAt(s, c, deps, j)).Some?;
    }
  }

  lemma JoinIsOneChain(s: Services, l: Link, c: Client, s1: Services, info: ClientInfo, b: Services)
    requires JoinsAt(s, l, c, s1, info) && Entry(s, Link(c, l.server, l.at)).None? && c.proxy.Some?
    requires Raised(s1, b, ChainLinks(s, ServiceClient(l.server, l.at), Deps(s, l.server)))
    ensures OneChain(s, {}, b, {}, l.server, l.at, Link(c, l.server, l.at), 1)
  {
    var p := Link(c, l.server, l.at);
    var links := ChainLinks(s, ServiceClient(l.server, l.at), Deps(s, l.server));
    PutEntries(s, s1, p, Some(info));
    if p in links {
      LinksLieOnChain(s, l.server, l.at, p);
    }
    forall x ensures LoadWithout(b, {}, x) == LoadWithout(s, {}, x) + if x == p || x in links then 1 else 0 {
      LoadOfEntry(s, x);
      LoadOfEntry(b, x);
      assert x != p ==> Entry(s1, x) == Entry(s, x);
    }
  }

  lemma JoinSameIds(s: Services, l: Link, c: Client, s1: Services, info: ClientInfo, b: Services)
    requires JoinsAt(s, l, c, s1, info) && c.proxy.Some? && c.proxy == l.client.proxy && ProperlyShared(s)
    requires Entry(s, Link(c, l.server, l.at)).None? && l != Link(c, l.server, l.at)
    requires Raised(s1, b, ChainLinks(s, ServiceClient(l.server, l.at), Deps(s, l.server)))
    ensures ProperlyShared(b) && forall id :: Held(b, id) <==> Held(s, id)
  {
    var p := Link(c, l.server, l.at);
    PutEntries(s, s1, p, Some(info));
    forall x | x != p
      ensures Entry(b, x).Some? == Entry(s, x).Some?
      ensures Entry(s, x).Some? ==> Entry(b, x).value.netId == Entry(s, x).value.netId
    {
      assert Entry(s1, x) == Entry(s, x);
    }
    assert Entry(s1, p) == Some(info);
    assert Entry(b, p).Some? && Entry(b, p).value.netId == info.netId;
    JoinShares(s, l, p, b);
  }

  /** Joining a network of the same proxy adds one user and one chain on every edge behind it; no ID is taken. */
  lemma ReuseKeepsFlow(w: World, l: Link, req: Request, now: nat, w': World)
    requires Sound(w.services) && Reusable(w.services, req.service, req.proxy, l)
    requires Holder(w.services, req.service, req.Client()).None?
    requires ReuseRel(w, l, req.Client(), req.proxy, now, w')
    ensures Sound(w'.services) && w' == w.(services := w'.services)
    ensures forall id :: Held(w'.services, id) <==> Held(w.services, id)
    ensures Arrived(w.services, w'.services, Link(req.Client(), l.server, l.at))
    ensures Entry(w'.services, Link(req.Client(), l.server, l.at)).value.serverNet == Entry(w.services, l).value.serverNet
  {
    var s, b, c := w.services, w'.services, req.Client();
    var n, at := l.server, l.at;
    var links := ChainLinks(s, ServiceClient(n, at), Deps(s, n));
    SharedIsNotTheUser(s, n, req.proxy, l, c);
    var s1 := Joined(s, l, c, req.proxy, now);
    var info := JoinedSpec(s, l, c, req.proxy, now);
    JoinLinked(s, l, c, s1, info);
    WalkIsShape(s1, n, at);
    WalkRaises(s1, n, at, now);
    ShapeFacts(s, s1);
    WalkOfShape(s, s1, ServiceClient(n, at), Deps(s, n));
    JoinKeepsFlow(s, l, c, s1, info, b);
  }

  lemma JoinKeepsFlow(s: Services, l: Link, c: Client, s1: Services, info: ClientInfo, b: Services)
    requires Sound(s) && JoinsAt(s, l, c, s1, info) && c.proxy.Some? && c.proxy == l.client.proxy
    requires Regime(s1) && Linked(s1) && ProxyOnce(s1)
    requires Entry(s, Link(c, l.server, l.at)).None? && l != Link(c, l.server, l.at)
    requires Raised(s1, b, ChainLinks(s, ServiceClient(l.server, l.at), Deps(s, l.server)))
    ensures Sound(b) && SameShape(s, b) && forall id :: Held(b, id) <==> Held(s, id)
    ensures Arrived(s, b, Link(c, l.server, l.at))
    ensures Entry(b, Link(c, l.server, l.at)) == Some(info)
  {
    var links := ChainLinks(s, ServiceClient(l.server, l.at), Deps(s, l.server));
    SameEdgeKinds(s, s1);
    UserIsConfigured(s, l);
    forall x | x in links ensures IsOut(s1, x) {
      LinksAreOut(s, l.server, l.at, x);
    }
    RaisedKeeps(s1, b, links);
    RaisedOnce(s1, b);
    ShapeTrans(s, s1, b);
    JoinIsOneChain(s, l, c, s1, info, b);
    JoinSameIds(s, l, c, s1, info, b);
    JoinArrives(s, l, c, s1, info, b);
    Rebalance(s, {}, b, {}, l.server, l.at, Link(c, l.server, l.at), 1);
  }

  lemma JoinArrives(s: Services, l: Link, c: Client, s1: Services, info: ClientInfo, b: Services)
    requires JoinsAt(s, l, c, s1, info) && c.proxy.Some? && SameShape(s, b) && Coherent(s) && Configured(s, l.server)
    requires Entry(s, Link(c, l.server, l.at)).None?
    requires Raised(s1, b, ChainLinks(s, ServiceClient(l.server, l.at), Deps(s, l.server)))
    ensures Arrived(s, b, Link(c, l.server, l.at)) && Entry(b, Link(c, l.server, l.at)) == Some(info)
  {
    var p := Link(c, l.server, l.at);
    var links := ChainLinks(s, ServiceClient(l.server, l.at), Deps(s, l.server));
    PutEntries(s, s1, p, Some(info));
    forall x | x in links ensures IsOut(s, x) {
      LinksAreOut(s, l.server, l.at, x);
    }
    forall x | Entry(s, x).Some? ensures Entry(b, x).Some? && OnNetwork(Entry(s, x).value, Entry(b, x).value) {
      assert Entry(s1, x) == Entry(s, x);
    }
    assert p !in links && Entry(b, p) == Entry(s1, p);
  }

  lemma RaisedOnce(a: Services, b: Services)
    requires ProxyOnce(a) && forall l :: Entry(b, l).Some? <==> Entry(a, l).Some?
    ensures ProxyOnce(b)
  {
    forall n, c: Client, r, q | c.proxy.Some? && c in Tab(b, n, r) && c in Tab(b, n, q) ensures r == q {
      assert Entry(b, Link(c, n, r)).Some? && Entry(b, Link(c, n, q)).Some?;
      assert Entry(a, Link(c, n, r)).Some? && Entry(a, Link(c, n, q)).Some?;
    }
  }

  lemma UserIsConfigured(s: Services, l: Link)
    requires FlowInvariant(s) && Entry(s, l).Some?
    ensures Configured(s, l.server)
  {
    var deps := Deps(s, l.server);
    EntryNeedsRep(s, l);
    UsedIsAlive(s, l.server, l.at) by {
      assert l.client in Tab(s, l.server, l.at);
    }
    forall i | 0 <= i < |deps| ensures deps[i] in s {
      assert Entry(s, LinkAt(s, ServiceClient(l.server, l.at), deps, i)).Some?;
      EntryNeedsRep(s, LinkAt(s, ServiceClient(l.server, l.at), deps, i));
    }
  }
}
