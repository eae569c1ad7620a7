/**
 What a teardown does to the ownership of network IDs: an entry is never moved or changed in its network, an ID that
 is released was held before and is held by nobody after, and no ID is released twice.
 */
module Settlement {
  import opened Types
  import opened NetIdPool
  import opened ServiceTable
  import opened Chains
  import opened Teardown

  // ----- who holds an ID -----

  /** An entry of the table uses the network; 0 marks a reserved slot without a network. */
  ghost predicate Held(s: Services, id: nat) {
    id != 0 && exists l :: Entry(s, l).Some? && Entry(s, l).value.netId == id
  }

  ghost predicate SameId(s: Services, a: Link, b: Link) {
    Entry(s, a).Some? && Entry(s, b).Some? && Entry(s, a).value.netId == Entry(s, b).value.netId != 0
  }

  /** No network is used by two entries. */
  ghost predicate Exclusive(s: Services) {
    forall a, b :: SameId(s, a, b) ==> a == b
  }

  /** Two entries use one network only if they are users of one proxy on one replica. */
  ghost predicate ProperlyShared(s: Services) {
    forall a, b :: SameId(s, a, b) ==> a == b || SharedByProxy(a, b)
  }

  ghost predicate SharedByProxy(a: Link, b: Link) {
    a.server == b.server && a.at == b.at && a.client.proxy.Some? && a.client.proxy == b.client.proxy
  }

  /** No other entry uses the network of this one. */
  ghost predicate Private(s: Services, l: Link) {
    forall x :: SameId(s, l, x) ==> x == l
  }

  /** A proxied user is on at most one replica of a service. */
  ghost predicate ProxyOnce(s: Services) {
    forall n, c: Client, r, q :: c.proxy.Some? && c in Tab(s, n, r) && c in Tab(s, n, q) ==> r == q
  }

  // ----- releasing -----

  /** Same network: only the number of chains may have gone down. */
  ghost predicate SameNetwork(a: ClientInfo, b: ClientInfo) {
    b == a.(activeChains := b.activeChains) && b.activeChains <= a.activeChains
  }

  ghost predicate Shrunk(a: Services, b: Services) {
    forall l :: Entry(b, l).Some? ==> Entry(a, l).Some? && SameNetwork(Entry(a, l).value, Entry(b, l).value)
  }

  ghost function FreeAll(p: PoolState, downs: seq<Down>): PoolState {
    if downs == [] then p else Free(FreeAll(p, downs[..|downs| - 1]), downs[|downs| - 1].netId)
  }

  ghost predicate Releases(sent: seq<Down>, id: nat) {
    exists d :: d in sent && d.netId == id
  }

  ghost predicate Settles(w: World, w': World, sent: seq<Down>) {
    && Shrunk(w.services, w'.services)
    && w'.downs == w.downs + sent
    && w'.pool == FreeAll(w.pool, sent)
    && (forall d :: d in sent && d.netId != 0 ==> Held(w.services, d.netId) && !Held(w'.services, d.netId))
    && (forall i, j :: 0 <= i < j < |sent| && sent[i].netId != 0 ==> sent[i].netId != sent[j].netId)
  }

  /** Every network that no entry uses any more has been released. */
  ghost predicate NoLeak(w: World, w': World, sent: seq<Down>) {
    forall id :: Held(w.services, id) && !Held(w'.services, id) ==> Releases(sent, id)
  }

  lemma {:induction false} FreeAllConcat(p: PoolState, a: seq<Down>, b: seq<Down>)
    ensures FreeAll(p, a + b) == FreeAll(FreeAll(p, a), b)
  {
    if b == [] {
      assert a + b == a;
    } else {
      assert (a + b)[..|a + b| - 1] == a + b[..|b| - 1];
      FreeAllConcat(p, a, b[..|b| - 1]);
    }
  }

  lemma {:induction false} FreeAllLive(p: PoolState, sent: seq<Down>)
    requires Valid(p)
    requires forall d :: d in sent && d.netId != 0 ==> Live(p, d.netId)
    ensures Valid(FreeAll(p, sent)) && FreeAll(p, sent).net == p.net && FreeAll(p, sent).nextFresh == p.nextFresh
    ensures forall id: nat :: Live(FreeAll(p, sent), id) <==> Live(p, id) && !Releases(sent, id)
  {
    if sent != [] {
      var before, last := sent[..|sent| - 1], sent[|sent| - 1];
      FreeAllLive(p, before);
      assert last in sent;
      FreeIsSoundIffIssued(FreeAll(p, before), last.netId);
      forall id: nat ensures Releases(sent, id) <==> Releases(before, id) || id == last.netId {
        assert forall d :: d in sent <==> d in before || d == last;
      }
    }
  }

  lemma ShrunkHeld(a: Services, b: Services, id: nat)
    requires Shrunk(a, b) && Held(b, id)
    ensures Held(a, id)
  {
    var l :| Entry(b, l).Some? && Entry(b, l).value.netId == id;
    assert Entry(a, l).Some? && Entry(a, l).value.netId == id;
  }

  lemma ShrunkTrans(a: Services, b: Services, c: Services)
    requires Shrunk(a, b) && Shrunk(b, c)
    ensures Shrunk(a, c)
  {
    forall l | Entry(c, l).Some?
      ensures Entry(a, l).Some? && SameNetwork(Entry(a, l).value, Entry(c, l).value)
    {
      assert Entry(b, l).Some?;
    }
  }

  lemma ShrunkKeeps(a: Services, b: Services)
    requires Shrunk(a, b)
    ensures ProperlyShared(a) ==> ProperlyShared(b)
    ensures Exclusive(a) ==> Exclusive(b)
    ensures ProxyOnce(a) ==> ProxyOnce(b)
  {
    forall x, y | SameId(b, x, y) ensures SameId(a, x, y) {
      assert Entry(b, x).Some? && Entry(b, y).Some?;
    }
    if ProxyOnce(a) {
      forall n, c: Client, r, q | c.proxy.Some? && c in Tab(b, n, r) && c in Tab(b, n, q) ensures r == q {
        assert Entry(b, Link(c, n, r)).Some? && Entry(b, Link(c, n, q)).Some?;
        assert Entry(a, Link(c, n, r)).Some? && Entry(a, Link(c, n, q)).Some?;
      }
    }
  }

  lemma ExclusiveIsShared(s: Services)
    requires Exclusive(s)
    ensures ProperlyShared(s)
  {
  }

  lemma SettlesTrans(w: World, m: World, w': World, a: seq<Down>, b: seq<Down>)
    requires Settles(w, m, a) && Settles(m, w', b)
    ensures Settles(w, w', a + b)
    ensures NoLeak(w, m, a) && NoLeak(m, w', b) ==> NoLeak(w, w', a + b)
  {
    ShrunkTrans(w.services, m.services, w'.services);
    FreeAllConcat(w.pool, a, b);
    forall d | d in a + b && d.netId != 0 ensures Held(w.services, d.netId) && !Held(w'.services, d.netId) {
      if d in a {
        if Held(w'.services, d.netId) {
          ShrunkHeld(m.services, w'.services, d.netId);
        }
      } else {
        ShrunkHeld(w.services, m.services, d.netId);
      }
    }
    forall i, j | 0 <= i < j < |a + b| && (a + b)[i].netId != 0 ensures (a + b)[i].netId != (a + b)[j].netId {
      if i < |a| <= j {
        assert !Held(m.services, a[i].netId);
        assert b[j - |a|].netId != 0 ==> Held(m.services, b[j - |a|].netId);
      } else if |a| <= i {
        assert b[i - |a|].netId != b[j - |a|].netId;
      }
    }
    if NoLeak(w, m, a) && NoLeak(m, w', b) {
      forall id | Held(w.services, id) && !Held(w'.services, id) ensures Releases(a + b, id) {
        if Held(m.services, id) {
          var d :| d in b && d.netId == id;
          assert d in a + b;
        } else {
          var d :| d in a && d.netId == id;
          assert d in a + b;
        }
      }
    }
  }

  lemma SettlesIdle(w: World, s: Services)
    requires Shrunk(w.services, s)
    ensures Settles(w, w.(services := s), [])
  {
    assert w.downs + [] == w.downs;
  }

  lemma SameIsShrunk(s: Services)
    ensures Shrunk(s, s)
  {
  }

  // ----- one decrement -----

  /** The entry that one chain less leaves. */
  function OneLess(entry: Option<ClientInfo>): Option<ClientInfo> {
    if entry.None? || entry.value.activeChains <= 1 then None else Some(entry.value.RemoveActiveChain())
  }

  lemma DecrementPuts(w: World, n: Name, c: Client)
    requires Unique(w.services) && Holder(w.services, n, c).Some?
    ensures var r := Holder(w.services, n, c).value;
      c in Tab(w.services, n, r) &&
      Put(w.services, DecrementChain(w, n, c).services, Link(c, n, r), OneLess(Some(Tab(w.services, n, r)[c])))
  {
    var i := HolderIndex(Reps(w.services, n), c);
    var info := Reps(w.services, n)[i].clients[c];
    PutSpec(w.services, n, i, c, OneLess(Some(info)));
  }

  lemma DecrementSends(w: World, n: Name, c: Client)
    requires Unique(w.services) && Holder(w.services, n, c).Some?
    ensures var r, w' := Holder(w.services, n, c).value, DecrementChain(w, n, c);
      c in Tab(w.services, n, r) &&
      if Tab(w.services, n, r)[c].activeChains <= 1 then
        w' == SendTeardown(w.(services := w'.services), DownOf(Tab(w.services, n, r)[c], r))
      else w' == w.(services := w'.services)
  {
    TabAt(Reps(w.services, n), HolderIndex(Reps(w.services, n), c));
  }

  lemma DecrementSpec(w: World, n: Name, c: Client)
    requires Unique(w.services)
    ensures Holder(w.services, n, c).None? ==> DecrementChain(w, n, c) == w
    ensures Holder(w.services, n, c).Some? ==>
      var r := Holder(w.services, n, c).value;
      c in Tab(w.services, n, r) &&
      var info, w' := Tab(w.services, n, r)[c], DecrementChain(w, n, c);
      && Put(w.services, w'.services, Link(c, n, r), OneLess(Some(info)))
      && w' == if info.activeChains <= 1 then SendTeardown(w.(services := w'.services), DownOf(info, r))
               else w.(services := w'.services)
  {
    if Holder(w.services, n, c).Some? {
      DecrementPuts(w, n, c);
      DecrementSends(w, n, c);
    }
  }

  lemma PutEntries(a: Services, b: Services, l: Link, v: Option<ClientInfo>)
    requires Put(a, b, l, v)
    ensures Entry(b, l) == v
    ensures forall x :: x != l ==> Entry(b, x) == Entry(a, x)
  {
    forall x | x != l ensures Entry(b, x) == Entry(a, x) {
      assert x.server != l.server || x.at != l.at || x.client != l.client;
    }
  }

  lemma {:induction false} DecrementSettles(w: World, n: Name, c: Client) returns (sent: seq<Down>)
    requires Unique(w.services) && forall r :: Private(w.services, Link(c, n, r))
    ensures Settles(w, DecrementChain(w, n, c), sent) && NoLeak(w, DecrementChain(w, n, c), sent)
  {
    sent := [];
    var s, w' := w.services, DecrementChain(w, n, c);
    DecrementSpec(w, n, c);
    if Holder(s, n, c).None? {
      SettlesIdle(w, s);
    } else {
      var r := Holder(s, n, c).value;
      var l := Link(c, n, r);
      var info := Tab(s, n, r)[c];
      assert Entry(s, l) == Some(info);
      if info.activeChains <= 1 {
        PutEntries(s, w'.services, l, None);
        sent := [DownOf(info, r)];
        ReleaseOne(w, w', l, sent[0]);
      } else {
        PutEntries(s, w'.services, l, Some(info.RemoveActiveChain()));
        LessOne(w, w', l);
      }
    }
  }

  /** One chain less through an entry that stays. */
  lemma LessOne(w: World, w': World, l: Link)
    requires Entry(w.services, l).Some?
    requires Entry(w'.services, l) == Some(Entry(w.services, l).value.RemoveActiveChain())
    requires forall x :: x != l ==> Entry(w'.services, x) == Entry(w.services, x)
    requires w' == w.(services := w'.services)
    ensures Settles(w, w', []) && NoLeak(w, w', [])
  {
    SettlesIdle(w, w'.services);
    forall id | Held(w.services, id) ensures Held(w'.services, id) {
      var x :| Entry(w.services, x).Some? && Entry(w.services, x).value.netId == id;
      assert Entry(w'.services, x).Some? && Entry(w'.services, x).value.netId == id;
    }
  }

  /** Removing one entry and releasing its network settles, unless another entry uses the network. */
  lemma ReleaseOne(w: World, w': World, l: Link, d: Down)
    requires Entry(w.services, l).Some? && Entry(w.services, l).value.netId == d.netId
    requires Entry(w'.services, l).None? && forall x :: x != l ==> Entry(w'.services, x) == Entry(w.services, x)
    requires Private(w.services, l)
    requires w' == SendTeardown(w.(services := w'.services), d)
    ensures Settles(w, w', [d]) && NoLeak(w, w', [d])
  {
    var s := w.services;
    FreeAllOne(w.pool, d);
    if d.netId != 0 && Held(w'.services, d.netId) {
      var x :| Entry(w'.services, x).Some? && Entry(w'.services, x).value.netId == d.netId;
      assert SameId(s, l, x);
      assert false;
    }
    forall id | Held(s, id) && !Held(w'.services, id) ensures Releases([d], id) {
      var x :| Entry(s, x).Some? && Entry(s, x).value.netId == id;
      assert x == l;
      assert d in [d];
    }
  }

  ghost predicate ServiceEdges(edges: seq<(Client, Name)>) {
    forall e :: e in edges ==> e.0.proxy.None?
  }

  /** Entries of proxied users stay exactly as they are. */
  ghost predicate SameProxies(a: Services, b: Services) {
    forall l: Link :: l.client.proxy.Some? ==> Entry(b, l) == Entry(a, l)
  }

  /** Only users share networks. */
  lemma ServiceIsPrivate(s: Services, n: Name, c: Client)
    requires ProperlyShared(s) && c.proxy.None?
    ensures forall r :: Private(s, Link(c, n, r))
  {
    forall r ensures Private(s, Link(c, n, r)) {
      assert forall x :: SameId(s, Link(c, n, r), x) ==> x == Link(c, n, r) || SharedByProxy(Link(c, n, r), x);
    }
  }

  lemma ShrunkPrivate(a: Services, b: Services, l: Link)
    requires Shrunk(a, b) && Private(a, l)
    ensures Private(b, l)
  {
    forall x | SameId(b, l, x) ensures x == l {
      assert Entry(b, l).Some? && Entry(b, x).Some?;
      assert SameId(a, l, x);
    }
  }

  lemma {:induction false} DecrementEdgesSettle(w: World, edges: seq<(Client, Name)>) returns (sent: seq<Down>)
    requires Unique(w.services) && ProperlyShared(w.services) && ServiceEdges(edges)
    ensures Settles(w, DecrementEdges(w, edges), sent) && NoLeak(w, DecrementEdges(w, edges), sent)
    ensures SameProxies(w.services, DecrementEdges(w, edges).services)
    decreases |edges|
  {
    if edges == [] {
      sent := [];
      SameIsShrunk(w.services);
      SettlesIdle(w, w.services);
    } else {
      var n, c := edges[0].1, edges[0].0;
      assert edges[0] in edges;
      var m := DecrementChain(w, n, c);
      ServiceIsPrivate(w.services, n, c);
      var a := DecrementSettles(w, n, c);
      DecrementKeepsProxies(w, n, c);
      DecrementShape(w, n, c);
      ShapeFacts(w.services, m.services);
      ShrunkKeeps(w.services, m.services);
      var b := DecrementEdgesSettle(m, edges[1..]);
      SettlesTrans(w, m, DecrementEdges(w, edges), a, b);
      sent := a + b;
    }
  }

  lemma DecrementKeepsProxies(w: World, n: Name, c: Client)
    requires Unique(w.services) && c.proxy.None?
    ensures SameProxies(w.services, DecrementChain(w, n, c).services)
  {
    DecrementSpec(w, n, c);
    var r := Holder(w.services, n, c);
    if r.Some? {
      var info := Tab(w.services, n, r.value)[c];
      var v := if info.activeChains <= 1 then None else Some(info.RemoveActiveChain());
      PutEntries(w.services, DecrementChain(w, n, c).services, Link(c, n, r.value), v);
    }
  }

  // ----- the edges that teardowns decrement -----

  lemma {:induction false} LevelIsService(c: Client, deps: seq<Name>)
    requires c.proxy.None?
    ensures ServiceEdges(Level(c, deps))
  {
    if deps != [] {
      LevelIsService(c, deps[1..]);
    }
  }

  lemma {:induction false} WalkIsService(s: Services, n: Name, at: ReplicaId)
    requires Acyclic(s)
    ensures ServiceEdges(DepChainEdges(s, n, at))
    decreases Rank(s, n)
  {
    if Deps(s, n) != [] {
      WalkStep(s, n, at);
      LevelIsService(ServiceClient(n, at), Deps(s, n));
      var hop := LastHop(s, ServiceClient(n, at), Deps(s, n));
      if hop.Some? {
        WalkIsService(s, hop.value.0, hop.value.1);
      }
    }
  }

  lemma {:induction false} TriggerWalkIsService(s: Services, c: Client, chain: seq<Name>)
    requires c.proxy.None?
    ensures ServiceEdges(TriggerWalk(s, c, chain))
    decreases |chain|
  {
    if chain != [] {
      var hop := Holder(s, chain[0], c);
      if hop.Some? {
        TriggerWalkIsService(s, ServiceClient(chain[0], hop.value), chain[1..]);
      }
    }
  }

  lemma {:induction false} TriggersAreService(s: Services, n: Name, at: ReplicaId, through: Option<Name>,
                                              ports: seq<nat>)
    requires forall p :: p in ports ==> p in Triggers(s, n)
    ensures ServiceEdges(TriggerEdges(s, n, at, through, ports))
    decreases |ports|
  {
    if ports != [] {
      TriggerWalkIsService(s, ServiceClient(n, at), Triggers(s, n)[ports[0]]);
      TriggersAreService(s, n, at, through, ports[1..]);
    }
  }

  // ----- teardown_chain -----

  lemma {:induction false} DepChainsSettle(w: World, n: Name, targets: seq<Target>) returns (sent: seq<Down>)
    requires Walkable(w.services, targets) && Unique(w.services) && ProperlyShared(w.services)
    ensures var w' := TeardownDepChains(w, n, targets);
      Settles(w, w', sent) && NoLeak(w, w', sent) && SameProxies(w.services, w'.services)
    decreases |targets|
  {
    if targets == [] {
      sent := [];
      SameIsShrunk(w.services);
      SettlesIdle(w, w.services);
    } else {
      var edges := DepChainEdges(w.services, n, targets[0].at);
      var m := TeardownDepChain(w, n, targets[0].at);
      WalkIsService(w.services, n, targets[0].at);
      var a := DecrementEdgesSettle(w, edges);
      DecrementEdgesShape(w, edges);
      ShapeFacts(w.services, m.services);
      ShapeKeepsAcyclic(w.services, m.services);
      ShrunkKeeps(w.services, m.services);
      var b := DepChainsSettle(m, n, targets[1..]);
      SettlesTrans(w, m, TeardownDepChains(m, n, targets[1..]), a, b);
      sent := a + b;
    }
  }

  /** Removing the targets takes entries away and changes none. */
  lemma {:induction false} RemoveTargetsShrinks(s: Services, n: Name, targets: seq<Target>)
    requires Unique(s)
    ensures var b := RemoveTargets(s, n, targets);
      forall l :: Entry(b, l).Some? ==> Entry(b, l) == Entry(s, l)
    decreases |targets|
  {
    if targets != [] {
      var m := RemoveOne(s, n, targets[0].client);
      RemoveTargetsShrinks(m, n, targets[1..]);
      var b := RemoveTargets(s, n, targets);
      forall l | Entry(b, l).Some? ensures Entry(b, l) == Entry(s, l) {
        assert Entry(m, l).Some?;
      }
    }
  }

  lemma RemoveOne(s: Services, n: Name, c: Client) returns (m: Services)
    requires Unique(s)
    ensures m == RemoveClient(s, n, c) && Unique(m)
    ensures forall l :: Entry(m, l).Some? ==> Entry(m, l) == Entry(s, l)
    ensures forall l: Link :: l.server != n || l.client != c ==> Entry(m, l) == Entry(s, l)
    ensures Holder(s, n, c).Some? ==>
      forall l :: Entry(m, l) == if l == Link(c, n, Holder(s, n, c).value) then None else Entry(s, l)
    ensures Holder(s, n, c).None? ==> m == s
  {
    m := RemoveClient(s, n, c);
    RemoveClientSpec(s, n, c);
    RemoveClientShape(s, n, c);
    ShapeFacts(s, m);
    if Holder(s, n, c).Some? {
      PutEntries(s, m, Link(c, n, Holder(s, n, c).value), None);
    }
  }

  /** When every user is on one replica only, exactly the targets go. */
  lemma {:induction false} RemoveTargetsExact(s: Services, n: Name, targets: seq<Target>)
    requires Unique(s) && ProxyOnce(s)
    requires forall t :: t in targets ==> t.client.proxy.Some? && Entry(s, t.Link(n)).Some?
    requires forall i, j :: 0 <= i < j < |targets| ==> targets[i].Link(n) != targets[j].Link(n)
    ensures var b := RemoveTargets(s, n, targets);
      forall l :: Entry(b, l) == if l in LinksOf(n, targets) then None else Entry(s, l)
    decreases |targets|
  {
    if targets != [] {
      var t, rest := targets[0], targets[1..];
      var l0 := t.Link(n);
      var m := RemoveOne(s, n, t.client);
      assert t in targets;
      HolderIsSole(s, l0);
      forall u | u in rest ensures u in targets && u.Link(n) != l0 && Entry(m, u.Link(n)) == Entry(s, u.Link(n)) {
        var k :| 0 <= k < |rest| && rest[k] == u;
        assert targets[k + 1] == u;
      }
      ProxyOnceKept(s, m);
      RemoveTargetsExact(m, n, rest);
    }
  }

  ghost function LinksOf(n: Name, targets: seq<Target>): set<Link> {
    if targets == [] then {} else {targets[0].Link(n)} + LinksOf(n, targets[1..])
  }

  lemma {:induction false} LinksOfIn(n: Name, targets: seq<Target>, l: Link)
    ensures l in LinksOf(n, targets) <==> exists t :: t in targets && t.Link(n) == l
  {
    if targets != [] {
      LinksOfIn(n, targets[1..], l);
      if t :| t in targets && t.Link(n) == l {
        assert t == targets[0] || t in targets[1..];
      }
    }
  }

  lemma HolderIsSole(s: Services, l: Link)
    requires Unique(s) && ProxyOnce(s) && l.client.proxy.Some? && Entry(s, l).Some?
    ensures Holder(s, l.server, l.client) == Some(l.at)
  {
    HolderSpec(s, l.server, l.client);
  }

  lemma ProxyOnceKept(a: Services, b: Services)
    requires ProxyOnce(a) && forall l :: Entry(b, l).Some? ==> Entry(b, l) == Entry(a, l)
    ensures ProxyOnce(b)
  {
    assert Shrunk(a, b);
    ShrunkKeeps(a, b);
  }

  /** `sent` releases the networks of the targets that no client of the service uses, once each, except those seen. */
  ghost predicate Freed(s: Services, n: Name, targets: seq<Target>, seen: set<nat>, sent: seq<Down>) {
    && (forall d :: d in sent ==>
          d.netId !in seen && !HasNetId(s, n, d.netId) && exists t :: t in targets && d == DownOf(t.info, t.at))
    && (forall t :: t in targets && t.info.netId !in seen && !HasNetId(s, n, t.info.netId) ==>
          Releases(sent, t.info.netId))
    && (forall i, j :: 0 <= i < j < |sent| ==> sent[i].netId != sent[j].netId)
  }

  lemma FreedSkip(s: Services, n: Name, targets: seq<Target>, seen: set<nat>, sent: seq<Down>)
    requires targets != [] && Freed(s, n, targets[1..], seen + {targets[0].info.netId}, sent)
    requires targets[0].info.netId in seen || HasNetId(s, n, targets[0].info.netId)
    ensures Freed(s, n, targets, seen, sent)
  {
    assert forall t :: t in targets <==> t == targets[0] || t in targets[1..];
  }

  lemma FreedOne(s: Services, n: Name, targets: seq<Target>, seen: set<nat>, rest: seq<Down>)
    requires targets != [] && Freed(s, n, targets[1..], seen + {targets[0].info.netId}, rest)
    requires targets[0].info.netId !in seen && !HasNetId(s, n, targets[0].info.netId)
    ensures Freed(s, n, targets, seen, [DownOf(targets[0].info, targets[0].at)] + rest)
  {
    var d := DownOf(targets[0].info, targets[0].at);
    var sent := [d] + rest;
    assert forall t :: t in targets <==> t == targets[0] || t in targets[1..];
    assert forall e :: e in sent <==> e == d || e in rest;
    forall u | u in targets && u.info.netId !in seen && !HasNetId(s, n, u.info.netId)
      ensures Releases(sent, u.info.netId)
    {
      if u.info.netId == d.netId {
        assert d in sent;
      } else {
        var e :| e in rest && e.netId == u.info.netId;
        assert e in sent;
      }
    }
  }

  lemma {:induction false} FreeAllOne(p: PoolState, d: Down)
    ensures FreeAll(p, [d]) == Free(p, d.netId)
  {
    assert [d][..0] == [];
  }

  lemma {:induction false} SendThen(w: World, d: Down, rest: seq<Down>)
    ensures FreeAll(SendTeardown(w, d).pool, rest) == FreeAll(w.pool, [d] + rest)
    ensures SendTeardown(w, d).downs + rest == w.downs + ([d] + rest)
  {
    FreeAllConcat(w.pool, [d], rest);
    FreeAllOne(w.pool, d);
  }

  /** Which networks the last phase of `teardown_chain` releases. */
  lemma {:induction false} FreeUnsharedSpec(w: World, n: Name, targets: seq<Target>, seen: set<nat>)
    returns (sent: seq<Down>)
    ensures FreeUnshared(w, n, targets, seen).pool == FreeAll(w.pool, sent)
    ensures FreeUnshared(w, n, targets, seen).downs == w.downs + sent
    ensures Freed(w.services, n, targets, seen, sent)
    decreases |targets|
  {
    if targets == [] {
      sent := [];
      assert w.downs + [] == w.downs;
    } else {
      var id := targets[0].info.netId;
      if id in seen || HasNetId(w.services, n, id) {
        sent := FreeUnsharedSpec(w, n, targets[1..], seen + {id});
        FreedSkip(w.services, n, targets, seen, sent);
      } else {
        var d := DownOf(targets[0].info, targets[0].at);
        var rest := FreeUnsharedSpec(SendTeardown(w, d), n, targets[1..], seen + {id});
        sent := [d] + rest;
        FreedOne(w.services, n, targets, seen, rest);
        SendThen(w, d, rest);
      }
    }
  }

  /** The three phases of `teardown_chain`, with what each one sends. */
  lemma ChainPhases(w: World, n: Name, f: ProxyFilter, targets: seq<Target>)
    returns (m: World, a: seq<Down>, b: seq<Down>)
    requires Walkable(w.services, targets) && Unique(w.services) && ProperlyShared(w.services)
    requires Collected(w.services, n, f, targets)
    ensures m == TeardownDepChains(w, n, targets) && Unique(m.services)
    ensures Settles(w, m, a) && NoLeak(w, m, a) && SameProxies(w.services, m.services)
    ensures var w' := TeardownChain(w, n, targets);
      && w'.services == RemoveTargets(m.services, n, targets)
      && w' == World(w'.services, FreeAll(m.pool, b), m.downs + b)
      && Freed(w'.services, n, targets, {}, b)
      && forall l :: Entry(w'.services, l).Some? ==> Entry(w'.services, l) == Entry(m.services, l)
  {
    m := TeardownDepChains(w, n, targets);
    a := DepChainsSettle(w, n, targets);
    DepChainsShape(w, n, targets);
    ShapeFacts(w.services, m.services);
    RemoveTargetsShrinks(m.services, n, targets);
    FreeUnsharedTable(m.(services := RemoveTargets(m.services, n, targets)), n, targets, {});
    b := FreeUnsharedSpec(m.(services := RemoveTargets(m.services, n, targets)), n, targets, {});
  }

  /** The network of a target was in use when the chain phase ended, by the target itself. */
  lemma TargetStillHeld(w: World, m: World, n: Name, f: ProxyFilter, targets: seq<Target>, t: Target)
    requires Collected(w.services, n, f, targets) && SameProxies(w.services, m.services) && t in targets
    ensures Entry(w.services, t.Link(n)) == Entry(m.services, t.Link(n)) == Some(t.info)
    ensures t.info.netId != 0 ==> Held(w.services, t.info.netId) && Held(m.services, t.info.netId)
  {
    assert Entry(w.services, t.Link(n)) == Some(t.info);
  }

  /** A network of a target that no client of the service uses is used by nobody. */
  lemma UnsharedIsUnheld(s: Services, after: Services, n: Name, t: Target)
    requires ProperlyShared(s) && Entry(s, t.Link(n)) == Some(t.info)
    requires forall l :: Entry(after, l).Some? ==> Entry(s, l) == Entry(after, l)
    requires !HasNetId(after, n, t.info.netId)
    ensures !Held(after, t.info.netId)
  {
    if Held(after, t.info.netId) {
      var l :| Entry(after, l).Some? && Entry(after, l).value.netId == t.info.netId;
      assert SameId(s, t.Link(n), l);
      assert false;
    }
  }

  lemma ChainLeavesNone(w: World, m: World, w': World, n: Name, f: ProxyFilter, targets: seq<Target>, b: seq<Down>)
    requires Unique(m.services) && ProxyOnce(m.services) && Collected(w.services, n, f, targets)
    requires SameProxies(w.services, m.services)
    requires w'.services == RemoveTargets(m.services, n, targets) && Freed(w'.services, n, targets, {}, b)
    ensures NoLeak(m, w', b)
  {
    RemoveTargetsExact(m.services, n, targets) by {
      forall t | t in targets ensures t.client.proxy.Some? && Entry(m.services, t.Link(n)).Some? {
        TargetStillHeld(w, m, n, f, targets, t);
      }
    }
    forall id | Held(m.services, id) && !Held(w'.services, id) ensures Releases(b, id) {
      var l :| Entry(m.services, l).Some? && Entry(m.services, l).value.netId == id;
      LinksOfIn(n, targets, l);
      assert Entry(w'.services, l).None?;
      var t :| t in targets && t.Link(n) == l;
      TargetStillHeld(w, m, n, f, targets, t);
      assert t.info.netId == id && !HasNetId(w'.services, n, id);
    }
  }

  lemma {:induction false} ChainSettles(w: World, n: Name, f: ProxyFilter, targets: seq<Target>)
    returns (sent: seq<Down>, last: seq<Down>)
    requires Walkable(w.services, targets) && Unique(w.services) && ProperlyShared(w.services)
    requires Collected(w.services, n, f, targets)
    ensures Settles(w, TeardownChain(w, n, targets), sent)
    ensures Freed(TeardownChain(w, n, targets).services, n, targets, {}, last) && forall d :: d in last ==> d in sent
    ensures ProxyOnce(w.services) ==> NoLeak(w, TeardownChain(w, n, targets), sent)
  {
    var m, a, b := ChainPhases(w, n, f, targets);
    var w' := TeardownChain(w, n, targets);
    ShrunkKeeps(w.services, m.services);
    forall d | d in b && d.netId != 0 ensures Held(m.services, d.netId) && !Held(w'.services, d.netId) {
      var t :| t in targets && d == DownOf(t.info, t.at);
      TargetStillHeld(w, m, n, f, targets, t);
      UnsharedIsUnheld(m.services, w'.services, n, t);
    }
    assert Settles(m, w', b);
    if ProxyOnce(w.services) {
      ChainLeavesNone(w, m, w', n, f, targets, b);
    }
    SettlesTrans(w, m, w', a, b);
    sent, last := a + b, b;
  }

  function Times(sent: seq<Down>, id: nat): nat {
    if sent == [] then 0 else Times(sent[..|sent| - 1], id) + if sent[|sent| - 1].netId == id then 1 else 0
  }

  lemma {:induction false} TimesAtMostOnce(sent: seq<Down>, id: nat)
    requires forall i, j :: 0 <= i < j < |sent| && sent[i].netId == id ==> sent[j].netId != id
    ensures Times(sent, id) == if Releases(sent, id) then 1 else 0
  {
    if sent != [] {
      var before, last := sent[..|sent| - 1], sent[|sent| - 1];
      TimesAtMostOnce(before, id);
      assert forall d :: d in sent <==> d in before || d == last;
      if last.netId == id {
        assert last in sent;
        assert !Releases(before, id);
      } else if Releases(sent, id) {
        var d :| d in sent && d.netId == id;
        assert d in before;
      }
    }
  }

  /**
   Under any filter, `teardown_chain` takes the network of a matched user down exactly once if no remaining client of
   the service uses it, and not at all otherwise.
   */
  lemma SharedNetworkDownOnce(w: World, n: Name, f: ProxyFilter, targets: seq<Target>, t: Target)
    returns (sent: seq<Down>)
    requires Walkable(w.services, targets) && Unique(w.services) && ProperlyShared(w.services)
    requires Collected(w.services, n, f, targets) && t in targets && t.info.netId != 0
    ensures TeardownChain(w, n, targets).downs == w.downs + sent
    ensures Times(sent, t.info.netId) == if HasNetId(TeardownChain(w, n, targets).services, n, t.info.netId) then 0 else 1
  {
    var last: seq<Down>;
    sent, last := ChainSettles(w, n, f, targets);
    var w', id := TeardownChain(w, n, targets), t.info.netId;
    if HasNetId(w'.services, n, id) {
      assert Held(w'.services, id);
    } else {
      assert Releases(last, id);
    }
    TimesAtMostOnce(sent, id);
  }

  // ----- any sequence of teardowns -----

  lemma OpSettles(w: World, op: Op, w': World) returns (sent: seq<Down>)
    requires Unique(w.services) && ProperlyShared(w.services) && OpRel(w, op, w')
    ensures Settles(w, w', sent)
    ensures ProxyOnce(w.services) ==> NoLeak(w, w', sent)
  {
    match op
    case ChainOp(n, f) =>
      var targets :| Collected(w.services, n, f, targets) && Walkable(w.services, targets)
        && w' == TeardownChain(w, n, targets);
      var last: seq<Down>;
      sent, last := ChainSettles(w, n, f, targets);
    case BackendOp(n, at, through) =>
      var edges :| BackendEdges(w.services, n, at, through, edges) && w' == DecrementEdges(w, edges);
      var ports: seq<nat> :| Enumerates(ports, Triggers(w.services, n).Keys)
        && edges == TriggerEdges(w.services, n, at, through, ports);
      TriggersAreService(w.services, n, at, through, ports);
      sent := DecrementEdgesSettle(w, edges);
  }

  lemma {:induction false} OpsSettle(w: World, ops: seq<Op>, w': World) returns (sent: seq<Down>)
    requires Unique(w.services) && ProperlyShared(w.services) && OpsRel(w, ops, w')
    ensures Settles(w, w', sent)
    ensures ProxyOnce(w.services) ==> NoLeak(w, w', sent)
    decreases |ops|
  {
    if ops == [] {
      sent := [];
      SameIsShrunk(w.services);
      SettlesIdle(w, w.services);
    } else {
      var before, last := ops[..|ops| - 1], ops[|ops| - 1];
      var mid :| OpsRel(w, before, mid) && OpRel(mid, last, w');
      var a := OpsSettle(w, before, mid);
      OpsShape(w, before, mid);
      ShapeFacts(w.services, mid.services);
      ShrunkKeeps(w.services, mid.services);
      var b := OpSettles(mid, last, w');
      SettlesTrans(w, mid, w', a, b);
      sent := a + b;
    }
  }

  // ----- teardowns only ever take away -----

  lemma DecrementShrinks(w: World, n: Name, c: Client)
    requires Unique(w.services)
    ensures Shrunk(w.services, DecrementChain(w, n, c).services) && Unique(DecrementChain(w, n, c).services)
  {
    DecrementSpec(w, n, c);
    DecrementShape(w, n, c);
    ShapeFacts(w.services, DecrementChain(w, n, c).services);
    var r := Holder(w.services, n, c);
    if r.Some? {
      var info := Tab(w.services, n, r.value)[c];
      var v := if info.activeChains <= 1 then None else Some(info.RemoveActiveChain());
      PutEntries(w.services, DecrementChain(w, n, c).services, Link(c, n, r.value), v);
    }
  }

  lemma {:induction false} DecrementEdgesShrink(w: World, edges: seq<(Client, Name)>)
    requires Unique(w.services)
    ensures Shrunk(w.services, DecrementEdges(w, edges).services) && Unique(DecrementEdges(w, edges).services)
    decreases |edges|
  {
    if edges != [] {
      var m := DecrementChain(w, edges[0].1, edges[0].0);
      DecrementShrinks(w, edges[0].1, edges[0].0);
      DecrementEdgesShrink(m, edges[1..]);
      ShrunkTrans(w.services, m.services, DecrementEdges(w, edges).services);
    }
  }

  lemma {:induction false} DepChainsShrink(w: World, n: Name, targets: seq<Target>)
    requires Walkable(w.services, targets) && Unique(w.services)
    ensures var b := TeardownDepChains(w, n, targets).services; Shrunk(w.services, b) && Unique(b)
    decreases |targets|
  {
    if targets != [] {
      var m := TeardownDepChain(w, n, targets[0].at);
      var edges := DepChainEdges(w.services, n, targets[0].at);
      DecrementEdgesShrink(w, edges);
      DecrementEdgesShape(w, edges);
      ShapeKeepsAcyclic(w.services, m.services);
      DepChainsShrink(m, n, targets[1..]);
      ShrunkTrans(w.services, m.services, TeardownDepChains(m, n, targets[1..]).services);
    }
  }

  lemma ChainShrinks(w: World, n: Name, targets: seq<Target>)
    requires Walkable(w.services, targets) && Unique(w.services)
    ensures Shrunk(w.services, TeardownChain(w, n, targets).services)
  {
    var cut := TeardownDepChains(w, n, targets);
    var b := RemoveTargets(cut.services, n, targets);
    DepChainsShrink(w, n, targets);
    RemoveTargetsShrinks(cut.services, n, targets);
    FreeUnsharedTable(cut.(services := b), n, targets, {});
    assert Shrunk(cut.services, b);
    ShrunkTrans(w.services, cut.services, b);
  }

  lemma OpShrinks(w: World, op: Op, w': World)
    requires Unique(w.services) && OpRel(w, op, w')
    ensures Shrunk(w.services, w'.services) && Unique(w'.services)
  {
    OpShape(w, op, w');
    ShapeFacts(w.services, w'.services);
    match op
    case ChainOp(n, f) =>
      var targets :| Collected(w.services, n, f, targets) && Walkable(w.services, targets)
        && w' == TeardownChain(w, n, targets);
      ChainShrinks(w, n, targets);
    case BackendOp(n, at, through) =>
      var edges :| BackendEdges(w.services, n, at, through, edges) && w' == DecrementEdges(w, edges);
      DecrementEdgesShrink(w, edges);
  }

  lemma {:induction false} OpsShrink(w: World, ops: seq<Op>, w': World)
    requires Unique(w.services) && OpsRel(w, ops, w')
    ensures Shrunk(w.services, w'.services) && Unique(w'.services)
    decreases |ops|
  {
    if ops == [] {
      SameIsShrunk(w.services);
    } else {
      var before, last := ops[..|ops| - 1], ops[|ops| - 1];
      var mid :| OpsRel(w, before, mid) && OpRel(mid, last, w');
      OpsShrink(w, before, mid);
      OpShrinks(mid, last, w');
      ShrunkTrans(w.services, mid.services, w'.services);
    }
  }
}
