/** A user that joins the network of another user of the same proxy, for every configuration. */
module Sharing {
  import opened Types
  import opened ServiceTable
  import opened Settlement
  import opened Setup
  import opened Requests

  /** Every old entry is still there, on its network; only its count and its time stamp may differ. */
  ghost predicate Grown(a: Services, b: Services) {
    forall l :: Entry(a, l).Some? ==> Entry(b, l).Some? && OnNetwork(Entry(a, l).value, Entry(b, l).value)
  }

  ghost predicate OnNetwork(a: ClientInfo, b: ClientInfo) {
    b == a.(activeChains := b.activeChains, latest := b.latest)
  }

  /** The same entries on the same networks. */
  ghost predicate SameNets(a: Services, b: Services) {
    SameShape(a, b) && Grown(a, b) && forall l :: Entry(b, l).Some? ==> Entry(a, l).Some?
  }

  lemma SameNetsTrans(a: Services, m: Services, b: Services)
    requires SameNets(a, m) && SameNets(m, b)
    ensures SameNets(a, b)
  {
    ShapeTrans(a, m, b);
  }

  /** Counting more chains moves no entry to another network. */
  lemma {:induction false} AddChainsKeepNets(s: Services, edges: seq<(Client, Name)>, now: nat)
    requires Unique(s) && ServiceEdges(edges)
    ensures SameNets(s, AddChains(s, edges, now)) && SameProxies(s, AddChains(s, edges, now))
    decreases |edges|
  {
    if edges != [] {
      var n, c := edges[0].1, edges[0].0;
      assert edges[0] in edges;
      var m := AddChain(s, n, c, now);
      AddChainKeepsNets(s, n, c, now);
      ShapeFacts(s, m);
      AddChainsKeepNets(m, edges[1..], now);
      SameNetsTrans(s, m, AddChains(s, edges, now));
    }
  }

  lemma AddChainKeepsNets(s: Services, n: Name, c: Client, now: nat)
    requires Unique(s) && c.proxy.None?
    ensures SameNets(s, AddChain(s, n, c, now)) && SameProxies(s, AddChain(s, n, c, now))
  {
    AddChainSpec(s, n, c, now);
    var h := Holder(s, n, c);
    if h.Some? {
      PutEntries(s, AddChain(s, n, c, now), Link(c, n, h.value), Some(Tab(s, n, h.value)[c].AddActiveChain(now)));
    }
  }

  /** The entry of a user on the network of another entry. */
  ghost predicate Shares(info: ClientInfo, shared: ClientInfo) {
    info.netId == shared.netId && info.serverNet == shared.serverNet && info.clientNet == shared.clientNet
    && info.activeChains == 1
  }

  lemma JoinedSpec(s: Services, l: Link, c: Client, proxy: Ip, now: nat) returns (info: ClientInfo)
    requires Unique(s) && Entry(s, l).Some? && Holder(s, l.server, c).None?
    ensures Shares(info, Entry(s, l).value) && info.clientIp == proxy && info.docker == None && info.latest == now
    ensures Put(s, Joined(s, l, c, proxy, now), Link(c, l.server, l.at), Some(info))
  {
    var shared := Entry(s, l).value;
    var new0 := ClientInfo(proxy, shared.clientNet, shared.serverNet, shared.netId, 0, now, None);
    var m := AddClientToReplica(s, l.server, l.at, c, new0);
    var p := Link(c, l.server, l.at);
    EntryNeedsRep(s, l);
    AddClientSpec(s, l.server, l.at, c, new0);
    ShapeFacts(s, m);
    PutEntries(s, m, p, Some(new0));
    HolderIsNew(s, m, p);
    AddChainSpec(m, l.server, c, now);
    info := new0.AddActiveChain(now);
    PutTwice(s, m, Joined(s, l, c, proxy, now), p, new0, info);
  }

  lemma HolderIsNew(s: Services, m: Services, p: Link)
    requires Unique(s) && Unique(m) && Holder(s, p.server, p.client).None? && Entry(m, p).Some?
    requires forall x :: x != p ==> Entry(m, x) == Entry(s, x)
    ensures Holder(m, p.server, p.client) == Some(p.at)
  {
    HolderSpec(s, p.server, p.client);
    HolderSpec(m, p.server, p.client);
    forall r ensures p.client in Tab(m, p.server, r) ==> r == p.at {
      var x := Link(p.client, p.server, r);
      assert x != p ==> Entry(m, x) == Entry(s, x);
    }
    assert p.client in Tab(m, p.server, p.at);
  }

  lemma JoinOnce(s: Services, p: Link, s1: Services)
    requires Unique(s) && ProxyOnce(s) && Holder(s, p.server, p.client).None?
    requires forall x :: x != p ==> Entry(s1, x) == Entry(s, x)
    ensures ProxyOnce(s1)
  {
    HolderSpec(s, p.server, p.client);
    forall n, d: Client, r, q | d.proxy.Some? && d in Tab(s1, n, r) && d in Tab(s1, n, q) ensures r == q {
      assert Entry(s1, Link(d, n, r)).Some? && Entry(s1, Link(d, n, q)).Some?;
      assert Link(d, n, r) != p ==> Entry(s, Link(d, n, r)).Some?;
      assert Link(d, n, q) != p ==> Entry(s, Link(d, n, q)).Some?;
    }
  }

  /** Same IDs everywhere as before, except for the entry that joined a network. */
  lemma JoinShares(s: Services, l: Link, p: Link, b: Services)
    requires Entry(s, l).Some? && l.client.proxy.Some? && p.server == l.server && p.at == l.at
    requires p.client.proxy == l.client.proxy && p != l && ProperlyShared(s)
    requires Entry(b, p).Some? && Entry(b, p).value.netId == Entry(s, l).value.netId
    requires forall x :: x != p ==> Entry(b, x).Some? == Entry(s, x).Some?
    requires forall x :: x != p && Entry(s, x).Some? ==> Entry(b, x).value.netId == Entry(s, x).value.netId
    requires Entry(s, p).None?
    ensures ProperlyShared(b) && forall id :: Held(b, id) <==> Held(s, id)
  {
    forall x, y | SameId(b, x, y) ensures x == y || SharedByProxy(x, y) {
      var x', y' := if x == p then l else x, if y == p then l else y;
      assert SameId(s, x', y');
    }
    forall id ensures Held(b, id) <==> Held(s, id) {
      if Held(b, id) {
        var x :| Entry(b, x).Some? && Entry(b, x).value.netId == id;
        assert Entry(s, if x == p then l else x).Some?;
      }
      if Held(s, id) {
        var x :| Entry(s, x).Some? && Entry(s, x).value.netId == id;
        assert x != p;
        assert Entry(b, x).Some?;
      }
    }
  }

  lemma SharedIsNotTheUser(s: Services, n: Name, proxy: Ip, l: Link, c: Client)
    requires Unique(s) && Reusable(s, n, proxy, l) && Holder(s, n, c).None?
    ensures forall r :: Entry(s, Link(c, n, r)).None?
    ensures l != Link(c, n, l.at)
  {
    HolderSpec(s, n, c);
  }
}
