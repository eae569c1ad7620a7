/** Adding one chain to, or taking one chain from, every edge of a chain keeps the flow balanced. */
module Conservation {
  import opened Types
  import opened ServiceTable
  import opened Flow
  import opened FlowTeardown

  // ----- totals -----

  lemma {:induction false} TotalAgree(x: map<Client, ClientInfo>, y: map<Client, ClientInfo>)
    requires forall c :: Amount(x, c) == Amount(y, c)
    ensures Total(x) == Total(y)
    decreases x.Keys + y.Keys
  {
    if x == map[] && y == map[] {
    } else {
      var c :| c in x || c in y;
      TotalWithout(x, c);
      TotalWithout(y, c);
      forall d ensures Amount(x - {c}, d) == Amount(y - {c}, d) {
        assert Amount(x, d) == Amount(y, d);
      }
      assert (x - {c}).Keys + (y - {c}).Keys == x.Keys + y.Keys - {c};
      TotalAgree(x - {c}, y - {c});
    }
  }

  lemma TotalShift(x: map<Client, ClientInfo>, y: map<Client, ClientInfo>, c: Client, k: int)
    requires forall d :: d != c ==> Amount(x, d) == Amount(y, d)
    requires Amount(y, c) == Amount(x, c) + k
    ensures Total(y) == Total(x) + k
  {
    TotalWithout(x, c);
    TotalWithout(y, c);
    forall d ensures Amount(x - {c}, d) == Amount(y - {c}, d) {
      assert d != c ==> Amount(x, d) == Amount(y, d);
    }
    TotalAgree(x - {c}, y - {c});
  }

  /** The chains through an entry, none if the entry is left out. */
  function LoadWithout(s: Services, gone: set<Link>, l: Link): nat {
    if l in gone then 0 else Load(s, l)
  }

  ghost function Visible(s: Services, n: Name, r: ReplicaId, gone: set<Link>): map<Client, ClientInfo> {
    Tab(s, n, r) - (set c | c in Tab(s, n, r) && Link(c, n, r) in gone)
  }

  lemma VisibleAmount(s: Services, n: Name, r: ReplicaId, gone: set<Link>, c: Client)
    ensures Amount(Visible(s, n, r, gone), c) == LoadWithout(s, gone, Link(c, n, r))
    ensures Inflow(s, n, r, gone) == Total(Visible(s, n, r, gone))
  {
  }

  lemma InflowShift(a: Services, x: set<Link>, b: Services, y: set<Link>, l: Link, k: int)
    requires forall d :: d != l.client ==>
      LoadWithout(b, y, Link(d, l.server, l.at)) == LoadWithout(a, x, Link(d, l.server, l.at))
    requires LoadWithout(b, y, l) == LoadWithout(a, x, l) + k
    ensures Inflow(b, l.server, l.at, y) == Inflow(a, l.server, l.at, x) + k
  {
    forall d ensures Amount(Visible(b, l.server, l.at, y), d) ==
      Amount(Visible(a, l.server, l.at, x), d) + if d == l.client then k else 0
    {
      VisibleAmount(a, l.server, l.at, x, d);
      VisibleAmount(b, l.server, l.at, y, d);
    }
    TotalShift(Visible(a, l.server, l.at, x), Visible(b, l.server, l.at, y), l.client, k);
  }

  // ----- where the links of a chain start and end -----

  lemma NamedOnce(s: Services, n: Name, r: ReplicaId, i: nat, j: nat)
    requires Coherent(s) && i < |Deps(s, n)| && j < |Deps(s, n)| && i != j
    requires Deps(s, n)[i] in s && Deps(s, n)[j] in s
    ensures Deps(s, n)[i] != Deps(s, n)[j]
  {
    if i < j {
      LinksDistinct(s, n, r, i, j);
    } else {
      LinksDistinct(s, n, r, j, i);
    }
  }

  lemma LandsOnce(s: Services, n: Name, r: ReplicaId, l: Link, j: nat)
    requires Coherent(s) && j < |Deps(s, n)| && forall i :: 0 <= i < |Deps(s, n)| ==> Deps(s, n)[i] in s
    requires l in ChainLinks(s, ServiceClient(n, r), Deps(s, n)) && l.server == Deps(s, n)[j]
    ensures l == LinkAt(s, ServiceClient(n, r), Deps(s, n), j)
  {
    var deps, links := Deps(s, n), ChainLinks(s, ServiceClient(n, r), Deps(s, n));
    var i :| 0 <= i < |links| && links[i] == l;
    forall k: nat | k < |deps| && k != j ensures deps[k] != deps[j] {
      NamedOnce(s, n, r, k, j);
    }
    assert l.server == deps[i];
  }

  lemma LinksLieOnChain(s: Services, n: Name, r: ReplicaId, l: Link)
    requires l in ChainLinks(s, ServiceClient(n, r), Deps(s, n))
    ensures l.server in Deps(s, n) && l.client.proxy.None?
    ensures l.client == ServiceClient(n, r) || l.client.name in Deps(s, n)
  {
  }

  /** One chain more (`k == 1`) or less (`k == -1`) for the edge `p` that it starts with and for every edge behind. */
  ghost predicate OneChain(a: Services, x: set<Link>, b: Services, y: set<Link>, n: Name, r: ReplicaId, p: Link,
                           k: int) {
    var links := ChainLinks(a, ServiceClient(n, r), Deps(a, n));
    forall l :: LoadWithout(b, y, l) == LoadWithout(a, x, l) + if l == p || l in links then k else 0
  }

  /** Only edges at which chains start are left out. */
  ghost predicate OnlyRoots(s: Services, gone: set<Link>) {
    forall l: Link :: l in gone ==> !IsOut(s, l)
  }

  ghost predicate Configured(s: Services, n: Name) {
    forall i :: 0 <= i < |Deps(s, n)| ==> Deps(s, n)[i] in s
  }

  lemma BalancedAtStart(a: Services, x: set<Link>, b: Services, y: set<Link>, n: Name, r: ReplicaId, q: ReplicaId,
                        p: Link, k: int)
    requires Coherent(a) && SameShape(a, b) && OnlyRoots(a, x) && OnlyRoots(a, y)
    requires OneChain(a, x, b, y, n, r, p, k) && p.server == n && p.at == r && !IsOut(a, p)
    requires Deps(a, n) != []
    requires Load(a, OutLink(a, n, q)) == Inflow(a, n, q, x)
    ensures Load(b, OutLink(a, n, q)) == Inflow(b, n, q, y)
  {
    var out, links := OutLink(a, n, q), ChainLinks(a, ServiceClient(n, r), Deps(a, n));
    NotOwnDep(a, n);
    forall d ensures Link(d, n, q) !in links {
      if Link(d, n, q) in links {
        LinksLieOnChain(a, n, r, Link(d, n, q));
      }
    }
    if q == r {
      assert links[0] == out;
      InflowShift(a, x, b, y, p, k);
    } else {
      if out in links {
        LinksLieOnChain(a, n, r, out);
      }
      InflowShift(a, x, b, y, Link(p.client, n, q), 0);
    }
    assert LoadWithout(b, y, out) == Load(b, out) && LoadWithout(a, x, out) == Load(a, out);
  }

  lemma OnlyOneLands(s: Services, n: Name, r: ReplicaId, j: nat, l: Link)
    requires Coherent(s) && Configured(s, n) && j < |Deps(s, n)| && l.server == Deps(s, n)[j]
    requires l.client != LinkAt(s, ServiceClient(n, r), Deps(s, n), j).client
    ensures l !in ChainLinks(s, ServiceClient(n, r), Deps(s, n)) && l.server != n
  {
    NotOwnDep(s, n);
    if l in ChainLinks(s, ServiceClient(n, r), Deps(s, n)) {
      LandsOnce(s, n, r, l, j);
    }
  }

  /** One chain more, or less, flows into a service on the chain. */
  lemma InflowOnChain(a: Services, x: set<Link>, b: Services, y: set<Link>, n: Name, r: ReplicaId, j: nat, p: Link,
                      k: int)
    requires Coherent(a) && Configured(a, n) && j < |Deps(a, n)|
    requires OneChain(a, x, b, y, n, r, p, k) && p.server == n
    ensures var m := Deps(a, n)[j]; Inflow(b, m, Sole(a, m), y) == Inflow(a, m, Sole(a, m), x) + k
  {
    var c, deps := ServiceClient(n, r), Deps(a, n);
    var links, into := ChainLinks(a, c, deps), LinkAt(a, c, deps, j);
    assert into == links[j];
    forall d | d != into.client
      ensures LoadWithout(b, y, Link(d, into.server, into.at)) == LoadWithout(a, x, Link(d, into.server, into.at))
    {
      OnlyOneLands(a, n, r, j, Link(d, into.server, into.at));
    }
    InflowShift(a, x, b, y, into, k);
  }

  lemma BalancedOnChain(a: Services, x: set<Link>, b: Services, y: set<Link>, n: Name, r: ReplicaId, j: nat, p: Link,
                        k: int)
    requires Coherent(a) && SameShape(a, b) && OnlyRoots(a, x) && OnlyRoots(a, y) && Configured(a, n)
    requires OneChain(a, x, b, y, n, r, p, k) && p.server == n && !IsOut(a, p)
    requires j < |Deps(a, n)| && Deps(a, Deps(a, n)[j]) != []
    requires var m := Deps(a, n)[j]; Load(a, OutLink(a, m, Sole(a, m))) == Inflow(a, m, Sole(a, m), x)
    ensures var m := Deps(a, n)[j]; Load(b, OutLink(a, m, Sole(a, m))) == Inflow(b, m, Sole(a, m), y)
  {
    var c, deps := ServiceClient(n, r), Deps(a, n);
    var m := deps[j];
    assert Deps(a, m) == deps[j + 1..];
    var out := OutLink(a, m, Sole(a, m));
    assert out == ChainLinks(a, c, deps)[j + 1];
    InflowOnChain(a, x, b, y, n, r, j, p, k);
    assert LoadWithout(b, y, out) == Load(b, out) && LoadWithout(a, x, out) == Load(a, out);
  }

  lemma BalancedElsewhere(a: Services, x: set<Link>, b: Services, y: set<Link>, n: Name, r: ReplicaId, m: Name,
                          q: ReplicaId, p: Link, k: int)
    requires SameShape(a, b) && OnlyRoots(a, x) && OnlyRoots(a, y)
    requires OneChain(a, x, b, y, n, r, p, k) && p.server == n && !IsOut(a, p)
    requires m != n && m !in Deps(a, n) && Deps(a, m) != []
    requires Load(a, OutLink(a, m, q)) == Inflow(a, m, q, x)
    ensures Load(b, OutLink(a, m, q)) == Inflow(b, m, q, y)
  {
    var out, links := OutLink(a, m, q), ChainLinks(a, ServiceClient(n, r), Deps(a, n));
    forall l | l in links ensures l.server != m && l.client.name != m {
      LinksLieOnChain(a, n, r, l);
    }
    InflowShift(a, x, b, y, Link(p.client, m, q), 0);
    assert LoadWithout(b, y, out) == Load(b, out) && LoadWithout(a, x, out) == Load(a, out);
  }

  lemma Rebalance(a: Services, x: set<Link>, b: Services, y: set<Link>, n: Name, r: ReplicaId, p: Link, k: int)
    requires Regime(a) && SameShape(a, b) && Balanced(a, x) && OnlyRoots(a, x) && OnlyRoots(a, y) && Configured(a, n)
    requires OneChain(a, x, b, y, n, r, p, k) && p.server == n && p.at == r && !IsOut(a, p)
    ensures Balanced(b, y)
  {
    ShapeFacts(a, b);
    forall m, q | HasRep(b, m, q) && Deps(b, m) != [] ensures Load(b, OutLink(b, m, q)) == Inflow(b, m, q, y) {
      SameSole(a, b, Deps(b, m)[0]);
      assert OutLink(b, m, q) == OutLink(a, m, q);
      assert HasRep(a, m, q);
      if m == n {
        BalancedAtStart(a, x, b, y, n, r, q, p, k);
      } else if m in Deps(a, n) {
        var j :| 0 <= j < |Deps(a, n)| && Deps(a, n)[j] == m;
        SoleOf(a, m, q);
        BalancedOnChain(a, x, b, y, n, r, j, p, k);
      } else {
        BalancedElsewhere(a, x, b, y, n, r, m, q, p, k);
      }
    }
  }
}
