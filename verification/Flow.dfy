/**
 Conservation of chains: what the table looks like when requests and triggers run one at a time, every dependency has
 at most one replica, the dependency lists agree on their tails, and trigger chains start apart from them.
 */
module Flow {
  import opened Types
  import opened ServiceTable
  import opened Chains
  import opened Settlement

  // ----- the regime -----

  /** If `n` lists d1..dk then each listed service that is configured lists exactly what follows it. */
  ghost predicate Coherent(s: Services) {
    forall n, i :: n in s && 0 <= i < |Deps(s, n)| && Deps(s, n)[i] in s ==>
      Deps(s, Deps(s, n)[i]) == Deps(s, n)[i + 1..]
  }

  /** A service that others depend on has at most one replica. */
  ghost predicate Sticky(s: Services) {
    forall n, d :: d in Deps(s, n) ==> |Reps(s, d)| <= 1
  }

  /** The chain that a trigger of `n` at `p` sets up; empty if there is none. */
  function TriggerAt(s: Services, n: Name, p: nat): seq<Name> {
    if p in Triggers(s, n) then Triggers(s, n)[p] else []
  }

  /** The first service of the chain is no proxy dependency of `n` and starts no other of its chains; the list agrees. */
  ghost predicate ChainApart(s: Services, n: Name, p: nat)
    requires TriggerAt(s, n, p) != []
  {
    var chain := TriggerAt(s, n, p);
    && chain[0] !in Deps(s, n) && |Reps(s, chain[0])| <= 1
    && (chain[0] in s ==> Deps(s, chain[0]) == chain[1..])
    && forall q :: q != p && TriggerAt(s, n, q) != [] ==> TriggerAt(s, n, q)[0] != chain[0]
  }

  ghost predicate TriggersApart(s: Services) {
    forall n, p :: TriggerAt(s, n, p) != [] ==> ChainApart(s, n, p)
  }

  ghost predicate Regime(s: Services) {
    Unique(s) && Coherent(s) && Sticky(s) && TriggersApart(s)
  }

  // ----- entries -----

  /** The edge leads to the first service that its source depends on. */
  predicate IsOut(s: Services, l: Link) {
    l.client.proxy.None? && Deps(s, l.client.name) != [] && Deps(s, l.client.name)[0] == l.server
  }

  /** A trigger of `n` starts at `d`. */
  ghost predicate TriggersTo(s: Services, n: Name, d: Name) {
    exists p :: TriggerAt(s, n, p) != [] && TriggerAt(s, n, p)[0] == d
  }

  ghost predicate LinkOk(s: Services, l: Link, info: ClientInfo) {
    var c := l.client;
    if c.proxy.Some? then c.replica.None? && info.activeChains == 1 && info.serverNet != UNSPECIFIED
    else
      && c.replica.Some? && HasRep(s, c.name, c.replica.value)
      && if IsOut(s, l) then info.activeChains >= 1 else TriggersTo(s, c.name, l.server) && info.activeChains == 1
  }

  /**
   Every entry is a user with its one chain, the first edge of a trigger chain with its one chain, or an existing
   replica's edge to the first service that it depends on.
   */
  ghost predicate Linked(s: Services) {
    forall l :: Entry(s, l).Some? ==> LinkOk(s, l, Entry(s, l).value)
  }

  // ----- counting chains -----

  ghost function Total(m: map<Client, ClientInfo>): nat {
    if m == map[] then 0
    else
      var c :| c in m;
      m[c].activeChains + Total(m - {c})
  }

  function Amount(m: map<Client, ClientInfo>, c: Client): nat {
    if c in m then m[c].activeChains else 0
  }

  lemma {:induction false} TotalWithout(m: map<Client, ClientInfo>, c: Client)
    ensures Total(m) == Amount(m, c) + Total(m - {c})
    decreases |m|
  {
    if c !in m {
      assert m - {c} == m;
    } else {
      var d :| d in m && Total(m) == m[d].activeChains + Total(m - {d});
      if d != c {
        TotalWithout(m - {d}, c);
        TotalWithout(m - {c}, d);
        assert m - {d} - {c} == m - {c} - {d};
      }
    }
  }

  /** Chains through the clients of one replica, leaving out those in `gone`. */
  ghost function Inflow(s: Services, n: Name, r: ReplicaId, gone: set<Link>): nat {
    Total(Tab(s, n, r) - (set c | c in Tab(s, n, r) && Link(c, n, r) in gone))
  }

  /** The edge from a replica to the first service it depends on. */
  function OutLink(s: Services, n: Name, r: ReplicaId): Link
    requires Deps(s, n) != []
  {
    Link(ServiceClient(n, r), Deps(s, n)[0], Sole(s, Deps(s, n)[0]))
  }

  /** Number of chains through one entry. */
  function Load(s: Services, l: Link): nat {
    Amount(Tab(s, l.server, l.at), l.client)
  }

  /** What flows into a replica flows out of it. */
  ghost predicate Balanced(s: Services, gone: set<Link>) {
    forall n, r :: HasRep(s, n, r) && Deps(s, n) != [] ==> Load(s, OutLink(s, n, r)) == Inflow(s, n, r, gone)
  }

  ghost predicate FlowWithout(s: Services, gone: set<Link>) {
    Regime(s) && Linked(s) && ProxyOnce(s) && Balanced(s, gone)
  }

  ghost predicate FlowInvariant(s: Services) {
    FlowWithout(s, {})
  }

  // ----- consequences of coherence -----

  lemma NotOwnDep(s: Services, n: Name)
    requires Coherent(s)
    ensures n !in Deps(s, n)
  {
    var deps := Deps(s, n);
    forall i | 0 <= i < |deps| ensures deps[i] != n {
      assert |deps[i + 1..]| < |deps|;
    }
  }

  /** The first dependency, once configured, does not appear again. */
  lemma HeadOnce(s: Services, n: Name, i: nat)
    requires Coherent(s) && 0 < i < |Deps(s, n)| && Deps(s, n)[0] in s
    ensures Deps(s, n)[i] != Deps(s, n)[0]
  {
    var d := Deps(s, n)[0];
    NotOwnDep(s, d);
    assert Deps(s, d) == Deps(s, n)[1..];
    assert Deps(s, d)[i - 1] == Deps(s, n)[i];
  }

  lemma CoherentIsAcyclic(s: Services)
    requires Coherent(s)
    ensures Acyclic(s)
  {
    var rank := n => |Deps(s, n)|;
    forall n, d | n in s && d in Deps(s, n) ensures rank(d) < rank(n) {
      var i :| 0 <= i < |Deps(s, n)| && Deps(s, n)[i] == d;
      assert d in s ==> Deps(s, d) == Deps(s, n)[i + 1..];
    }
    assert IsRanking(s, rank);
  }

  lemma SoleOf(s: Services, n: Name, r: ReplicaId)
    requires |Reps(s, n)| <= 1 && HasRep(s, n, r)
    ensures r == Sole(s, n)
  {
  }

  /** What edges there may be depends on configurations and replicas only. */
  lemma SameEdgeKinds(a: Services, b: Services)
    requires SameShape(a, b)
    ensures forall n, p :: TriggerAt(b, n, p) == TriggerAt(a, n, p)
    ensures forall n, d :: TriggersTo(b, n, d) <==> TriggersTo(a, n, d)
    ensures forall l :: IsOut(b, l) == IsOut(a, l)
    ensures forall l, info :: LinkOk(b, l, info) <==> LinkOk(a, l, info)
  {
    ShapeFacts(a, b);
    forall n, p ensures TriggerAt(b, n, p) == TriggerAt(a, n, p) {}
    forall n, d ensures TriggersTo(b, n, d) <==> TriggersTo(a, n, d) {
      if TriggersTo(a, n, d) {
        var p :| TriggerAt(a, n, p) != [] && TriggerAt(a, n, p)[0] == d;
        assert TriggerAt(b, n, p) != [];
      }
      if TriggersTo(b, n, d) {
        var p :| TriggerAt(b, n, p) != [] && TriggerAt(b, n, p)[0] == d;
        assert TriggerAt(a, n, p) != [];
      }
    }
  }

  /** A trigger of `n` never starts at one of its dependencies. */
  lemma TriggeredIsNoDep(s: Services, n: Name, d: Name)
    requires TriggersApart(s) && TriggersTo(s, n, d)
    ensures d !in Deps(s, n) && |Reps(s, d)| <= 1
  {
    var p :| TriggerAt(s, n, p) != [] && TriggerAt(s, n, p)[0] == d;
    assert ChainApart(s, n, p);
  }

  // ----- the chain of a replica -----

  /** Edge number `j` of the chain that starts at client `c` and goes through `deps`. */
  function LinkAt(s: Services, c: Client, deps: seq<Name>, j: nat): Link
    requires j < |deps|
  {
    Link(if j == 0 then c else ServiceClient(deps[j - 1], Sole(s, deps[j - 1])), deps[j], Sole(s, deps[j]))
  }

  function ChainLinks(s: Services, c: Client, deps: seq<Name>): seq<Link> {
    seq(|deps|, j requires 0 <= j < |deps| => LinkAt(s, c, deps, j))
  }

  ghost predicate Alive(s: Services, c: Client, deps: seq<Name>) {
    forall j :: 0 <= j < |deps| ==> Entry(s, LinkAt(s, c, deps, j)).Some?
  }

  /** The tail of a chain is the chain of its second replica. */
  lemma ChainTail(s: Services, c: Client, deps: seq<Name>, j: nat)
    requires j + 1 < |deps|
    ensures LinkAt(s, c, deps, j + 1) == LinkAt(s, ServiceClient(deps[0], Sole(s, deps[0])), deps[1..], j)
  {
  }

  lemma InflowCounts(s: Services, l: Link, gone: set<Link>)
    requires l !in gone
    ensures Inflow(s, l.server, l.at, gone) >= Load(s, l)
  {
    var m := Tab(s, l.server, l.at);
    TotalWithout(m - (set c | c in m && Link(c, l.server, l.at) in gone), l.client);
  }

  /** What comes in at an edge's replica goes out again, through the next edge. */
  lemma NextAlive(s: Services, gone: set<Link>, l: Link)
    requires FlowWithout(s, gone) && l !in gone && Entry(s, l).Some? && Load(s, l) >= 1 && Deps(s, l.server) != []
    ensures Entry(s, OutLink(s, l.server, l.at)).Some?
  {
    EntryNeedsRep(s, l);
    InflowCounts(s, l, gone);
    assert Load(s, OutLink(s, l.server, l.at)) >= 1;
  }

  lemma NextOnChain(s: Services, n: Name, r: ReplicaId, j: nat)
    requires Regime(s) && Linked(s) && 0 < j < |Deps(s, n)|
    requires Entry(s, LinkAt(s, ServiceClient(n, r), Deps(s, n), j - 1)).Some?
    ensures var before := LinkAt(s, ServiceClient(n, r), Deps(s, n), j - 1);
      && before.server != n && Load(s, before) >= 1 && Deps(s, before.server) != []
      && OutLink(s, before.server, before.at) == LinkAt(s, ServiceClient(n, r), Deps(s, n), j)
  {
    var before := LinkAt(s, ServiceClient(n, r), Deps(s, n), j - 1);
    EntryNeedsRep(s, before);
    NotOwnDep(s, n);
    assert Deps(s, before.server) == Deps(s, n)[j..];
    assert LinkOk(s, before, Entry(s, before).value);
  }

  lemma FirstAlive(s: Services, gone: set<Link>, n: Name, r: ReplicaId)
    requires Balanced(s, gone) && HasRep(s, n, r) && Deps(s, n) != [] && Inflow(s, n, r, gone) >= 1
    ensures Entry(s, OutLink(s, n, r)).Some?
  {
    assert Load(s, OutLink(s, n, r)) >= 1;
  }

  lemma StepAlive(s: Services, gone: set<Link>, n: Name, r: ReplicaId, j: nat)
    requires FlowWithout(s, gone) && forall l :: l in gone ==> l.server == n
    requires 0 < j < |Deps(s, n)| && Entry(s, LinkAt(s, ServiceClient(n, r), Deps(s, n), j - 1)).Some?
    ensures Entry(s, LinkAt(s, ServiceClient(n, r), Deps(s, n), j)).Some?
  {
    NextOnChain(s, n, r, j);
    NextAlive(s, gone, LinkAt(s, ServiceClient(n, r), Deps(s, n), j - 1));
  }

  /** A replica with something flowing into it has the whole chain behind it. */
  lemma {:induction false} ChainAlive(s: Services, gone: set<Link>, n: Name, r: ReplicaId, j: nat)
    requires FlowWithout(s, gone) && forall l :: l in gone ==> l.server == n
    requires HasRep(s, n, r) && j < |Deps(s, n)| && Inflow(s, n, r, gone) >= 1
    ensures Entry(s, LinkAt(s, ServiceClient(n, r), Deps(s, n), j)).Some?
  {
    if j == 0 {
      FirstAlive(s, gone, n, r);
    } else {
      ChainAlive(s, gone, n, r, j - 1);
      StepAlive(s, gone, n, r, j);
    }
  }
}
