/** When the walk of `collect_dep_chain_edges` ends (src/services/changes.rs:320-352). */
module Cycles {
  import opened Types
  import opened ServiceTable
  import opened Chains
  import opened Reconcile

  /** Where the walk goes from replica `at` of service `n`; nowhere if no dependency has an entry for it. */
  function Hop(s: Services, n: Name, at: ReplicaId): Option<(Name, ReplicaId)> {
    LastHop(s, ServiceClient(n, at), Deps(s, n))
  }

  predicate EndsWithin(s: Services, n: Name, at: ReplicaId, hops: nat)
    decreases hops
  {
    var hop := Hop(s, n, at);
    hop.None? || (hops > 0 && EndsWithin(s, hop.value.0, hop.value.1, hops - 1))
  }

  ghost predicate WalkEnds(s: Services, n: Name, at: ReplicaId) {
    exists hops: nat :: EndsWithin(s, n, at, hops)
  }

  lemma {:induction false} AcyclicWalkEnds(s: Services, n: Name, at: ReplicaId)
    requires Acyclic(s)
    ensures EndsWithin(s, n, at, Rank(s, n))
    decreases Rank(s, n)
  {
    var hop := Hop(s, n, at);
    if hop.Some? {
      RankDecreases(s, n, hop.value.0);
      AcyclicWalkEnds(s, hop.value.0, hop.value.1);
      MoreHops(s, hop.value.0, hop.value.1, Rank(s, hop.value.0), Rank(s, n) - 1);
    }
  }

  lemma {:induction false} MoreHops(s: Services, n: Name, at: ReplicaId, few: nat, many: nat)
    requires EndsWithin(s, n, at, few) && few <= many
    ensures EndsWithin(s, n, at, many)
    decreases many
  {
    var hop := Hop(s, n, at);
    if hop.Some? && few > 0 {
      MoreHops(s, hop.value.0, hop.value.1, few - 1, many - 1);
    }
  }

  // ----- services that depend on each other in a circle -----

  /** From every service of the map one goes on, to one that it depends on. */
  ghost predicate Round(s: Services, next: map<Name, Name>) {
    forall n {:trigger GoesOn(s, next, n)} :: n in next ==> GoesOn(s, next, n)
  }

  predicate GoesOn(s: Services, next: map<Name, Name>, n: Name)
    requires n in next
  {
    n in s && next[n] in Deps(s, n) && next[n] in next
  }

  lemma {:induction false} Highest(deps: seq<Name>, rank: Name -> nat) returns (top: nat)
    ensures forall d :: d in deps ==> rank(d) < top
  {
    if deps == [] {
      top := 0;
    } else {
      top := Highest(deps[1..], rank);
      top := if rank(deps[0]) < top then top else rank(deps[0]) + 1;
    }
  }

  predicate Leaves(s: Services, left: set<Name>, n: Name) {
    n in left && forall d :: d in Deps(s, n) ==> d !in left
  }

  function NextIn(s: Services, left: set<Name>, n: Name): (d: Name)
    requires n in left && !Leaves(s, left, n)
    ensures d in Deps(s, n) && d in left
  {
    var i := FirstIn(Deps(s, n), left);
    assert i < |Deps(s, n)|;
    Deps(s, n)[i]
  }

  function FirstIn(deps: seq<Name>, left: set<Name>): (i: nat)
    ensures i <= |deps| && (i < |deps| ==> deps[i] in left)
    ensures i == |deps| ==> forall d :: d in deps ==> d !in left
  {
    if deps == [] then 0 else if deps[0] in left then 0 else 1 + FirstIn(deps[1..], left)
  }

  /** Services whose dependencies all lie outside `left` leave it one after the other; those that cannot go round. */
  lemma {:induction false} RankedOrRound(s: Services, left: set<Name>, rank: Name -> nat) returns (next: map<Name, Name>)
    requires left <= s.Keys
    requires forall n, d :: n in s && n !in left && d in Deps(s, n) ==> d !in left && rank(d) < rank(n)
    ensures Round(s, next) && (next == map[] ==> Acyclic(s))
    decreases |left|
  {
    if left == {} {
      next := map[];
      assert IsRanking(s, rank);
    } else if n :| Leaves(s, left, n) {
      var top := Highest(Deps(s, n), rank);
      next := RankedOrRound(s, left - {n}, x => if x == n then top else rank(x));
    } else {
      next := map n | n in left :: NextIn(s, left, n);
      var n :| n in left;
      assert n in next;
    }
  }

  // ----- a table on which the walk goes round -----

  const HOME: ReplicaId := ReplicaId(0, None)

  /** The clients of `n`: the services that go on to it. */
  function Comers(next: map<Name, Name>, n: Name): map<Client, ClientInfo> {
    map m | m in next && next[m] == n :: ServiceClient(m, HOME) := Placeholder(0, 0).AddActiveChain(0)
  }

  /** One replica for every service that goes round; it has one entry, on the service it goes on to. */
  function RoundTable(s: Services, next: map<Name, Name>): Services {
    map n | n in s ::
      if n in next then Registered(s[n].config, [Replica(HOME.ip, 0, HOME.docker, Comers(next, n))])
      else Unregistered(s[n].config)
  }

  /** Replicas have identities, and every entry is an edge from an existing replica to a service that it depends on. */
  ghost predicate Plausible(s: Services) {
    && Unique(s)
    && forall l :: Entry(s, l).Some? ==>
         && l.client.proxy.None? && l.client.replica.Some?
         && HasRep(s, l.client.name, l.client.replica.value) && l.server in Deps(s, l.client.name)
         && Entry(s, l).value.activeChains >= 1
  }

  lemma RoundTab(s: Services, next: map<Name, Name>, n: Name, r: ReplicaId)
    requires Round(s, next)
    ensures var t := RoundTable(s, next);
      && Tab(t, n, r) == (if n in next && r == HOME then Comers(next, n) else map[])
      && (n in next ==> HasRep(t, n, HOME))
  {
    var t := RoundTable(s, next);
    if n in next {
      assert GoesOn(s, next, n);
      assert Reps(t, n) == [Replica(HOME.ip, 0, HOME.docker, Comers(next, n))];
      assert Reps(t, n)[0].Id() == HOME;
      if r != HOME {
        TabAbsent(Reps(t, n), r);
      }
    }
  }

  lemma RoundIsPlausible(s: Services, next: map<Name, Name>)
    requires Round(s, next)
    ensures Plausible(RoundTable(s, next)) && SameConfig(s, RoundTable(s, next))
  {
    var t := RoundTable(s, next);
    forall l | Entry(t, l).Some?
      ensures l.client.proxy.None? && l.client.replica.Some?
      ensures HasRep(t, l.client.name, l.client.replica.value) && l.server in Deps(t, l.client.name)
      ensures Entry(t, l).value.activeChains >= 1
    {
      RoundTab(s, next, l.server, l.at);
      var m := l.client.name;
      assert m in next && next[m] == l.server && l.client == ServiceClient(m, HOME);
      assert GoesOn(s, next, m);
      RoundTab(s, next, m, HOME);
    }
  }

  lemma {:induction false} LastHopIsSole(s: Services, c: Client, deps: seq<Name>, d: Name)
    requires d in deps && forall x :: x in deps ==> (Holder(s, x, c).Some? <==> x == d)
    ensures LastHop(s, c, deps) == Some((d, Holder(s, d, c).value))
  {
    var before := deps[..|deps| - 1];
    if deps[|deps| - 1] != d {
      assert forall x :: x in deps <==> x in before || x == deps[|deps| - 1];
      LastHopIsSole(s, c, before, d);
    }
  }

  lemma RoundHop(s: Services, next: map<Name, Name>, n: Name)
    requires Round(s, next) && n in next
    ensures Hop(RoundTable(s, next), n, HOME) == Some((next[n], HOME)) && next[n] in next
  {
    var t, c := RoundTable(s, next), ServiceClient(n, HOME);
    assert GoesOn(s, next, n);
    RoundIsPlausible(s, next);
    forall d ensures Holder(t, d, c) == if d == next[n] then Some(HOME) else None {
      HolderSpec(t, d, c);
      forall r ensures c in Tab(t, d, r) <==> d == next[n] && r == HOME {
        RoundTab(s, next, d, r);
        assert c in Comers(next, d) <==> d == next[n];
      }
      assert c in Tab(t, d, HOME) <==> d == next[n];
    }
    LastHopIsSole(t, c, Deps(t, n), next[n]);
  }

  lemma {:induction false} GoesRound(s: Services, next: map<Name, Name>, n: Name, hops: nat)
    requires Round(s, next) && n in next
    ensures !EndsWithin(RoundTable(s, next), n, HOME, hops)
    decreases hops
  {
    RoundHop(s, next, n);
    if hops > 0 {
      GoesRound(s, next, next[n], hops - 1);
    }
  }

  lemma CyclicWalkGoesOn(s: Services) returns (t: Services, n: Name)
    requires !Acyclic(s)
    ensures Plausible(t) && SameConfig(s, t) && !WalkEnds(t, n, HOME)
  {
    var next := RankedOrRound(s, s.Keys, _ => 0);
    n :| n in next;
    t := RoundTable(s, next);
    RoundIsPlausible(s, next);
    forall hops: nat ensures !EndsWithin(t, n, HOME, hops) {
      GoesRound(s, next, n, hops);
    }
  }

  /**
   For a configuration, every walk on every plausible table with that configuration ends if and only if no service
   depends on itself through any number of steps.
   */
  lemma WalksEndIffAcyclic(s: Services)
    ensures Acyclic(s) <==> forall t, n, at :: SameConfig(s, t) && Plausible(t) ==> WalkEnds(t, n, at)
  {
    if Acyclic(s) {
      forall t, n, at | SameConfig(s, t) ensures WalkEnds(t, n, at) {
        AcyclicKept(s, t);
        AcyclicWalkEnds(t, n, at);
      }
    } else {
      var t, n := CyclicWalkGoesOn(s);
      assert !WalkEnds(t, n, HOME);
    }
  }
}
