/**
 What the teardown walk collects, told without the walk: the levels of the places on the one path that goes from each
 place to the last dependency that has an entry for it (src/services/changes.rs:309-355).
 */
module Walks {
  import opened Types
  import opened ServiceTable
  import opened Chains

  datatype Place = Place(name: Name, at: ReplicaId) {
    function Client(): Client { Types.Client.Client(name, None, Some(at)) }
  }

  /** Of the replicas of the service this one is the first that holds the client. */
  ghost predicate FirstHolds(s: Services, d: Name, c: Client, r: ReplicaId) {
    exists i :: 0 <= i < |Reps(s, d)| && Reps(s, d)[i].Id() == r && c in Reps(s, d)[i].clients
                && forall j :: 0 <= j < i ==> c !in Reps(s, d)[j].clients
  }

  ghost predicate NobodyHolds(s: Services, d: Name, c: Client) {
    forall i :: 0 <= i < |Reps(s, d)| ==> c !in Reps(s, d)[i].clients
  }

  /** Number `k` is the last name with an entry for the client, and `r` the first replica that holds it there. */
  ghost predicate LastHolding(s: Services, c: Client, deps: seq<Name>, k: int, r: ReplicaId) {
    && 0 <= k < |deps| && FirstHolds(s, deps[k], c, r)
    && forall j :: k < j < |deps| ==> NobodyHolds(s, deps[j], c)
  }

  /** The dependency at `to` is the last one in the list that has an entry for the replica at `from`. */
  ghost predicate GoesTo(s: Services, from: Place, to: Place) {
    exists k :: LastHolding(s, from.Client(), Deps(s, from.name), k, to.at) && Deps(s, from.name)[k] == to.name
  }

  ghost predicate IsPath(s: Services, path: seq<Place>) {
    && path != []
    && (forall i :: 0 < i < |path| ==> GoesTo(s, path[i - 1], path[i]))
    && Ends(s, path[|path| - 1])
  }

  ghost predicate Ends(s: Services, from: Place) {
    forall to :: !GoesTo(s, from, to)
  }

  /** From each place one edge to every dependency listed there. */
  function EdgesFrom(s: Services, p: Place): seq<(Client, Name)> {
    seq(|Deps(s, p.name)|, i requires 0 <= i < |Deps(s, p.name)| => (p.Client(), Deps(s, p.name)[i]))
  }

  function EdgesAlong(s: Services, path: seq<Place>): seq<(Client, Name)> {
    if path == [] then [] else EdgesFrom(s, path[0]) + EdgesAlong(s, path[1..])
  }

  lemma HolderHolds(s: Services, d: Name, c: Client)
    ensures match Holder(s, d, c)
      case None => NobodyHolds(s, d, c)
      case Some(r) => FirstHolds(s, d, c, r)
  {
    FirstIndex(Reps(s, d), c);
  }

  lemma HolderIsFirst(s: Services, d: Name, c: Client)
    ensures forall r :: FirstHolds(s, d, c, r) <==> Holder(s, d, c) == Some(r)
  {
    var reps := Reps(s, d);
    FirstIndex(reps, c);
    forall r ensures FirstHolds(s, d, c, r) <==> Holder(s, d, c) == Some(r) {
      if FirstHolds(s, d, c, r) {
        var i :| 0 <= i < |reps| && reps[i].Id() == r && c in reps[i].clients
          && forall j :: 0 <= j < i ==> c !in reps[j].clients;
        var h := HolderIndex(reps, c);
        assert !(h < i) && !(i < h);
      }
    }
  }

  lemma {:induction false} FirstIndex(reps: seq<Replica>, c: Client)
    ensures var h := HolderIndex(reps, c);
      && h <= |reps| && (h < |reps| ==> c in reps[h].clients) && forall j :: 0 <= j < h ==> c !in reps[j].clients
  {
    if reps != [] && c !in reps[0].clients {
      FirstIndex(reps[1..], c);
      forall j | 0 < j < HolderIndex(reps, c) ensures c !in reps[j].clients {
        assert reps[j] == reps[1..][j - 1];
      }
    }
  }

  lemma LastExtends(s: Services, c: Client, deps: seq<Name>)
    requires deps != [] && NobodyHolds(s, deps[|deps| - 1], c)
    ensures forall k, r :: LastHolding(s, c, deps[..|deps| - 1], k, r) ==> LastHolding(s, c, deps, k, r)
  {
    forall k, r | LastHolding(s, c, deps[..|deps| - 1], k, r) ensures LastHolding(s, c, deps, k, r) {
      forall j | k < j < |deps| ensures NobodyHolds(s, deps[j], c) {
        assert j < |deps| - 1 ==> deps[..|deps| - 1][j] == deps[j];
      }
    }
  }

  lemma {:induction false} NoHop(s: Services, c: Client, deps: seq<Name>)
    requires LastHop(s, c, deps).None?
    ensures forall j :: 0 <= j < |deps| ==> NobodyHolds(s, deps[j], c)
  {
    if deps != [] {
      HolderHolds(s, deps[|deps| - 1], c);
      NoHop(s, c, deps[..|deps| - 1]);
      assert forall j :: 0 <= j < |deps| - 1 ==> deps[..|deps| - 1][j] == deps[j];
    }
  }

  lemma {:induction false} LastHopIs(s: Services, c: Client, deps: seq<Name>) returns (k: int)
    requires LastHop(s, c, deps).Some?
    ensures LastHolding(s, c, deps, k, LastHop(s, c, deps).value.1) && LastHop(s, c, deps).value.0 == deps[k]
  {
    var last := |deps| - 1;
    HolderHolds(s, deps[last], c);
    if Holder(s, deps[last], c).Some? {
      k := last;
    } else {
      k := LastHopIs(s, c, deps[..last]);
      LastExtends(s, c, deps);
    }
  }

  lemma HopGoes(s: Services, from: Place)
    ensures var hop := LastHop(s, from.Client(), Deps(s, from.name));
      forall to :: GoesTo(s, from, to) <==> hop == Some((to.name, to.at))
  {
    var c, deps := from.Client(), Deps(s, from.name);
    var hop := LastHop(s, c, deps);
    if hop.None? {
      NoHop(s, c, deps);
      forall to ensures !GoesTo(s, from, to) {}
    } else {
      var k := LastHopIs(s, c, deps);
      forall to ensures GoesTo(s, from, to) <==> hop == Some((to.name, to.at)) {
        if GoesTo(s, from, to) {
          var i :| LastHolding(s, c, deps, i, to.at) && deps[i] == to.name;
          HolderIsFirst(s, to.name, c);
          assert !NobodyHolds(s, deps[i], c) && !NobodyHolds(s, deps[k], c);
          assert i == k;
        }
      }
    }
  }

  lemma {:induction false} LevelIsFrom(c: Client, deps: seq<Name>)
    ensures |Level(c, deps)| == |deps|
    ensures forall i :: 0 <= i < |deps| ==> Level(c, deps)[i] == (c, deps[i])
  {
    if deps != [] {
      LevelIsFrom(c, deps[1..]);
    }
  }

  lemma FromIsLevel(s: Services, p: Place)
    ensures EdgesFrom(s, p) == Level(p.Client(), Deps(s, p.name))
  {
    LevelIsFrom(p.Client(), Deps(s, p.name));
  }

  lemma PathOn(s: Services, p: Place, rest: seq<Place>)
    requires IsPath(s, rest) && GoesTo(s, p, rest[0])
    ensures IsPath(s, [p] + rest) && EdgesAlong(s, [p] + rest) == EdgesFrom(s, p) + EdgesAlong(s, rest)
  {
    var path := [p] + rest;
    assert path[1..] == rest && path[|path| - 1] == rest[|rest| - 1];
    forall i | 0 < i < |path| ensures GoesTo(s, path[i - 1], path[i]) {
      assert i > 1 ==> path[i - 1] == rest[i - 2] && path[i] == rest[i - 1];
    }
  }

  lemma WalkGoes(s: Services, p: Place)
    requires Acyclic(s)
    ensures var hop := LastHop(s, p.Client(), Deps(s, p.name));
      if hop.None? then Ends(s, p) && DepChainEdges(s, p.name, p.at) == EdgesFrom(s, p)
      else
        && GoesTo(s, p, Place(hop.value.0, hop.value.1)) && Rank(s, hop.value.0) < Rank(s, p.name)
        && DepChainEdges(s, p.name, p.at) == EdgesFrom(s, p) + DepChainEdges(s, hop.value.0, hop.value.1)
  {
    HopGoes(s, p);
    FromIsLevel(s, p);
    if Deps(s, p.name) != [] {
      WalkStep(s, p.name, p.at);
    }
  }

  /** The walk collects exactly the edges along the path from the replica, in their order. */
  lemma {:induction false} WalkIsPath(s: Services, p: Place) returns (path: seq<Place>)
    requires Acyclic(s)
    ensures IsPath(s, path) && path[0] == p
    ensures DepChainEdges(s, p.name, p.at) == EdgesAlong(s, path)
    decreases Rank(s, p.name)
  {
    var hop := LastHop(s, p.Client(), Deps(s, p.name));
    WalkGoes(s, p);
    if hop.None? {
      path := [p];
      assert EdgesFrom(s, p) + EdgesAlong(s, []) == EdgesFrom(s, p);
    } else {
      var rest := WalkIsPath(s, Place(hop.value.0, hop.value.1));
      PathOn(s, p, rest);
      path := [p] + rest;
    }
  }

  /** There is just one such path. */
  lemma {:induction false} PathIsOne(s: Services, a: seq<Place>, b: seq<Place>)
    requires IsPath(s, a) && IsPath(s, b) && a[0] == b[0]
    ensures a == b
    decreases |a|
  {
    HopGoes(s, a[0]);
    if |a| > 1 {
      assert GoesTo(s, a[0], a[1]);
    }
    if |b| > 1 {
      assert GoesTo(s, b[0], b[1]);
    }
    if |a| > 1 {
      PathTail(s, a);
      PathTail(s, b);
      PathIsOne(s, a[1..], b[1..]);
      assert a == [a[0]] + a[1..] && b == [b[0]] + b[1..];
    }
  }

  lemma PathTail(s: Services, path: seq<Place>)
    requires IsPath(s, path) && |path| > 1
    ensures IsPath(s, path[1..])
  {
    var rest := path[1..];
    forall i | 0 < i < |rest| ensures GoesTo(s, rest[i - 1], rest[i]) {
      assert rest[i - 1] == path[i] && rest[i] == path[i + 1];
    }
  }
}
