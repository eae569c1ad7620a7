/**
 What `teardown_chain` removes when a user is on several replicas (src/services/changes.rs:267-302): each removal takes
 the user from the first replica that holds it, which need not be one that the filter matches.
 */
module Strays {
  import opened Types
  import opened ServiceTable
  import opened Teardown
  import opened Settlement

  /** How many replicas hold the client. */
  function Holding(reps: seq<Replica>, c: Client): nat {
    if reps == [] then 0
    else Holding(reps[..|reps| - 1], c) + if c in reps[|reps| - 1].clients then 1 else 0
  }

  predicate IsTarget(f: ProxyFilter, rep: Replica, c: Client) {
    c in rep.clients && Matches(f, c, rep.Id())
  }

  /** How many replicas hold the client and are matched by the filter. */
  function Matching(reps: seq<Replica>, f: ProxyFilter, c: Client): nat {
    if reps == [] then 0
    else Matching(reps[..|reps| - 1], f, c) + if IsTarget(f, reps[|reps| - 1], c) then 1 else 0
  }

  /** The teardown removes the client from replica `i`: fewer replicas before hold it than the filter matches. */
  predicate Goes(reps: seq<Replica>, f: ProxyFilter, c: Client, i: nat)
    requires i < |reps|
  {
    c.proxy.Some? && c in reps[i].clients && Holding(reps[..i], c) < Matching(reps, f, c)
  }

  /** Whatever has a network and is removed is what the filter matches. */
  ghost predicate NoStray(s: Services, n: Name, f: ProxyFilter) {
    forall i, c :: 0 <= i < |Reps(s, n)| && Goes(Reps(s, n), f, c, i) && Reps(s, n)[i].clients[c].netId != 0 ==>
      Matches(f, c, Reps(s, n)[i].Id())
  }

  // ----- how many removals there are for a client -----

  function TimesIn(targets: seq<Target>, c: Client): nat
    decreases |targets|
  {
    if targets == [] then 0 else (if targets[0].client == c then 1 else 0) + TimesIn(targets[1..], c)
  }

  /** The same replicas hold the client. */
  ghost predicate HoldAlike(a: seq<Replica>, b: seq<Replica>, c: Client) {
    |a| == |b| && forall i :: 0 <= i < |a| ==> a[i].Id() == b[i].Id() && (c in a[i].clients <==> c in b[i].clients)
  }

  lemma {:induction false} AlikeCounts(a: seq<Replica>, b: seq<Replica>, f: ProxyFilter, c: Client)
    requires HoldAlike(a, b, c)
    ensures Holding(a, c) == Holding(b, c) && Matching(a, f, c) == Matching(b, f, c)
  {
    if a != [] {
      AlikeCounts(a[..|a| - 1], b[..|b| - 1], f, c);
    }
  }

  function PlacesOf(targets: seq<Target>, c: Client): set<ReplicaId> {
    set t | t in targets && t.client == c :: t.at
  }

  function MatchingPlaces(reps: seq<Replica>, f: ProxyFilter, c: Client): set<ReplicaId> {
    set i | 0 <= i < |reps| && IsTarget(f, reps[i], c) :: reps[i].Id()
  }

  lemma {:induction false} TimesIsPlaces(n: Name, targets: seq<Target>, c: Client)
    requires forall i, j :: 0 <= i < j < |targets| ==> targets[i].Link(n) != targets[j].Link(n)
    ensures TimesIn(targets, c) == |PlacesOf(targets, c)|
    decreases |targets|
  {
    if targets != [] {
      var t, rest := targets[0], targets[1..];
      TimesIsPlaces(n, rest, c);
      assert forall u :: u in targets <==> u == t || u in rest;
      if t.client == c {
        forall u | u in rest && u.client == c ensures u.at != t.at {
          var k :| 0 <= k < |rest| && rest[k] == u;
          assert targets[k + 1] == u;
        }
        assert PlacesOf(targets, c) == {t.at} + PlacesOf(rest, c);
      } else {
        assert PlacesOf(targets, c) == PlacesOf(rest, c);
      }
    }
  }

  lemma PlacesGrow(reps: seq<Replica>, f: ProxyFilter, c: Client)
    requires UniqueReps(reps) && reps != []
    ensures var before, last := reps[..|reps| - 1], reps[|reps| - 1];
      && last.Id() !in MatchingPlaces(before, f, c)
      && MatchingPlaces(reps, f, c) == MatchingPlaces(before, f, c) + if IsTarget(f, last, c) then {last.Id()} else {}
  {
    var before, last := reps[..|reps| - 1], reps[|reps| - 1];
    forall r | r in MatchingPlaces(before, f, c) ensures r in MatchingPlaces(reps, f, c) && r != last.Id() {
      var i :| 0 <= i < |before| && IsTarget(f, before[i], c) && before[i].Id() == r;
      assert reps[i] == before[i];
    }
    forall r | r in MatchingPlaces(reps, f, c) && r != last.Id() ensures r in MatchingPlaces(before, f, c) {
      var i :| 0 <= i < |reps| && IsTarget(f, reps[i], c) && reps[i].Id() == r;
      assert before[i] == reps[i];
    }
    if last.Id() in MatchingPlaces(reps, f, c) {
      var i :| 0 <= i < |reps| && IsTarget(f, reps[i], c) && reps[i].Id() == last.Id();
      assert i == |reps| - 1;
    }
  }

  lemma {:induction false} MatchingIsPlaces(reps: seq<Replica>, f: ProxyFilter, c: Client)
    requires UniqueReps(reps)
    ensures Matching(reps, f, c) == |MatchingPlaces(reps, f, c)|
  {
    if reps != [] {
      MatchingIsPlaces(reps[..|reps| - 1], f, c);
      PlacesGrow(reps, f, c);
    }
  }

  /** There is one removal for each replica that holds the client and is matched. */
  lemma CollectedTimes(s: Services, n: Name, f: ProxyFilter, targets: seq<Target>, c: Client)
    requires Unique(s) && Collected(s, n, f, targets) && c.proxy.Some?
    ensures TimesIn(targets, c) == Matching(Reps(s, n), f, c)
  {
    var reps := Reps(s, n);
    TimesIsPlaces(n, targets, c);
    MatchingIsPlaces(reps, f, c);
    forall r | r in PlacesOf(targets, c) ensures r in MatchingPlaces(reps, f, c) {
      var t :| t in targets && t.client == c && t.at == r;
      assert Entry(s, t.Link(n)).Some?;
      EntryNeedsRep(s, Link(c, n, r));
      var i :| 0 <= i < |reps| && reps[i].Id() == r;
      TabAt(reps, i);
      assert IsTarget(f, reps[i], c);
    }
    forall r | r in MatchingPlaces(reps, f, c) ensures r in PlacesOf(targets, c) {
      var i :| 0 <= i < |reps| && IsTarget(f, reps[i], c) && reps[i].Id() == r;
      TabAt(reps, i);
      assert Target(c, Entry(s, Link(c, n, r)).value, r) in targets;
    }
    assert PlacesOf(targets, c) == MatchingPlaces(reps, f, c);
  }

  // ----- which entries the removals take -----

  lemma {:induction false} HoldingBefore(reps: seq<Replica>, c: Client, i: nat)
    requires i <= HolderIndex(reps, c) && i <= |reps|
    ensures Holding(reps[..i], c) == 0
  {
    if i > 0 {
      assert reps[..i][..i - 1] == reps[..i - 1];
      HoldingBefore(reps, c, i - 1);
    }
  }

  /** One holder less, for every replica after the first one. */
  lemma {:induction false} HoldingWithout(a: seq<Replica>, b: seq<Replica>, c: Client, i: nat)
    requires |a| == |b| && HolderIndex(a, c) < i <= |a|
    requires forall j :: 0 <= j < |a| ==> (c in b[j].clients <==> c in a[j].clients && j != HolderIndex(a, c))
    ensures Holding(a[..i], c) == Holding(b[..i], c) + 1
  {
    var h := HolderIndex(a, c);
    assert a[..i][..i - 1] == a[..i - 1] && b[..i][..i - 1] == b[..i - 1];
    if i == h + 1 {
      HoldingBefore(a, c, h);
      forall j | 0 <= j < h ensures c !in b[j].clients {}
      NobodyHolds(b[..h], c);
    } else {
      HoldingWithout(a, b, c, i - 1);
    }
  }

  lemma {:induction false} NobodyHolds(reps: seq<Replica>, c: Client)
    requires forall j :: 0 <= j < |reps| ==> c !in reps[j].clients
    ensures Holding(reps, c) == 0
  {
    if reps != [] {
      NobodyHolds(reps[..|reps| - 1], c);
    }
  }

  /** After `times` removals of the client it is left on all but the first `times` replicas that held it. */
  ghost predicate FirstGone(a: seq<Replica>, b: seq<Replica>, c: Client, times: nat) {
    |a| == |b| && forall i :: 0 <= i < |a| ==>
      (c in b[i].clients <==> c in a[i].clients && Holding(a[..i], c) >= times)
  }

  lemma RemoveOneFirst(s: Services, n: Name, removed: Client, c: Client)
    ensures var a, b := Reps(s, n), Reps(RemoveClient(s, n, removed), n);
      && |a| == |b|
      && forall i :: 0 <= i < |a| ==>
           (c in b[i].clients <==> c in a[i].clients && !(c == removed && i == HolderIndex(a, c)))
  {
  }

  lemma GoneOneMore(a: seq<Replica>, m: seq<Replica>, b: seq<Replica>, c: Client, times: nat)
    requires |a| == |m| && FirstGone(m, b, c, times)
    requires forall i :: 0 <= i < |a| ==> (c in m[i].clients <==> c in a[i].clients && i != HolderIndex(a, c))
    ensures FirstGone(a, b, c, times + 1)
  {
    var h := HolderIndex(a, c);
    forall i | 0 <= i < |a| ensures c in b[i].clients <==> c in a[i].clients && Holding(a[..i], c) >= times + 1 {
      if i <= h {
        HoldingBefore(a, c, i);
      } else {
        HoldingWithout(a, m, c, i);
      }
    }
  }

  lemma GoneAlike(a: seq<Replica>, m: seq<Replica>, b: seq<Replica>, c: Client, times: nat)
    requires |a| == |m| && FirstGone(m, b, c, times)
    requires forall i :: 0 <= i < |a| ==> (c in m[i].clients <==> c in a[i].clients)
    ensures FirstGone(a, b, c, times)
  {
    forall i | 0 <= i < |a| ensures Holding(a[..i], c) == Holding(m[..i], c) {
      SameHolders(a[..i], m[..i], c);
    }
  }

  lemma {:induction false} SameHolders(a: seq<Replica>, b: seq<Replica>, c: Client)
    requires |a| == |b| && forall i :: 0 <= i < |a| ==> (c in a[i].clients <==> c in b[i].clients)
    ensures Holding(a, c) == Holding(b, c)
  {
    if a != [] {
      SameHolders(a[..|a| - 1], b[..|b| - 1], c);
    }
  }

  lemma {:induction false} TargetsTakeFirst(s: Services, n: Name, targets: seq<Target>, c: Client)
    ensures FirstGone(Reps(s, n), Reps(RemoveTargets(s, n, targets), n), c, TimesIn(targets, c))
    decreases |targets|
  {
    if targets != [] {
      var removed := targets[0].client;
      var m := RemoveClient(s, n, removed);
      RemoveOneFirst(s, n, removed, c);
      TargetsTakeFirst(m, n, targets[1..], c);
      var a, mid, b := Reps(s, n), Reps(m, n), Reps(RemoveTargets(s, n, targets), n);
      if c == removed {
        GoneOneMore(a, mid, b, c, TimesIn(targets[1..], c));
      } else {
        GoneAlike(a, mid, b, c, TimesIn(targets[1..], c));
      }
    }
  }

  lemma {:induction false} OtherServicesStay(s: Services, n: Name, targets: seq<Target>, l: Link)
    requires Unique(s)
    requires l.server != n || TimesIn(targets, l.client) == 0
    ensures Entry(RemoveTargets(s, n, targets), l) == Entry(s, l)
    decreases |targets|
  {
    if targets != [] {
      var m := RemoveOne(s, n, targets[0].client);
      OtherServicesStay(m, n, targets[1..], l);
    }
  }

  /** The entry at `l` goes in a teardown of the chains of `n`. */
  ghost predicate Taken(s: Services, n: Name, f: ProxyFilter, l: Link) {
    l.server == n && exists i :: 0 <= i < |Reps(s, n)| && Reps(s, n)[i].Id() == l.at && Goes(Reps(s, n), f, l.client, i)
  }

  lemma {:induction false} ServiceTimes(targets: seq<Target>, c: Client)
    requires c.proxy.None? && forall t :: t in targets ==> t.client.proxy.Some?
    ensures TimesIn(targets, c) == 0
    decreases |targets|
  {
    if targets != [] {
      assert targets[0] in targets;
      ServiceTimes(targets[1..], c);
    }
  }

  /** Where the replica of an entry is in the list. */
  lemma PlaceOf(s: Services, l: Link) returns (i: nat)
    requires Unique(s) && HasRep(s, l.server, l.at)
    ensures i < |Reps(s, l.server)| && Reps(s, l.server)[i].Id() == l.at
    ensures Entry(s, l).Some? <==> l.client in Reps(s, l.server)[i].clients
    ensures forall n, f :: Taken(s, n, f, l) <==> n == l.server && Goes(Reps(s, n), f, l.client, i)
  {
    var reps := Reps(s, l.server);
    i :| 0 <= i < |reps| && reps[i].Id() == l.at;
    TabAt(reps, i);
    assert forall j :: 0 <= j < |reps| && reps[j].Id() == l.at ==> j == i;
  }

  /** The replicas stay where they are, and the entry is gone if and only if its replica's table has lost it. */
  lemma GoneAt(s: Services, b: Services, l: Link) returns (i: nat)
    requires Unique(s) && SameShape(s, b) && Entry(s, l).Some?
    ensures i < |Reps(s, l.server)| && |Reps(b, l.server)| == |Reps(s, l.server)|
    ensures l.client in Reps(s, l.server)[i].clients
    ensures forall n, f :: Taken(s, n, f, l) <==> n == l.server && Goes(Reps(s, n), f, l.client, i)
    ensures Entry(b, l).Some? <==> l.client in Reps(b, l.server)[i].clients
  {
    EntryNeedsRep(s, l);
    ShapeFacts(s, b);
    i := PlaceOf(s, l);
    assert Reps(b, l.server)[i].Id() == Reps(s, l.server)[i].Id();
    TabAt(Reps(b, l.server), i);
  }

  lemma UserTaken(s: Services, n: Name, f: ProxyFilter, targets: seq<Target>, l: Link)
    requires Unique(s) && Entry(s, l).Some? && l.server == n && l.client.proxy.Some?
    requires TimesIn(targets, l.client) == Matching(Reps(s, n), f, l.client)
    ensures Entry(RemoveTargets(s, n, targets), l).None? <==> Taken(s, n, f, l)
  {
    RemoveTargetsShape(s, n, targets);
    var i := GoneAt(s, RemoveTargets(s, n, targets), l);
    TargetsTakeFirst(s, n, targets, l.client);
  }

  lemma RemovalTakes(s: Services, n: Name, f: ProxyFilter, targets: seq<Target>, l: Link)
    requires Unique(s) && Entry(s, l).Some?
    requires forall t :: t in targets ==> t.client.proxy.Some?
    requires l.client.proxy.Some? ==> TimesIn(targets, l.client) == Matching(Reps(s, n), f, l.client)
    ensures Entry(RemoveTargets(s, n, targets), l).None? <==> Taken(s, n, f, l)
  {
    if l.server == n && l.client.proxy.Some? {
      UserTaken(s, n, f, targets, l);
    } else {
      if l.client.proxy.None? {
        ServiceTimes(targets, l.client);
      }
      OtherServicesStay(s, n, targets, l);
    }
  }

  // ----- what a chain teardown leaks -----

  ghost predicate AlikeFor(a: Services, b: Services, n: Name, c: Client) {
    HoldAlike(Reps(a, n), Reps(b, n), c)
  }

  lemma UsersHeldAlike(a: Services, b: Services, n: Name, c: Client)
    requires Unique(a) && SameShape(a, b) && SameProxies(a, b) && c.proxy.Some?
    ensures AlikeFor(a, b, n, c)
    ensures forall i :: 0 <= i < |Reps(a, n)| && c in Reps(a, n)[i].clients ==>
      c in Reps(b, n)[i].clients && Reps(b, n)[i].clients[c] == Reps(a, n)[i].clients[c]
  {
    if n in a {
      ShapeFacts(a, b);
      forall i | 0 <= i < |Reps(a, n)|
        ensures Reps(a, n)[i].Id() == Reps(b, n)[i].Id()
        ensures c in Reps(a, n)[i].clients <==> c in Reps(b, n)[i].clients
        ensures c in Reps(a, n)[i].clients ==> Reps(b, n)[i].clients[c] == Reps(a, n)[i].clients[c]
      {
        TabAt(Reps(a, n), i);
        TabAt(Reps(b, n), i);
        assert Entry(a, Link(c, n, Reps(a, n)[i].Id())) == Entry(b, Link(c, n, Reps(a, n)[i].Id()));
      }
    }
  }

  lemma TakenAlike(a: Services, b: Services, n: Name, f: ProxyFilter, l: Link)
    requires Unique(a) && SameShape(a, b) && SameProxies(a, b)
    ensures Taken(a, n, f, l) <==> Taken(b, n, f, l)
  {
    if l.client.proxy.Some? && l.server == n {
      UsersHeldAlike(a, b, n, l.client);
      AlikeCounts(Reps(a, n), Reps(b, n), f, l.client);
      forall i | 0 <= i < |Reps(a, n)| ensures Goes(Reps(a, n), f, l.client, i) <==> Goes(Reps(b, n), f, l.client, i) {
        SameHolders(Reps(a, n)[..i], Reps(b, n)[..i], l.client);
      }
    }
  }

  predicate HasNetwork(s: Services, l: Link) {
    Entry(s, l).Some? && Entry(s, l).value.netId != 0
  }

  ghost predicate NoStrayLink(s: Services, n: Name, f: ProxyFilter) {
    forall l :: Taken(s, n, f, l) && HasNetwork(s, l) ==> Matches(f, l.client, l.at)
  }

  lemma NoStrayByLink(s: Services, n: Name, f: ProxyFilter)
    requires Unique(s)
    ensures NoStray(s, n, f) <==> NoStrayLink(s, n, f)
  {
    var reps := Reps(s, n);
    forall i | 0 <= i < |reps| ensures Tab(s, n, reps[i].Id()) == reps[i].clients {
      TabAt(reps, i);
    }
    if NoStrayLink(s, n, f) {
      forall i, c | 0 <= i < |reps| && Goes(reps, f, c, i) && reps[i].clients[c].netId != 0
        ensures Matches(f, c, reps[i].Id())
      {
        assert Taken(s, n, f, Link(c, n, reps[i].Id()));
      }
    }
  }

  /** The removals that end a chain teardown, with the releases that follow, leak nothing if and only if none strays. */
  lemma RemovalLeaksIff(m: World, w': World, n: Name, f: ProxyFilter, targets: seq<Target>, b: seq<Down>)
    requires Unique(m.services) && Exclusive(m.services)
    requires forall t :: t in targets ==> Entry(m.services, t.Link(n)) == Some(t.info) && Matches(f, t.client, t.at)
    requires forall l: Link :: l.server == n && Entry(m.services, l).Some? && Matches(f, l.client, l.at) ==>
      Target(l.client, Entry(m.services, l).value, l.at) in targets
    requires forall c: Client :: c.proxy.Some? ==> TimesIn(targets, c) == Matching(Reps(m.services, n), f, c)
    requires w'.services == RemoveTargets(m.services, n, targets) && Freed(w'.services, n, targets, {}, b)
    ensures NoLeak(m, w', b) <==> NoStrayLink(m.services, n, f)
  {
    var s := m.services;
    RemoveTargetsShrinks(s, n, targets);
    forall l | Entry(s, l).Some? ensures Entry(w'.services, l).None? <==> Taken(s, n, f, l) {
      RemovalTakes(s, n, f, targets, l);
    }
    if NoLeak(m, w', b) {
      forall l | Taken(s, n, f, l) && HasNetwork(s, l) ensures Matches(f, l.client, l.at)
      {
        TakenIsReleased(m, w', n, targets, b, l);
      }
    }
    if NoStrayLink(s, n, f) {
      TargetsAreReleased(m, w', n, targets, b);
    }
  }

  lemma TargetsAreReleased(m: World, w': World, n: Name, targets: seq<Target>, b: seq<Down>)
    requires Freed(w'.services, n, targets, {}, b)
    requires forall l :: HasNetwork(m.services, l) && Entry(w'.services, l).None? ==>
      l.server == n && Target(l.client, Entry(m.services, l).value, l.at) in targets
    requires forall l :: Entry(w'.services, l).Some? ==> Entry(w'.services, l) == Entry(m.services, l)
    ensures NoLeak(m, w', b)
  {
    forall id | Held(m.services, id) && !Held(w'.services, id) ensures Releases(b, id) {
      var l :| Entry(m.services, l).Some? && Entry(m.services, l).value.netId == id;
      var t := Target(l.client, Entry(m.services, l).value, l.at);
      assert Entry(w'.services, l).None? && t in targets && t.info.netId == id;
      assert !HasNetId(w'.services, n, id);
    }
  }

  lemma TakenIsReleased(m: World, w': World, n: Name, targets: seq<Target>, b: seq<Down>, l: Link)
    requires Exclusive(m.services) && HasNetwork(m.services, l)
    requires forall x :: Entry(w'.services, x).Some? ==> Entry(w'.services, x) == Entry(m.services, x)
    requires Entry(w'.services, l).None? && NoLeak(m, w', b) && Freed(w'.services, n, targets, {}, b)
    requires forall t :: t in targets ==> Entry(m.services, t.Link(n)) == Some(t.info)
    ensures exists t :: t in targets && t.Link(n) == l
  {
    var s, id := m.services, Entry(m.services, l).value.netId;
    assert Held(s, id);
    if Held(w'.services, id) {
      var x :| Entry(w'.services, x).Some? && Entry(w'.services, x).value.netId == id;
      assert SameId(s, x, l);
      assert false;
    }
    var d :| d in b && d.netId == id;
    var t :| t in targets && d == DownOf(t.info, t.at);
    assert SameId(s, t.Link(n), l);
  }

  /**
   A chain teardown releases every network that falls out of use if and only if it removes no user from a replica that
   the filter does not match.
   */
  lemma ChainLeaksIff(w: World, n: Name, f: ProxyFilter, targets: seq<Target>, sent: seq<Down>)
    requires Walkable(w.services, targets) && Unique(w.services) && Exclusive(w.services)
    requires Collected(w.services, n, f, targets) && TeardownChain(w, n, targets).downs == w.downs + sent
    ensures NoLeak(w, TeardownChain(w, n, targets), sent) <==> NoStray(w.services, n, f)
  {
    var m, a, b := ChainParts(w, n, f, targets);
    SameSent(w.downs, sent, a + b);
    NoLeakSplits(w, m, TeardownChain(w, n, targets), a, b);
    EndLeaksIff(w, m, TeardownChain(w, n, targets), n, f, targets, b);
  }

  /** The teardown up to its removals, which leaks nothing, and its end. */
  lemma ChainParts(w: World, n: Name, f: ProxyFilter, targets: seq<Target>) returns (m: World, a: seq<Down>, b: seq<Down>)
    requires Walkable(w.services, targets) && Unique(w.services) && Exclusive(w.services)
    requires Collected(w.services, n, f, targets)
    ensures Settles(w, m, a) && NoLeak(w, m, a) && Settles(m, TeardownChain(w, n, targets), b)
    ensures TeardownChain(w, n, targets).downs == w.downs + (a + b)
    ensures SameShape(w.services, m.services) && SameProxies(w.services, m.services)
    ensures Unique(m.services) && Exclusive(m.services)
    ensures TeardownChain(w, n, targets).services == RemoveTargets(m.services, n, targets)
    ensures Freed(TeardownChain(w, n, targets).services, n, targets, {}, b)
  {
    ExclusiveIsShared(w.services);
    m, a, b := ChainPhases(w, n, f, targets);
    DepChainsShape(w, n, targets);
    ShrunkKeeps(w.services, m.services);
    RemovalSettles(w, m, TeardownChain(w, n, targets), n, f, targets, b);
    SettlesTrans(w, m, TeardownChain(w, n, targets), a, b);
  }

  lemma SameSent(downs: seq<Down>, a: seq<Down>, b: seq<Down>)
    requires downs + a == downs + b
    ensures a == b
  {
    assert (downs + a)[|downs|..] == a && (downs + b)[|downs|..] == b;
  }

  /** What the end of a chain teardown leaks can be told from the table at its beginning. */
  lemma EndLeaksIff(w: World, m: World, w': World, n: Name, f: ProxyFilter, targets: seq<Target>, b: seq<Down>)
    requires Unique(w.services) && SameShape(w.services, m.services) && SameProxies(w.services, m.services)
    requires Unique(m.services) && Exclusive(m.services) && Collected(w.services, n, f, targets)
    requires w'.services == RemoveTargets(m.services, n, targets) && Freed(w'.services, n, targets, {}, b)
    ensures NoLeak(m, w', b) <==> NoStray(w.services, n, f)
  {
    CollectedAfter(w, m, n, f, targets);
    RemovalLeaksIff(m, w', n, f, targets, b);
    NoStrayAlike(w.services, m.services, n, f);
  }

  lemma RemovalSettles(w: World, m: World, w': World, n: Name, f: ProxyFilter, targets: seq<Target>, b: seq<Down>)
    requires ProperlyShared(m.services) && Collected(w.services, n, f, targets) && SameProxies(w.services, m.services)
    requires w' == World(w'.services, FreeAll(m.pool, b), m.downs + b) && Freed(w'.services, n, targets, {}, b)
    requires forall l :: Entry(w'.services, l).Some? ==> Entry(w'.services, l) == Entry(m.services, l)
    ensures Settles(m, w', b)
  {
    forall d | d in b && d.netId != 0 ensures Held(m.services, d.netId) && !Held(w'.services, d.netId) {
      var t :| t in targets && d == DownOf(t.info, t.at);
      TargetStillHeld(w, m, n, f, targets, t);
      UnsharedIsUnheld(m.services, w'.services, n, t);
    }
  }

  lemma CollectedAfter(w: World, m: World, n: Name, f: ProxyFilter, targets: seq<Target>)
    requires Unique(w.services) && SameShape(w.services, m.services) && SameProxies(w.services, m.services)
    requires Collected(w.services, n, f, targets)
    ensures forall t :: t in targets ==> Entry(m.services, t.Link(n)) == Some(t.info) && Matches(f, t.client, t.at)
    ensures forall l: Link :: l.server == n && Entry(m.services, l).Some? && Matches(f, l.client, l.at) ==>
      Target(l.client, Entry(m.services, l).value, l.at) in targets
    ensures forall c: Client :: c.proxy.Some? ==> TimesIn(targets, c) == Matching(Reps(m.services, n), f, c)
  {
    forall t | t in targets ensures Entry(m.services, t.Link(n)) == Some(t.info) {
      TargetStillHeld(w, m, n, f, targets, t);
    }
    forall c: Client | c.proxy.Some? ensures TimesIn(targets, c) == Matching(Reps(m.services, n), f, c) {
      CollectedTimes(w.services, n, f, targets, c);
      UsersHeldAlike(w.services, m.services, n, c);
      AlikeCounts(Reps(w.services, n), Reps(m.services, n), f, c);
    }
  }

  lemma NoStrayAlike(a: Services, b: Services, n: Name, f: ProxyFilter)
    requires Unique(a) && SameShape(a, b) && SameProxies(a, b)
    ensures NoStray(a, n, f) <==> NoStrayLink(b, n, f)
  {
    NoStrayByLink(a, n, f);
    forall l ensures Taken(a, n, f, l) <==> Taken(b, n, f, l) {
      TakenAlike(a, b, n, f, l);
    }
    forall l | Taken(a, n, f, l) ensures Entry(a, l) == Entry(b, l) {}
  }

  /** What two steps leak together they leak one by one. */
  lemma NoLeakSplits(w: World, m: World, w': World, a: seq<Down>, b: seq<Down>)
    requires Settles(w, m, a) && Settles(m, w', b)
    ensures NoLeak(w, w', a + b) <==> NoLeak(w, m, a) && NoLeak(m, w', b)
  {
    SettlesTrans(w, m, w', a, b);
    if NoLeak(w, w', a + b) {
      forall id | Held(w.services, id) && !Held(m.services, id) ensures Releases(a, id) {
        if Held(w'.services, id) {
          ShrunkHeld(m.services, w'.services, id);
        }
        var d :| d in a + b && d.netId == id;
        assert d in b ==> Held(m.services, d.netId);
      }
      forall id | Held(m.services, id) && !Held(w'.services, id) ensures Releases(b, id) {
        ShrunkHeld(w.services, m.services, id);
        var d :| d in a + b && d.netId == id;
        assert d in a ==> !Held(m.services, d.netId);
      }
    }
  }

  // ----- when nothing strays -----

  /** The filter does not look at the replica. */
  predicate LooksAtClient(f: ProxyFilter) {
    f.All? || f.ByIp? || f.ByClient?
  }

  lemma {:induction false} SomeMatch(reps: seq<Replica>, f: ProxyFilter, c: Client) returns (i: nat)
    requires Matching(reps, f, c) > 0
    ensures i < |reps| && IsTarget(f, reps[i], c)
  {
    if IsTarget(f, reps[|reps| - 1], c) {
      i := |reps| - 1;
    } else {
      i := SomeMatch(reps[..|reps| - 1], f, c);
    }
  }

  /** Nothing strays if the filter looks at the client only, or if every user is on one replica. */
  lemma NothingStrays(s: Services, n: Name, f: ProxyFilter)
    requires Unique(s) && (LooksAtClient(f) || ProxyOnce(s))
    ensures NoStray(s, n, f)
  {
    var reps := Reps(s, n);
    forall i, c | 0 <= i < |reps| && Goes(reps, f, c, i) ensures Matches(f, c, reps[i].Id()) {
      var j := SomeMatch(reps, f, c);
      TabAt(reps, i);
      TabAt(reps, j);
      assert c in Tab(s, n, reps[i].Id()) && c in Tab(s, n, reps[j].Id());
    }
  }
}
