/**
 Where the setup of an edge counts its chain (src/services/service_info.rs:264-273): on the first replica that holds the
 client, which need not be the one that the edge leads to.
 */
module Counts {
  import opened Types
  import opened ServiceTable
  import opened Chains
  import opened Teardown
  import opened Settlement
  import opened Setup
  import opened AtomicSetup
  import opened Success
  import opened Stickiness

  /** No replica that holds the client comes before the one that the edge leads to. */
  ghost predicate FirstHere(s: Services, e: RegisteredEdge) {
    forall r :: e.client in Tab(s, e.server, r) ==> IndexOf(Reps(s, e.server), e.at) <= IndexOf(Reps(s, e.server), r)
  }

  lemma IndexIs(reps: seq<Replica>, i: nat)
    requires UniqueReps(reps) && i < |reps|
    ensures IndexOf(reps, reps[i].Id()) == i
  {
  }

  /** The search finds the first of the replicas that hold the client. */
  lemma HolderLeast(s: Services, n: Name, c: Client, r: ReplicaId)
    requires Unique(s) && c in Tab(s, n, r)
    ensures Holder(s, n, c).Some? && c in Tab(s, n, Holder(s, n, c).value)
    ensures IndexOf(Reps(s, n), Holder(s, n, c).value) <= IndexOf(Reps(s, n), r)
  {
    var reps := Reps(s, n);
    HolderSpec(s, n, c);
    IndexIs(reps, HolderIndex(reps, c));
    TabNeedsRep(s, n, r);
    var j :| 0 <= j < |reps| && reps[j].Id() == r;
    IndexIs(reps, j);
    TabAt(reps, j);
  }

  lemma SamePlace(s: Services, n: Name, c: Client, r: ReplicaId, q: ReplicaId)
    requires c in Tab(s, n, r) && IndexOf(Reps(s, n), r) == IndexOf(Reps(s, n), q)
    ensures r == q
  {
    TabNeedsRep(s, n, r);
    var j :| 0 <= j < |Reps(s, n)| && Reps(s, n)[j].Id() == r;
  }

  lemma HolderIsFirst(s: Services, e: RegisteredEdge)
    requires Unique(s) && e.client in Tab(s, e.server, e.at)
    ensures Holder(s, e.server, e.client).Some?
    ensures Holder(s, e.server, e.client) == Some(e.at) <==> FirstHere(s, e)
  {
    HolderLeast(s, e.server, e.client, e.at);
    var h := Holder(s, e.server, e.client).value;
    if h == e.at {
      forall r | e.client in Tab(s, e.server, r)
        ensures IndexOf(Reps(s, e.server), e.at) <= IndexOf(Reps(s, e.server), r)
      {
        HolderLeast(s, e.server, e.client, r);
      }
    } else if FirstHere(s, e) {
      SamePlace(s, e.server, e.client, h, e.at);
    }
  }

  /** The entry that counts a chain of the edge once the edge has an entry. */
  ghost function CountsAt(s: Services, e: RegisteredEdge): Link {
    var h := Holder(s, e.server, e.client);
    if FirstHere(s, e) || h.None? then e.Link() else Link(e.client, e.server, h.value)
  }

  /** An edge that has its entry already counts one chain more on the entry that is found first. */
  lemma ReuseCounts(w: World, e: RegisteredEdge, ack: bool, now: nat)
    requires Unique(w.services) && AlreadySetup(w.services, e) && e.client in Tab(w.services, e.server, e.at)
    ensures var s, b := w.services, Advance(w, Task(e, Start), ack, now).0.services;
      CountsOneMore(s, b, CountsAt(s, e), now) && forall l :: l != CountsAt(s, e) ==> Entry(b, l) == Entry(s, l)
  {
    var s := w.services;
    TabNeedsRep(s, e.server, e.at);
    HolderIsFirst(s, e);
    FoundCounts(s, e.server, e.client, CountsAt(s, e).at, now);
  }

  lemma AddedEntry(s: Services, e: RegisteredEdge, info: ClientInfo) returns (m: Services)
    requires Unique(s) && HasRep(s, e.server, e.at)
    ensures m == AddClientToReplica(s, e.server, e.at, e.client, info) && Unique(m) && SameShape(s, m)
    ensures forall l :: Entry(m, l) == if l == e.Link() then Some(info) else Entry(s, l)
    ensures forall r :: e.client in Tab(m, e.server, r) <==> e.client in Tab(s, e.server, r) || r == e.at
  {
    m := AddClientToReplica(s, e.server, e.at, e.client, info);
    AddClientSpec(s, e.server, e.at, e.client, info);
    PutEntries(s, m, e.Link(), Some(info));
    ShapeFacts(s, m);
    forall r ensures e.client in Tab(m, e.server, r) <==> e.client in Tab(s, e.server, r) || r == e.at {
      assert Entry(m, Link(e.client, e.server, r)).Some? <==> e.client in Tab(m, e.server, r);
    }
  }

  lemma AddedIsFound(s: Services, m: Services, e: RegisteredEdge)
    requires Unique(s) && Unique(m) && SameShape(s, m)
    requires forall r :: e.client in Tab(m, e.server, r) <==> e.client in Tab(s, e.server, r) || r == e.at
    ensures FirstHere(m, e) <==> FirstHere(s, e)
    ensures CountsAt(m, e) == CountsAt(s, e) && Holder(m, e.server, e.client) == Some(CountsAt(s, e).at)
    ensures CountsAt(s, e) == e.Link() <==> FirstHere(s, e)
  {
    SameIndices(s, m, e.server);
    HolderIsFirst(m, e);
    if !FirstHere(s, e) {
      EarlierIsFound(s, m, e);
    }
  }

  lemma AddedFirst(s: Services, e: RegisteredEdge, info: ClientInfo)
    requires Unique(s) && HasRep(s, e.server, e.at)
    ensures var m := AddClientToReplica(s, e.server, e.at, e.client, info);
      && Unique(m) && SameShape(s, m)
      && (forall l :: Entry(m, l) == if l == e.Link() then Some(info) else Entry(s, l))
      && CountsAt(m, e) == CountsAt(s, e) && (FirstHere(m, e) <==> FirstHere(s, e))
      && Holder(m, e.server, e.client) == Some(CountsAt(s, e).at) && (CountsAt(s, e) == e.Link() <==> FirstHere(s, e))
  {
    var m := AddedEntry(s, e, info);
    AddedIsFound(s, m, e);
  }

  lemma {:induction false} SameIndex(a: seq<Replica>, b: seq<Replica>, r: ReplicaId)
    requires |a| == |b| && forall i :: 0 <= i < |a| ==> a[i].Id() == b[i].Id()
    ensures IndexOf(a, r) == IndexOf(b, r)
  {
    if a != [] {
      SameIndex(a[1..], b[1..], r);
    }
  }

  lemma SameIndices(a: Services, b: Services, n: Name)
    requires SameShape(a, b)
    ensures forall r :: IndexOf(Reps(a, n), r) == IndexOf(Reps(b, n), r)
  {
    forall r ensures IndexOf(Reps(a, n), r) == IndexOf(Reps(b, n), r) {
      if n in a {
        SameIndex(Reps(a, n), Reps(b, n), r);
      }
    }
  }

  /** A new entry on a later replica does not change where the client is found. */
  lemma EarlierIsFound(s: Services, m: Services, e: RegisteredEdge)
    requires Unique(s) && Unique(m) && SameShape(s, m) && !FirstHere(s, e)
    requires forall r :: e.client in Tab(m, e.server, r) <==> e.client in Tab(s, e.server, r) || r == e.at
    ensures Holder(s, e.server, e.client).Some? && Holder(m, e.server, e.client) == Holder(s, e.server, e.client)
    ensures Holder(s, e.server, e.client) != Some(e.at)
  {
    var n, c := e.server, e.client;
    SameIndices(s, m, n);
    var r :| c in Tab(s, n, r) && IndexOf(Reps(s, n), r) < IndexOf(Reps(s, n), e.at);
    HolderLeast(s, n, c, r);
    var h := Holder(s, n, c).value;
    HolderLeast(m, n, c, h);
    var h' := Holder(m, n, c).value;
    if h' != e.at {
      HolderLeast(s, n, c, h');
    }
    SamePlace(m, n, c, h', h);
  }

  predicate CountsOneMore(a: Services, b: Services, l: Link, now: nat) {
    Entry(a, l).Some? && Entry(b, l) == Some(Entry(a, l).value.AddActiveChain(now))
  }

  /**
   A commit puts the entry of its network over the slot. It counts its chain there if no replica before holds the
   client, and then the count is one; otherwise it counts it on the first one that does, and the count here is zero.
   */
  lemma CommitCounts(w: World, e: RegisteredEdge, id: nat, now: nat)
    requires Unique(w.services) && HasRep(w.services, e.server, e.at)
    ensures var s, b := w.services, Advance(w, Task(e, Allocated(id)), true, now).0.services;
      var info := Committed(w.pool.net, e, id, now);
      && Entry(b, e.Link()) == Some(if FirstHere(s, e) then info.AddActiveChain(now) else info)
      && (!FirstHere(s, e) ==> CountsAt(s, e) != e.Link() && CountsOneMore(s, b, CountsAt(s, e), now))
      && forall l :: l != e.Link() && l != CountsAt(s, e) ==> Entry(b, l) == Entry(s, l)
  {
    CommitAdds(w, e, id, now);
    AddedCounts(w.services, e, Committed(w.pool.net, e, id, now), now);
  }

  lemma CommitAdds(w: World, e: RegisteredEdge, id: nat, now: nat)
    requires HasRep(w.services, e.server, e.at)
    ensures Advance(w, Task(e, Allocated(id)), true, now).0.services ==
      Added(w.services, e, Committed(w.pool.net, e, id, now), now)
  {
  }

  /** The table with the entry, and one chain more where the client is found. */
  function Added(s: Services, e: RegisteredEdge, info: ClientInfo, now: nat): Services {
    AddChain(AddClientToReplica(s, e.server, e.at, e.client, info), e.server, e.client, now)
  }

  lemma AddedCounts(s: Services, e: RegisteredEdge, info: ClientInfo, now: nat)
    requires Unique(s) && HasRep(s, e.server, e.at)
    ensures var b := Added(s, e, info, now);
      && Entry(b, e.Link()) == Some(if FirstHere(s, e) then info.AddActiveChain(now) else info)
      && (!FirstHere(s, e) ==> CountsAt(s, e) != e.Link() && CountsOneMore(s, b, CountsAt(s, e), now))
      && forall l :: l != e.Link() && l != CountsAt(s, e) ==> Entry(b, l) == Entry(s, l)
  {
    var m := AddClientToReplica(s, e.server, e.at, e.client, info);
    AddedFirst(s, e, info);
    FoundCounts(m, e.server, e.client, CountsAt(s, e).at, now);
  }

  lemma FoundCounts(s: Services, n: Name, c: Client, r: ReplicaId, now: nat)
    requires Unique(s) && Holder(s, n, c) == Some(r)
    ensures var b := AddChain(s, n, c, now);
      CountsOneMore(s, b, Link(c, n, r), now) && forall l :: l != Link(c, n, r) ==> Entry(b, l) == Entry(s, l)
  {
    AddChainSpec(s, n, c, now);
    PutEntries(s, AddChain(s, n, c, now), Link(c, n, r), Some(Tab(s, n, r)[c].AddActiveChain(now)));
  }

  // ----- an edge that leads to a later replica -----

  function Count(s: Services, l: Link): nat {
    if Entry(s, l).Some? then Entry(s, l).value.activeChains else 0
  }

  /** A replica before the one of `l` holds its client. */
  ghost predicate HeldBefore(s: Services, l: Link) {
    exists r :: l.client in Tab(s, l.server, r) && IndexOf(Reps(s, l.server), r) < IndexOf(Reps(s, l.server), l.at)
  }

  lemma HeldBeforeStays(a: Services, b: Services, l: Link)
    requires SameShape(a, b) && HeldBefore(a, l) && forall x :: Entry(a, x).Some? ==> Entry(b, x).Some?
    ensures HeldBefore(b, l)
  {
    var r :| l.client in Tab(a, l.server, r) && IndexOf(Reps(a, l.server), r) < IndexOf(Reps(a, l.server), l.at);
    SameIndices(a, b, l.server);
    assert Entry(a, Link(l.client, l.server, r)).Some?;
    assert l.client in Tab(b, l.server, r);
  }

  lemma AddChainPasses(s: Services, n: Name, c: Client, now: nat, l: Link)
    requires Unique(s) && HeldBefore(s, l)
    ensures Entry(AddChain(s, n, c, now), l) == Entry(s, l)
  {
    AddChainSpec(s, n, c, now);
    if Holder(s, n, c).Some? {
      var h := Holder(s, n, c).value;
      if n == l.server && c == l.client {
        var r :| c in Tab(s, n, r) && IndexOf(Reps(s, n), r) < IndexOf(Reps(s, n), l.at);
        HolderLeast(s, n, c, r);
      }
      FoundCounts(s, n, c, h, now);
    }
  }

  lemma AddClientPasses(s: Services, e: RegisteredEdge, info: ClientInfo, l: Link)
    requires Unique(s) && HeldBefore(s, l) && info.activeChains == 0
    ensures var m := AddClientToReplica(s, e.server, e.at, e.client, info);
      Unique(m) && HeldBefore(m, l) && Count(m, l) <= Count(s, l)
  {
    var m := AddClientToReplica(s, e.server, e.at, e.client, info);
    AddClientSpec(s, e.server, e.at, e.client, info);
    AddClientShape(s, e.server, e.at, e.client, info);
    ShapeFacts(s, m);
    if HasRep(s, e.server, e.at) {
      PutEntries(s, m, e.Link(), Some(info));
    }
    HeldBeforeStays(s, m, l);
  }

  lemma CommitPasses(w: World, e: RegisteredEdge, id: nat, now: nat, l: Link)
    requires Unique(w.services) && HeldBefore(w.services, l) && IsRegistered(w.services, e.server)
    ensures var b := Advance(w, Task(e, Allocated(id)), true, now).0.services; Count(b, l) <= Count(w.services, l)
  {
    var info := Committed(w.pool.net, e, id, now);
    AddClientPasses(w.services, e, info, l);
    AddChainPasses(AddClientToReplica(w.services, e.server, e.at, e.client, info), e.server, e.client, now, l);
  }

  lemma StartPasses(w: World, e: RegisteredEdge, ack: bool, now: nat, l: Link)
    requires Unique(w.services) && HeldBefore(w.services, l)
    ensures var b := Advance(w, Task(e, Start), ack, now).0.services; Count(b, l) <= Count(w.services, l)
  {
    AddChainPasses(w.services, e.server, e.client, now, l);
    AddClientPasses(w.services, e, Placeholder(e.clientIp, now), l);
  }

  lemma AdvanceStaysBefore(w: World, t: Task, ack: bool, now: nat, l: Link)
    requires Unique(w.services) && HeldBefore(w.services, l) && !Advance(w, t, ack, now).1.phase.Failed?
    ensures HeldBefore(Advance(w, t, ack, now).0.services, l)
  {
    AdvanceShape(w, t, ack, now);
    AdvanceEntries(w, t, ack, now);
    HeldBeforeStays(w.services, Advance(w, t, ack, now).0.services, l);
  }

  lemma AdvancePasses(w: World, t: Task, ack: bool, now: nat, l: Link)
    requires Unique(w.services) && HeldBefore(w.services, l) && !Advance(w, t, ack, now).1.phase.Failed?
    ensures var b := Advance(w, t, ack, now).0.services;
      HeldBefore(b, l) && Count(b, l) <= Count(w.services, l)
  {
    AdvanceStaysBefore(w, t, ack, now, l);
    if t.phase.Start? {
      assert t == Task(t.edge, Start);
      StartPasses(w, t.edge, ack, now, l);
    } else if t.phase.Allocated? && ack && IsRegistered(w.services, t.edge.server) {
      assert t == Task(t.edge, Allocated(t.phase.id));
      CommitPasses(w, t.edge, t.phase.id, now, l);
    }
  }

  ghost predicate Passed(s: Services, x: ChainState, l: Link) {
    && SameShape(s, x.world.services) && Unique(x.world.services)
    && (NoneFailed(x.tasks) ==> HeldBefore(x.world.services, l) && Count(x.world.services, l) <= Count(s, l))
  }

  lemma PassStep(s: Services, x: ChainState, y: ChainState, start: nat, l: Link)
    requires Passed(s, x, l) && ChainStep(x, y, start)
    ensures Passed(s, y, l)
  {
    var k: nat, ack, now :| start <= now && k < |x.tasks| && !x.tasks[k].Done() && y == StepOf(x, k, ack, now);
    AdvanceShape(x.world, x.tasks[k], ack, now);
    ShapeTrans(s, x.world.services, y.world.services);
    ShapeFacts(x.world.services, y.world.services);
    if NoneFailed(y.tasks) {
      StillNoneFailed(x, k, y);
      AdvancePasses(x.world, x.tasks[k], ack, now, l);
    }
  }

  lemma {:induction false} TracePasses(s: Services, trace: seq<ChainState>, start: nat, l: Link)
    requires Unique(s) && HeldBefore(s, l) && ChainTrace(trace, start) && trace[0].world.services == s
    ensures Passed(s, trace[|trace| - 1], l)
    decreases |trace|
  {
    if |trace| > 1 {
      TracePrefix(trace, start);
      TracePasses(s, trace[..|trace| - 1], start, l);
      PassStep(s, trace[|trace| - 2], trace[|trace| - 1], start, l);
    }
  }

  /** A chain that is set up counts nothing on an entry whose client is on an earlier replica as well. */
  lemma LaterIsNotCounted(w: World, edges: seq<RegisteredEdge>, start: nat, w': World, upstream: Option<Ipv4>, l: Link)
    requires Unique(w.services) && ChainSetupRel(w, edges, start, w', true, upstream) && HeldBefore(w.services, l)
    ensures Count(w'.services, l) <= Count(w.services, l)
  {
    var trace: seq<ChainState> :|
      && ChainTrace(trace, start)
      && trace[0] == ChainState(w, Spawn(edges))
      && AllDone(trace[|trace| - 1].tasks)
      && Concluded(trace[|trace| - 1], w', true, upstream);
    TracePasses(w.services, trace, start, l);
    assert NoneFailed(trace[|trace| - 1].tasks);
  }
}
