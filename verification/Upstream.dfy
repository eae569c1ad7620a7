/**
 The trigger chains that a partial removal of replicas takes down upstream (src/services/changes.rs:420-551), in every
 table: the first edge of each of them loses a chain. Counts never rise in a teardown.
 */
module Upstream {
  import opened Types
  import opened ServiceTable
  import opened Chains
  import opened Teardown
  import opened Changes
  import opened Settlement
  import opened UserChanges
  import opened FlowChanges

  /** Only the replica of this link has the client. */
  ghost predicate OnlyThere(s: Services, l: Link) {
    forall q :: q != l.at ==> l.client !in Tab(s, l.server, q)
  }

  /** The entry has lost a chain, or is gone. */
  ghost predicate Lowered(a: Services, b: Services, l: Link) {
    Entry(b, l).Some? ==> Entry(a, l).Some? && Entry(b, l).value.activeChains < Entry(a, l).value.activeChains
  }

  lemma OnlyThereKept(a: Services, b: Services, l: Link)
    requires Shrunk(a, b) && OnlyThere(a, l)
    ensures OnlyThere(b, l)
  {
    forall q | q != l.at ensures l.client !in Tab(b, l.server, q) {
      var x := Link(l.client, l.server, q);
      assert Entry(b, x).Some? ==> Entry(a, x).Some?;
    }
  }

  lemma LoweredBetween(a: Services, m: Services, n: Services, b: Services, l: Link)
    requires Shrunk(a, m) && Lowered(m, n, l) && Shrunk(n, b)
    ensures Lowered(a, b, l)
  {
    if Entry(b, l).Some? {
      assert Entry(n, l).Some? && Entry(m, l).Some?;
    }
  }

  lemma {:induction false} EdgesLower(w: World, edges: seq<(Client, Name)>, l: Link)
    requires Unique(w.services) && OnlyThere(w.services, l) && (l.client, l.server) in edges
    ensures Lowered(w.services, DecrementEdges(w, edges).services, l)
    decreases |edges|
  {
    var s, m := w.services, DecrementChain(w, edges[0].1, edges[0].0);
    DecrementShrinks(w, edges[0].1, edges[0].0);
    DecrementEdgesShrink(m, edges[1..]);
    SameIsShrunk(s);
    if edges[0] == (l.client, l.server) {
      DecrementLowers(w, l);
      LoweredBetween(s, s, m.services, DecrementEdges(w, edges).services, l);
    } else {
      OnlyThereKept(s, m.services, l);
      EdgesLower(m, edges[1..], l);
      SameIsShrunk(DecrementEdges(w, edges).services);
      LoweredBetween(s, m.services, DecrementEdges(w, edges).services, DecrementEdges(w, edges).services, l);
    }
  }

  lemma DecrementLowers(w: World, l: Link)
    requires Unique(w.services) && OnlyThere(w.services, l)
    ensures Lowered(w.services, DecrementChain(w, l.server, l.client).services, l)
  {
    HolderSpec(w.services, l.server, l.client);
    DecrementSpec(w, l.server, l.client);
    var r := Holder(w.services, l.server, l.client);
    if r.Some? {
      assert r.value == l.at;
      var v := OneLess(Some(Tab(w.services, l.server, r.value)[l.client]));
      PutEntries(w.services, DecrementChain(w, l.server, l.client).services, l, v);
    }
  }

  /** The chain of a port, if the filter of the teardown lets it through. */
  predicate Heads(s: Services, n: Name, at: ReplicaId, through: Option<Name>, l: Link) {
    exists p :: p in Triggers(s, n) && HeadOf(Triggers(s, n)[p], n, at, through, l)
  }

  predicate HeadOf(chain: seq<Name>, n: Name, at: ReplicaId, through: Option<Name>, l: Link) {
    chain != [] && l.client == ServiceClient(n, at) && l.server == chain[0] && (through.None? || through.value in chain)
  }

  lemma {:induction false} HeadIsEdge(s: Services, n: Name, at: ReplicaId, through: Option<Name>, ports: seq<nat>, p: nat,
                                      l: Link)
    requires (forall q :: q in ports ==> q in Triggers(s, n)) && p in ports
    requires HeadOf(Triggers(s, n)[p], n, at, through, l)
    ensures (l.client, l.server) in TriggerEdges(s, n, at, through, ports)
  {
    if ports[0] == p {
      assert (l.client, l.server) in TriggerWalk(s, ServiceClient(n, at), Triggers(s, n)[p]);
    } else {
      HeadIsEdge(s, n, at, through, ports[1..], p, l);
    }
  }

  /** A teardown of the trigger chains of a replica takes a chain from the first edge of each that the filter selects. */
  lemma BackendLowers(w: World, n: Name, at: ReplicaId, through: Option<Name>, w': World, l: Link)
    requires Unique(w.services) && OpRel(w, BackendOp(n, at, through), w')
    requires Heads(w.services, n, at, through, l) && OnlyThere(w.services, l)
    ensures Lowered(w.services, w'.services, l)
  {
    var edges :| BackendEdges(w.services, n, at, through, edges) && w' == DecrementEdges(w, edges);
    var ports: seq<nat> :| Enumerates(ports, Triggers(w.services, n).Keys)
      && edges == TriggerEdges(w.services, n, at, through, ports);
    var p :| p in Triggers(w.services, n) && HeadOf(Triggers(w.services, n)[p], n, at, through, l);
    HeadIsEdge(w.services, n, at, through, ports, p, l);
    EdgesLower(w, edges, l);
  }

  lemma {:induction false} OpsLower(w: World, ops: seq<Op>, w': World, op: Op, l: Link)
    requires Unique(w.services) && OpsRel(w, ops, w') && op in ops && op.BackendOp?
    requires Heads(w.services, op.name, op.at, op.through, l) && OnlyThere(w.services, l)
    ensures Lowered(w.services, w'.services, l)
    decreases |ops|
  {
    var before, last := ops[..|ops| - 1], ops[|ops| - 1];
    var mid := OpsLast(w, ops, w');
    OpsShrink(w, before, mid);
    OpShrinks(mid, last, w');
    SameIsShrunk(w.services);
    SameIsShrunk(w'.services);
    if op == last {
      OpsShape(w, before, mid);
      ShapeFacts(w.services, mid.services);
      OnlyThereKept(w.services, mid.services, l);
      BackendLowers(mid, op.name, op.at, op.through, w', l);
      LoweredBetween(w.services, mid.services, w'.services, w'.services, l);
    } else {
      OpsLower(w, before, mid, op, l);
      LoweredBetween(w.services, w.services, mid.services, w'.services, l);
    }
  }

  // ----- the removal of some replicas of a service -----

  /** The head of a trigger chain through the service that starts on a replica that is a client of one that goes. */
  ghost predicate HeadsUpstream(change: ServiceChange, s: Services, l: Link)
    requires !KeepsReplicas(change)
  {
    exists r, c: Client :: Removes(change, change.name, r) && c in Tab(s, change.name, r)
      && c.proxy.None? && c.replica.Some? && Heads(s, c.name, c.replica.value, Some(change.name), l)
  }

  /** The head of a trigger chain that starts on a replica that goes. */
  ghost predicate HeadsGoing(change: ServiceChange, s: Services, l: Link)
    requires !KeepsReplicas(change)
  {
    exists r :: Removes(change, change.name, r) && HasRep(s, change.name, r) && Heads(s, change.name, r, None, l)
  }

  lemma {:induction false} UpstreamHas(n: Name, affected: seq<Client>, c: Client)
    requires c in affected && c.replica.Some?
    ensures BackendOp(c.name, c.replica.value, Some(n)) in UpstreamOps(n, affected)
    decreases |affected|
  {
    var before, last := affected[..|affected| - 1], affected[|affected| - 1];
    if c == last {
      var pair := [ChainOp(c.name, OnReplica(c.replica.value)), BackendOp(c.name, c.replica.value, Some(n))];
      assert pair[1] in pair;
    } else {
      UpstreamHas(n, before, c);
    }
  }

  lemma PlanLowers(cut: World, change: ServiceChange, n: Name, f: ProxyFilter, partial: seq<Op>, mid: World, l: Link)
    requires Unique(cut.services) && PartialPlan(cut.services, n, f, partial) && OpsRel(cut, partial, mid)
    requires !KeepsReplicas(change) && Goes(change, n, f) && n == change.name && OnlyThere(cut.services, l) && HeadsUpstream(change, cut.services, l)
    ensures Lowered(cut.services, mid.services, l)
  {
    var affected: seq<Client> :|
      Covers(affected, Affected(cut.services, n, f)) && partial == UpstreamOps(n, affected) + [ChainOp(n, f)];
    var r, c: Client :| Removes(change, n, r) && c in Tab(cut.services, n, r)
      && c.proxy.None? && c.replica.Some? && Heads(cut.services, c.name, c.replica.value, Some(n), l);
    AffectedAre(cut.services, n, f, c);
    UpstreamHas(n, affected, c);
    OpsLower(cut, partial, mid, BackendOp(c.name, c.replica.value, Some(n)), l);
  }

  lemma ThenLowers(w: World, before: seq<Op>, change: ServiceChange, n: Name, f: ProxyFilter, ops: seq<Op>, mid: World,
                   l: Link) returns (cut: World)
    requires Unique(w.services) && ThenPartial(w, before, n, f, ops, mid)
    requires !KeepsReplicas(change) && Goes(change, n, f) && n == change.name
    requires OnlyThere(w.services, l)
    ensures OpsRel(w, before, cut)
    ensures HeadsUpstream(change, cut.services, l) ==> Lowered(cut.services, mid.services, l)
  {
    var partial;
    cut, partial :|
      && OpsRel(w, before, cut) && PartialPlan(cut.services, n, f, partial) && OpsRel(cut, partial, mid)
      && ops == before + partial;
    OpsShrink(w, before, cut);
    OnlyThereKept(w.services, cut.services, l);
    if HeadsUpstream(change, cut.services, l) {
      PlanLowers(cut, change, n, f, partial, mid, l);
    }
  }

  /** The change empties a replica or leaves its table as it is. */
  lemma FinishLowers(s0: Services, a: Services, b: Services, change: ServiceChange, l: Link)
    requires Unique(b) && SameShape(s0, b) && !KeepsReplicas(change) && Lowered(a, b, l)
    requires change.ReplicaRemoved? ==> Port(s0, change.name, change.at).Some?
    ensures Lowered(a, Finish(s0, b, change), l)
  {
    FinishRemoves(s0, b, change, l);
  }

  lemma PlanOfRemoval(w: World, change: ServiceChange, ops: seq<Op>, mid: World, l: Link)
    returns (before: seq<Op>, cut: World)
    requires Unique(w.services) && Plan(w, change, ops, mid) && !KeepsReplicas(change)
    requires !RemovesAll(change, w.services) && OnlyThere(w.services, l)
    ensures OwnTriggers(change, before) && OpsRel(w, before, cut)
    ensures HeadsUpstream(change, cut.services, l) ==> Lowered(cut.services, mid.services, l)
  {
    var n := change.name;
    if change.ReplicasRemoved? {
      before := BackendOps(n, RepsOn(Reps(w.services, n), change.ip), None);
      OwnTriggersOn(w.services, n, change.ip);
      cut := ThenLowers(w, before, change, n, OnIp(change.ip), ops, mid, l);
    } else {
      before := [BackendOp(n, change.at, None)];
      cut := ThenLowers(w, before, change, n, OnReplica(change.at), ops, mid, l);
    }
  }

  /**
   If some replicas of a service go, then each trigger chain through the service that starts on a replica that is a
   client of one that goes loses a chain on its first edge, once the trigger chains of those that go are down.
   */
  lemma RemovalLowersUpstream(w: World, change: ServiceChange, w': World, l: Link) returns (before: seq<Op>, cut: World)
    requires Unique(w.services) && ChangeRel(w, change, w') && !KeepsReplicas(change)
    requires !RemovesAll(change, w.services) && OnlyThere(w.services, l)
    requires change.ReplicaRemoved? ==> Port(w.services, change.name, change.at).Some?
    ensures OwnTriggers(change, before) && OpsRel(w, before, cut)
    ensures HeadsUpstream(change, cut.services, l) ==> Lowered(cut.services, w'.services, l)
  {
    var ops, mid: World :| Plan(w, change, ops, mid) && OpsRel(w, ops, mid)
      && w' == mid.(services := Finish(w.services, mid.services, change));
    OpsShape(w, ops, mid);
    OpsShrink(w, ops, mid);
    before, cut := PlanOfRemoval(w, change, ops, mid, l);
    if HeadsUpstream(change, cut.services, l) {
      FinishLowers(w.services, cut.services, mid.services, change, l);
    }
  }

  /** Each trigger chain that starts on a replica that goes loses a chain on its first edge. */
  lemma RemovalLowersGoing(w: World, change: ServiceChange, w': World, l: Link)
    requires Unique(w.services) && ChangeRel(w, change, w') && !KeepsReplicas(change)
    requires !RemovesAll(change, w.services) && OnlyThere(w.services, l) && HeadsGoing(change, w.services, l)
    requires change.ReplicaRemoved? ==> Port(w.services, change.name, change.at).Some?
    ensures Lowered(w.services, w'.services, l)
  {
    var ops, mid: World :| Plan(w, change, ops, mid) && OpsRel(w, ops, mid)
      && w' == mid.(services := Finish(w.services, mid.services, change));
    var r :| Removes(change, change.name, r) && HasRep(w.services, change.name, r)
      && Heads(w.services, change.name, r, None, l);
    OpsShape(w, ops, mid);
    OpsShrink(w, ops, mid);
    PartialBegins(w, change, ops, mid, r);
    OpsLower(w, ops, mid, BackendOp(change.name, r, None), l);
    FinishLowers(w.services, w.services, mid.services, change, l);
  }
}
