/** Taking a service down takes down everything that flows through it, and nothing else. */
module Cascade {
  import opened Types
  import opened ServiceTable
  import opened Chains
  import opened Teardown
  import opened Changes
  import opened Reconcile
  import opened Settlement
  import opened Flow
  import opened FlowTeardown
  import opened FlowTriggers
  import opened FlowOperations
  import opened Users

  // ----- a service through which nothing flows -----

  /** Chains of `n` end in, or go through, `x`. */
  predicate Involves(s: Services, n: Name, x: Name) {
    n == x || x in Deps(s, n)
  }

  /** No chain starts that ends in, or goes through, `x`. */
  ghost predicate NoRootsThrough(s: Services, x: Name) {
    forall l: Link :: !IsOut(s, l) && Involves(s, l.server, x) ==> Entry(s, l).None?
  }

  /** No trigger chain starts at a replica of `x`. */
  ghost predicate NoTriggersFrom(s: Services, x: Name) {
    forall l: Link :: l.client.proxy.None? && l.client.name == x && !IsOut(s, l) ==> Entry(s, l).None?
  }

  lemma {:induction false} DepsBounded(s: Services) returns (bound: nat)
    ensures forall n :: |Deps(s, n)| <= bound
    decreases |s|
  {
    if s == map[] {
      bound := 0;
    } else {
      var m :| m in s;
      var rest := DepsBounded(s - {m});
      bound := if rest < |Deps(s, m)| then |Deps(s, m)| else rest;
      forall n ensures |Deps(s, n)| <= bound {
        assert n != m ==> Deps(s - {m}, n) == Deps(s, n);
      }
    }
  }

  /** The service edge that an entry stands for is the outgoing edge of its source replica. */
  lemma EntryIsOutLink(s: Services, l: Link)
    requires Regime(s) && Linked(s) && Entry(s, l).Some? && IsOut(s, l)
    ensures l.client.replica.Some? && Deps(s, l.client.name) != []
    ensures HasRep(s, l.client.name, l.client.replica.value)
    ensures l == OutLink(s, l.client.name, l.client.replica.value)
    ensures Deps(s, l.server) == Deps(s, l.client.name)[1..]
  {
    assert LinkOk(s, l, Entry(s, l).value);
    EntryNeedsRep(s, l);
    SoleOf(s, l.server, l.at);
    TailDeps(s, l.client.name);
  }

  lemma NothingInNothingOut(s: Services, n: Name, r: ReplicaId)
    requires Balanced(s, {}) && HasRep(s, n, r) && Deps(s, n) != [] && Tab(s, n, r) == map[]
    ensures Load(s, OutLink(s, n, r)) == 0
  {
    assert Tab(s, n, r) - (set c | c in Tab(s, n, r) && Link(c, n, r) in {}) == map[];
  }

  lemma UpstreamInvolves(s: Services, up: Name, n: Name, x: Name)
    requires Deps(s, up) != [] && Deps(s, up)[0] == n && Deps(s, n) == Deps(s, up)[1..] && Involves(s, n, x)
    ensures Involves(s, up, x) && |Deps(s, n)| < |Deps(s, up)|
  {
    assert Deps(s, up) == [n] + Deps(s, n);
  }

  lemma {:induction false} NoUsersNoFlow(s: Services, x: Name, n: Name, r: ReplicaId, bound: nat)
    requires FlowInvariant(s) && NoRootsThrough(s, x) && Involves(s, n, x)
    requires forall m :: |Deps(s, m)| <= bound
    ensures Tab(s, n, r) == map[]
    decreases bound - |Deps(s, n)|
  {
    forall c ensures c !in Tab(s, n, r) {
      if c in Tab(s, n, r) {
        var l := Link(c, n, r);
        assert Entry(s, l).Some?;
        assert IsOut(s, l);
        EntryIsOutLink(s, l);
        assert LinkOk(s, l, Entry(s, l).value) && Load(s, l) >= 1;
        var up, q := c.name, c.replica.value;
        UpstreamInvolves(s, up, n, x);
        NoUsersNoFlow(s, x, up, q, bound);
        NothingInNothingOut(s, up, q);
        assert false;
      }
    }
  }

  lemma NothingThrough(s: Services, x: Name)
    requires FlowInvariant(s) && NoRootsThrough(s, x)
    ensures forall n, r :: Involves(s, n, x) ==> Tab(s, n, r) == map[]
    ensures forall l: Link :: IsOut(s, l) && Involves(s, l.client.name, x) ==> Entry(s, l).None?
  {
    var bound := DepsBounded(s);
    forall n, r | Involves(s, n, x) ensures Tab(s, n, r) == map[] {
      NoUsersNoFlow(s, x, n, r, bound);
    }
    forall l: Link | IsOut(s, l) && Involves(s, l.client.name, x) ensures Entry(s, l).None? {
      if Entry(s, l).Some? {
        assert LinkOk(s, l, Entry(s, l).value);
        EntryIsOutLink(s, l);
        NothingInNothingOut(s, l.client.name, l.client.replica.value);
        assert false;
      }
    }
  }

  // ----- what the cleanup cuts -----

  lemma {:induction false} BackendOpsCutNone(n: Name, reps: seq<Replica>, through: Option<Name>)
    ensures forall op :: op in BackendOps(n, reps, through) ==> op.BackendOp?
  {
    if reps != [] {
      BackendOpsCutNone(n, reps[..|reps| - 1], through);
    }
  }

  lemma {:induction false} CleanupOpsCut(s: Services, x: Name, order: seq<Name>, op: Op)
    requires op.ChainOp?
    ensures op in CleanupOps(s, x, order) <==> op.name in order && op.filter == All
    decreases |order|
  {
    if order != [] {
      var n := order[|order| - 1];
      CleanupOpsCut(s, x, order[..|order| - 1], op);
      BackendOpsCutNone(n, Reps(s, n), if n == x then None else Some(x));
      assert order == order[..|order| - 1] + [n];
    }
  }

  /** The configuration of `n` names `x`, or `n` is `x`. */
  predicate Mentions(s: Services, n: Name, x: Name) {
    n == x || (n in s && DepsContain(s[n].config, x))
  }

  /** The cleanup of `x` removes the users of exactly the services that mention `x`. */
  lemma CleanupCuts(s: Services, x: Name, ops: seq<Op>, l: Link)
    requires CleanupPlan(s, x, ops) && Entry(s, l).Some? && l.client.proxy.Some?
    ensures SomeCuts(ops, l) <==> Mentions(s, l.server, x)
  {
    var order: seq<Name> :| Enumerates(order, CleanupNames(s, x)) && ops == CleanupOps(s, x, order);
    EntryNeedsRep(s, l);
    var n := l.server;
    assert n in CleanupNames(s, x) <==> Mentions(s, n, x);
    CleanupOpsCut(s, x, order, ChainOp(n, All));
    if SomeCuts(ops, l) {
      var op :| op in ops && Cuts(op, l);
      CleanupOpsCut(s, x, order, op);
    }
    if Mentions(s, n, x) {
      assert Cuts(ChainOp(n, All), l);
    }
  }

  function Through(n: Name, x: Name): Option<Name> {
    if n == x then None else Some(x)
  }

  lemma {:induction false} BackendOpsHave(n: Name, reps: seq<Replica>, through: Option<Name>, op: Op)
    requires op.BackendOp?
    ensures op in BackendOps(n, reps, through) <==>
      op.name == n && op.through == through && exists i :: 0 <= i < |reps| && reps[i].Id() == op.at
  {
    if reps != [] {
      var before, last := reps[..|reps| - 1], reps[|reps| - 1];
      BackendOpsHave(n, before, through, op);
      if op == BackendOp(n, last.Id(), through) {
        assert reps[|reps| - 1].Id() == op.at;
      }
      if i :| 0 <= i < |before| && before[i].Id() == op.at {
        assert reps[i].Id() == op.at;
      }
      if i :| 0 <= i < |reps| && reps[i].Id() == op.at {
        assert i < |before| ==> before[i].Id() == op.at;
      }
    }
  }

  lemma {:induction false} CleanupBackends(s: Services, x: Name, order: seq<Name>, op: Op)
    requires op.BackendOp?
    ensures op in CleanupOps(s, x, order) <==>
      op.name in order && op.through == Through(op.name, x) && HasRep(s, op.name, op.at)
    decreases |order|
  {
    if order != [] {
      var n := order[|order| - 1];
      CleanupBackends(s, x, order[..|order| - 1], op);
      BackendOpsHave(n, Reps(s, n), Through(n, x), op);
      assert order == order[..|order| - 1] + [n];
    }
  }

  /** Where the first edge of a trigger chain comes from, and which services its chain passes. */
  lemma TriggeredSource(s: Services, l: Link) returns (q: ReplicaId, p: nat)
    requires Regime(s) && Linked(s) && Entry(s, l).Some? && l.client.proxy.None? && !IsOut(s, l)
    ensures l.client == ServiceClient(l.client.name, q) && HasRep(s, l.client.name, q)
    ensures TriggerAt(s, l.client.name, p) != [] && l == TriggerRoot(s, l.client.name, q, p)
    ensures forall x :: x in TriggerAt(s, l.client.name, p) <==> Involves(s, l.server, x)
  {
    var n := l.client.name;
    assert LinkOk(s, l, Entry(s, l).value);
    q := l.client.replica.value;
    p :| TriggerAt(s, n, p) != [] && TriggerAt(s, n, p)[0] == l.server;
    assert ChainApart(s, n, p);
    EntryNeedsRep(s, l);
    SoleOf(s, l.server, l.at);
    assert TriggerAt(s, n, p) == [l.server] + Deps(s, l.server);
  }

  /** One trigger starts with the edge, so one chain decides whether a backend teardown takes it. */
  lemma TakesIs(s: Services, l: Link, n: Name, q: ReplicaId, p: nat, at: ReplicaId, m: Name, through: Option<Name>)
    requires TriggersApart(s) && TriggerAt(s, n, p) != [] && l == TriggerRoot(s, n, q, p)
    ensures TakesFirst(s, m, at, through, l) <==> m == n && at == q && PassesThrough(TriggerAt(s, n, p), through)
  {
    if PassesThrough(TriggerAt(s, n, p), through) && m == n && at == q {
      assert TakesAt(s, m, at, through, p, l);
    }
    if k :| TakesAt(s, m, at, through, k, l) {
      assert ChainApart(s, n, p);
      assert m == n && TriggerAt(s, n, k)[0] == TriggerAt(s, n, p)[0];
      assert k == p;
    }
  }

  lemma NamesOfCleanup(s: Services, x: Name, n: Name, q: ReplicaId, p: nat)
    requires HasRep(s, n, q)
    ensures n == x || x in TriggerAt(s, n, p) ==> n in CleanupNames(s, x)
  {
    assert n in s && s[n].Registered?;
    if x in TriggerAt(s, n, p) {
      assert p in s[n].config.triggers && x in s[n].config.triggers[p];
    }
  }

  /** The cleanup of `x` takes exactly the trigger chains that start at `x` or pass it. */
  lemma CleanupCutsTriggers(s: Services, x: Name, ops: seq<Op>, l: Link)
    requires Regime(s) && Linked(s) && CleanupPlan(s, x, ops)
    requires Entry(s, l).Some? && l.client.proxy.None? && !IsOut(s, l)
    ensures SomeCutsTrigger(s, ops, l) <==> l.client.name == x || Involves(s, l.server, x)
  {
    var order: seq<Name> :| Enumerates(order, CleanupNames(s, x)) && ops == CleanupOps(s, x, order);
    var n := l.client.name;
    var q, p := TriggeredSource(s, l);
    var own := BackendOp(n, q, Through(n, x));
    NamesOfCleanup(s, x, n, q, p);
    CleanupBackends(s, x, order, own);
    TakesIs(s, l, n, q, p, q, n, Through(n, x));
    if n == x || Involves(s, l.server, x) {
      assert own in ops && CutsTrigger(s, own, l);
    }
    if op :| op in ops && CutsTrigger(s, op, l) {
      CleanupBackends(s, x, order, op);
      TakesIs(s, l, n, q, p, op.at, op.name, op.through);
    }
  }

  /** What the cleanup of `x` leaves of the chains: those that do not concern `x`, with the edges they start with. */
  ghost predicate CleanedUp(a: Services, b: Services, x: Name) {
    && (forall l: Link :: l.client.proxy.Some? ==>
          Entry(b, l) == if Mentions(a, l.server, x) then None else Entry(a, l))
    && forall l: Link :: l.client.proxy.None? && !IsOut(a, l) ==>
          Entry(b, l) == if l.client.name == x || Involves(a, l.server, x) then None else Entry(a, l)
  }

  lemma CleanupCleans(w: World, x: Name, ops: seq<Op>, w': World)
    requires FlowInvariant(w.services) && CleanupPlan(w.services, x, ops) && OpsRel(w, ops, w')
    ensures FlowInvariant(w'.services) && SameShape(w.services, w'.services) && CleanedUp(w.services, w'.services, x)
  {
    OpsKeepFlow(w, ops, w');
    OpsShape(w, ops, w');
    forall l: Link | l.client.proxy.Some?
      ensures Entry(w'.services, l) == if Mentions(w.services, l.server, x) then None else Entry(w.services, l)
    {
      if Entry(w.services, l).Some? {
        CleanupCuts(w.services, x, ops, l);
      }
    }
    forall l: Link | l.client.proxy.None? && !IsOut(w.services, l)
      ensures Entry(w'.services, l) ==
        if l.client.name == x || Involves(w.services, l.server, x) then None else Entry(w.services, l)
    {
      if Entry(w.services, l).Some? {
        CleanupCutsTriggers(w.services, x, ops, l);
      }
    }
  }

  lemma CleanupLeavesNoRoots(w: World, x: Name, ops: seq<Op>, w': World)
    requires FlowInvariant(w.services) && CleanupPlan(w.services, x, ops) && OpsRel(w, ops, w')
    ensures FlowInvariant(w'.services) && NoRootsThrough(w'.services, x) && NoTriggersFrom(w'.services, x)
    ensures SameShape(w.services, w'.services) && CleanedUp(w.services, w'.services, x)
  {
    CleanupCleans(w, x, ops, w');
    SameEdgeKinds(w.services, w'.services);
    ShapeFacts(w.services, w'.services);
    forall n ensures Involves(w'.services, n, x) ==> Involves(w.services, n, x) && Mentions(w.services, n, x) {}
  }

  // ----- dropping replicas that nothing uses -----

  /** `b` has the same entries and configurations as `a`, but may lack services and replicas without entries. */
  ghost predicate Trimmed(a: Services, b: Services) {
    && Unique(b)
    && (forall n, r :: Tab(b, n, r) == Tab(a, n, r))
    && (forall n :: n in b ==> n in a && b[n].config == a[n].config)
    && (forall n, r :: HasRep(b, n, r) ==> HasRep(a, n, r))
    && (forall n, r :: HasRep(a, n, r) && !HasRep(b, n, r) ==> Tab(a, n, r) == map[])
    && TriggersKept(a, b)
  }

  /** The replicas at which trigger chains start are still there. */
  ghost predicate TriggersKept(a: Services, b: Services) {
    forall l: Link :: Entry(a, l).Some? && l.client.proxy.None? && !IsOut(a, l) ==>
      l.client.replica.Some? && HasRep(b, l.client.name, l.client.replica.value)
  }

  lemma FewerReps(a: Services, b: Services, d: Name)
    requires Trimmed(a, b) && |Reps(a, d)| <= 1
    ensures |Reps(b, d)| <= 1
    ensures Reps(b, d) != [] ==> Sole(b, d) == Sole(a, d)
    ensures Reps(b, d) == [] ==> forall r :: Tab(a, d, r) == map[]
  {
    forall i | 0 <= i < |Reps(b, d)| ensures Reps(b, d)[i].Id() == Sole(a, d) {
      assert HasRep(b, d, Reps(b, d)[i].Id());
      SoleOf(a, d, Reps(b, d)[i].Id());
    }
    assert |Reps(b, d)| > 1 ==> Reps(b, d)[0].Id() == Reps(b, d)[1].Id();
    forall r ensures Reps(b, d) == [] ==> Tab(a, d, r) == map[] {
      if Reps(b, d) == [] {
        assert !HasRep(b, d, r);
        TabNeedsRep(a, d, r);
      }
    }
  }

  /** The source of an entry stays. */
  lemma TrimmedSource(a: Services, b: Services, l: Link)
    requires FlowInvariant(a) && Trimmed(a, b) && Entry(a, l).Some? && l.client.proxy.None?
    ensures l.client.replica.Some? && HasRep(b, l.client.name, l.client.replica.value) && l.client.name in b
  {
    assert LinkOk(a, l, Entry(a, l).value);
    if IsOut(a, l) {
      EntryIsOutLink(a, l);
      if !HasRep(b, l.client.name, l.client.replica.value) {
        NothingInNothingOut(a, l.client.name, l.client.replica.value);
        assert false;
      }
    }
  }

  lemma SameTriggers(a: Services, b: Services, n: Name, d: Name)
    requires TriggersTo(a, n, d) && Triggers(b, n) == Triggers(a, n)
    ensures TriggersTo(b, n, d)
  {
    var p :| TriggerAt(a, n, p) != [] && TriggerAt(a, n, p)[0] == d;
    assert TriggerAt(b, n, p) == TriggerAt(a, n, p);
  }

  lemma TrimmedLinked(a: Services, b: Services)
    requires FlowInvariant(a) && Trimmed(a, b)
    ensures Linked(b)
  {
    forall l | Entry(b, l).Some? ensures LinkOk(b, l, Entry(b, l).value) {
      assert Entry(a, l) == Entry(b, l);
      assert LinkOk(a, l, Entry(a, l).value);
      if l.client.proxy.None? {
        TrimmedSource(a, b, l);
        assert Deps(b, l.client.name) == Deps(a, l.client.name);
        if !IsOut(a, l) {
          SameTriggers(a, b, l.client.name, l.server);
        }
      }
    }
  }

  lemma TrimmedRegime(a: Services, b: Services)
    requires Regime(a) && Trimmed(a, b)
    ensures Regime(b)
    ensures forall n :: n in b ==> Deps(b, n) == Deps(a, n)
  {
    forall n, d | d in Deps(b, n) ensures |Reps(b, d)| <= 1 {
      assert d in Deps(a, n);
      FewerReps(a, b, d);
    }
    forall n, i | n in b && 0 <= i < |Deps(b, n)| && Deps(b, n)[i] in b
      ensures Deps(b, Deps(b, n)[i]) == Deps(b, n)[i + 1..]
    {
      assert n in a && Deps(a, n)[i] in a;
    }
    forall n, p | TriggerAt(b, n, p) != [] ensures ChainApart(b, n, p) {
      TrimmedApart(a, b, n, p);
    }
  }

  lemma TrimmedApart(a: Services, b: Services, n: Name, p: nat)
    requires Regime(a) && Trimmed(a, b) && TriggerAt(b, n, p) != []
    ensures ChainApart(b, n, p)
  {
    assert n in b && forall q :: TriggerAt(b, n, q) == TriggerAt(a, n, q);
    assert ChainApart(a, n, p);
    FewerReps(a, b, TriggerAt(a, n, p)[0]);
  }

  lemma TrimmedKeepsFlow(a: Services, b: Services)
    requires FlowInvariant(a) && Trimmed(a, b)
    ensures FlowInvariant(b)
  {
    TrimmedRegime(a, b);
    TrimmedLinked(a, b);
    forall n, r | HasRep(b, n, r) && Deps(b, n) != [] ensures Load(b, OutLink(b, n, r)) == Inflow(b, n, r, {}) {
      var d := Deps(b, n)[0];
      assert n in b && Deps(a, n) == Deps(b, n) && HasRep(a, n, r);
      FewerReps(a, b, d);
      assert Load(b, OutLink(b, n, r)) == Load(a, OutLink(a, n, r));
      assert Inflow(b, n, r, {}) == Inflow(a, n, r, {});
    }
  }

  lemma TrimmedOps(s: Services, x: Name)
    requires Unique(s) && Linked(s) && (forall r :: Tab(s, x, r) == map[]) && NoTriggersFrom(s, x)
    ensures Trimmed(s, Unregister(s, x))
    ensures Trimmed(s, Unregister(s, x) - {x})
  {
    UnregisterPorts(s, x);
    FinishRemoved(s, x);
    TrimmedByReps(s, Unregister(s, x), x);
    TrimmedByReps(s, Unregister(s, x) - {x}, x);
  }

  /** Only the replicas of `x` are gone, and they had no clients and started no trigger chains. */
  lemma TrimmedByReps(a: Services, b: Services, x: Name)
    requires Unique(b) && Linked(a) && (forall r :: Tab(a, x, r) == map[]) && NoTriggersFrom(a, x)
    requires forall m, r :: Tab(b, m, r) == if m == x then map[] else Tab(a, m, r)
    requires forall n :: n in b ==> n in a && b[n].config == a[n].config
    requires forall m :: Reps(b, m) == if m == x then [] else Reps(a, m)
    ensures Trimmed(a, b)
  {
    forall m, r ensures HasRep(b, m, r) <==> m != x && HasRep(a, m, r) {}
    forall l: Link | Entry(a, l).Some? && l.client.proxy.None? && !IsOut(a, l)
      ensures l.client.replica.Some? && HasRep(b, l.client.name, l.client.replica.value)
    {
      assert LinkOk(a, l, Entry(a, l).value);
    }
  }

  /** No trigger chain starts at a replica of `n` that goes. */
  ghost predicate NoTriggersAt(s: Services, n: Name, keep: ReplicaId -> bool) {
    forall l: Link, r :: l.client == ServiceClient(n, r) && !keep(r) && !IsOut(s, l) ==> Entry(s, l).None?
  }

  lemma TrimmedDrop(s: Services, n: Name, keep: ReplicaId -> bool)
    requires Unique(s) && Linked(s) && (forall r :: !keep(r) ==> Tab(s, n, r) == map[]) && NoTriggersAt(s, n, keep)
    ensures Trimmed(s, DropReplicas(s, n, keep))
  {
    var b := DropReplicas(s, n, keep);
    KeepPorts(s, n, keep);
    forall m, r ensures HasRep(b, m, r) <==> HasRep(s, m, r) && (m != n || keep(r)) {
      HasRepByPort(b, m, r);
      HasRepByPort(s, m, r);
    }
    forall l: Link | Entry(s, l).Some? && l.client.proxy.None? && !IsOut(s, l)
      ensures l.client.replica.Some? && HasRep(b, l.client.name, l.client.replica.value)
    {
      assert LinkOk(s, l, Entry(s, l).value);
      assert l.client == ServiceClient(l.client.name, l.client.replica.value);
    }
  }

  /** The cascade leaves exactly the chains that do not concern `x`, and keeps the flow balanced. */
  lemma CascadeCleans(w: World, x: Name, failed: bool, w': World)
    requires FlowInvariant(w.services) && CascadeRel(w, x, failed, w')
    ensures failed && x in w'.services ==> w'.services[x].Unregistered?
    ensures CleanedUp(w.services, w'.services, x)
    ensures Shrunk(w.services, w'.services) && FlowInvariant(w'.services)
    ensures NoRootsThrough(w'.services, x) && NoTriggersFrom(w'.services, x)
    ensures forall n, r :: n != x ==> Port(w'.services, n, r) == Port(w.services, n, r)
    ensures SameConfig(w.services, w'.services)
  {
    var ops, mid: World :| CleanupPlan(w.services, x, ops) && OpsRel(w, ops, mid)
      && w' == if failed then mid.(services := Unregister(mid.services, x)) else mid;
    CleanupLeavesNoRoots(w, x, ops, mid);
    OpsShrink(w, ops, mid);
    ShapeFacts(w.services, mid.services);
    if failed {
      UnregisteredKeepsFlow(mid.services, x);
      UnregisterPorts(mid.services, x);
      SameDeps(mid.services, w'.services);
    }
  }

  lemma SameDeps(a: Services, b: Services)
    requires SameConfig(a, b)
    ensures forall n :: Deps(b, n) == Deps(a, n)
    ensures forall l :: IsOut(b, l) == IsOut(a, l)
  {
  }

  lemma UnregisteredKeepsFlow(s: Services, x: Name)
    requires FlowInvariant(s) && NoRootsThrough(s, x) && NoTriggersFrom(s, x)
    ensures FlowInvariant(Unregister(s, x))
    ensures forall l :: Entry(Unregister(s, x), l) == Entry(s, l)
  {
    NothingThrough(s, x);
    assert Involves(s, x, x);
    TrimmedOps(s, x);
    TrimmedKeepsFlow(s, Unregister(s, x));
    forall l ensures Entry(Unregister(s, x), l) == Entry(s, l) {}
  }

  /**
   After the cascade for `x` nothing is served by `x` or comes from it. Users of services that do not mention `x`, and
   trigger chains that neither start at `x` nor pass it, keep their first edges and their whole chains; users of services
   that mention `x` and the other trigger chains are gone. Every entry that is left keeps its network, and the counts
   are exact.
   */
  lemma CascadeIsCompleteAndFramed(w: World, x: Name, failed: bool, w': World)
    requires FlowInvariant(w.services) && CascadeRel(w, x, failed, w')
    ensures failed && x in w'.services ==> w'.services[x].Unregistered?
    ensures forall l: Link :: l.server == x || (l.client.proxy.None? && l.client.name == x) ==> Entry(w'.services, l).None?
    ensures CleanedUp(w.services, w'.services, x)
    ensures Shrunk(w.services, w'.services) && FlowInvariant(w'.services)
    ensures forall l: Link :: Entry(w'.services, l).Some? ==>
      Alive(w'.services, ServiceClient(l.server, l.at), Deps(w.services, l.server))
    ensures forall n, r :: n != x ==> Port(w'.services, n, r) == Port(w.services, n, r)
    ensures SameConfig(w.services, w'.services)
  {
    CascadeCleans(w, x, failed, w');
    CascadeLeavesNothing(w'.services, x);
    forall l: Link | Entry(w'.services, l).Some?
      ensures Alive(w'.services, ServiceClient(l.server, l.at), Deps(w.services, l.server))
    {
      SurvivorKeepsChain(w.services, w'.services, l);
    }
  }

  lemma CascadeLeavesNothing(b: Services, x: Name)
    requires FlowInvariant(b) && NoRootsThrough(b, x) && NoTriggersFrom(b, x)
    ensures forall l: Link :: l.server == x || (l.client.proxy.None? && l.client.name == x) ==> Entry(b, l).None?
  {
    NothingThrough(b, x);
    assert Involves(b, x, x);
  }

  lemma SurvivorKeepsChain(a: Services, b: Services, l: Link)
    requires FlowInvariant(b) && SameConfig(a, b) && Entry(b, l).Some?
    ensures Alive(b, ServiceClient(l.server, l.at), Deps(a, l.server))
  {
    EntryNeedsRep(b, l);
    assert l.client in Tab(b, l.server, l.at);
    UsedIsAlive(b, l.server, l.at);
  }
}
