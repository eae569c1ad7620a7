/** The pool of VLAN and VXLAN IDs (src/net_id_pool.rs). */
module NetIdPool {
  import opened Types

  const MIN_NET_ID: nat := 101

  function MaxNetId(net: NetType): nat {
    match net
    case Vlan => 4094
    case Vxlan => 2_097_151
  }

  datatype PoolState = PoolState(net: NetType, nextFresh: nat, freed: set<nat>)

  function Fresh(net: NetType): PoolState {
    PoolState(net, MIN_NET_ID, {})
  }

  /** Every freed ID was handed out before. */
  ghost predicate Valid(p: PoolState) {
    && MIN_NET_ID <= p.nextFresh <= MaxNetId(p.net) + 1
    && forall id: nat :: id in p.freed ==> MIN_NET_ID <= id < p.nextFresh
  }

  /** The ID is handed out and not yet given back. */
  predicate Live(p: PoolState, id: nat) {
    MIN_NET_ID <= id < p.nextFresh && id !in p.freed
  }

  function LiveIds(p: PoolState): set<nat> {
    set id: nat | MIN_NET_ID <= id < p.nextFresh && id !in p.freed
  }

  /** The least element, as the first step of an ordered iteration finds it. */
  function Least(s: set<nat>): (m: nat)
    requires s != {}
    ensures m in s && forall x :: x in s ==> m <= x
  {
    LeastExists(s);
    assert forall m :: IsLeast(s, m) ==> m in s && forall x :: x in s ==> m <= x;
    var m :| m in s && forall x :: x in s ==> m <= x;
    m
  }

  ghost predicate IsLeast(s: set<nat>, m: nat) {
    m in s && forall x :: x in s ==> m <= x
  }

  lemma {:induction false} LeastExists(s: set<nat>)
    requires s != {}
    ensures exists m :: IsLeast(s, m)
  {
    var y :| y in s;
    var rest := s - {y};
    assert forall x :: x in s <==> x == y || x in rest;
    if rest == {} {
      assert IsLeast(s, y);
    } else {
      LeastExists(rest);
      var m :| IsLeast(rest, m);
      assert IsLeast(s, if y < m then y else m);
    }
  }

  function Allocate(p: PoolState): (PoolState, Option<nat>) {
    if p.freed != {} then
      var id := Least(p.freed);
      (p.(freed := p.freed - {id}), Some(id))
    else if p.nextFresh <= MaxNetId(p.net) then
      (p.(nextFresh := p.nextFresh + 1), Some(p.nextFresh))
    else
      (p, None)
  }

  function Free(p: PoolState, id: nat): PoolState {
    if MIN_NET_ID <= id <= MaxNetId(p.net) then p.(freed := p.freed + {id}) else p
  }

  // ----- the reference: a set of live IDs, and a search for the least ID outside it -----

  function LeastUnused(net: NetType, live: set<nat>): Option<nat> {
    UnusedFrom(net, live, MIN_NET_ID)
  }

  function UnusedFrom(net: NetType, live: set<nat>, from: nat): (r: Option<nat>)
    ensures r.None? ==> forall id: nat :: from <= id <= MaxNetId(net) ==> id in live
    ensures r.Some? ==> from <= r.value <= MaxNetId(net) && r.value !in live
    ensures r.Some? ==> forall id: nat :: from <= id < r.value ==> id in live
    decreases MaxNetId(net) + 1 - from
  {
    if from > MaxNetId(net) then None
    else if from !in live then Some(from)
    else UnusedFrom(net, live, from + 1)
  }

  /** There is at most one least unused ID. */
  lemma UnusedIs(net: NetType, live: set<nat>, from: nat, id: nat)
    requires from <= id <= MaxNetId(net) + 1
    requires id !in live && forall x: nat :: from <= x < id ==> x in live
    ensures UnusedFrom(net, live, from) == if id <= MaxNetId(net) then Some(id) else None
  {
    var r := UnusedFrom(net, live, from);
    assert r.Some? ==> !(r.value < id) && !(id < r.value);
  }

  datatype PoolOp = Acquire | Release(id: nat)

  function Run(p: PoolState, ops: seq<PoolOp>): (PoolState, seq<Option<nat>>)
    decreases |ops|
  {
    if ops == [] then (p, [])
    else match ops[0]
      case Acquire =>
        var (q, got) := Allocate(p);
        var (last, answers) := Run(q, ops[1..]);
        (last, [got] + answers)
      case Release(id) => Run(Free(p, id), ops[1..])
  }

  function ReferenceRun(net: NetType, live: set<nat>, ops: seq<PoolOp>): (set<nat>, seq<Option<nat>>)
    decreases |ops|
  {
    if ops == [] then (live, [])
    else match ops[0]
      case Acquire =>
        var got := LeastUnused(net, live);
        var (last, answers) := ReferenceRun(net, if got.Some? then live + {got.value} else live, ops[1..]);
        (last, [got] + answers)
      case Release(id) => ReferenceRun(net, live - {id}, ops[1..])
  }

  /** No release names an ID that is in range and was never handed out. */
  ghost predicate Disciplined(p: PoolState, ops: seq<PoolOp>)
    decreases |ops|
  {
    ops == [] || match ops[0]
      case Acquire => Disciplined(Allocate(p).0, ops[1..])
      case Release(id) => !(p.nextFresh <= id <= MaxNetId(p.net)) && Disciplined(Free(p, id), ops[1..])
  }

  /** VLAN networks have the IDs 101 to 4094, VXLAN networks 101 to 2097151; the pool is exhausted when all are live. */
  lemma PoolCapacity(p: PoolState)
    requires Valid(p)
    ensures Allocate(p).1.None? <==>
      forall id: nat :: 101 <= id <= (if p.net == Vlan then 4094 else 2_097_151) ==> Live(p, id)
    ensures Allocate(p).1.Some? ==> 101 <= Allocate(p).1.value <= if p.net == Vlan then 4094 else 2_097_151
  {
    AllocateSpec(p);
    assert p.nextFresh <= MaxNetId(p.net) ==> !Live(p, p.nextFresh);
    if p.freed != {} {
      assert !Live(p, Least(p.freed));
    }
  }

  lemma AllocateSpec(p: PoolState)
    requires Valid(p)
    ensures var (q, got) := Allocate(p);
      && Valid(q) && q.net == p.net
      && got == LeastUnused(p.net, LiveIds(p))
      && LiveIds(q) == (if got.Some? then LiveIds(p) + {got.value} else LiveIds(p))
      && (got.Some? ==> MIN_NET_ID <= got.value <= MaxNetId(p.net) && !Live(p, got.value))
      && (got.None? ==> q == p)
      && forall id: nat :: Live(q, id) <==> Live(p, id) || got == Some(id)
  {
    var next := if p.freed != {} then Least(p.freed) else p.nextFresh;
    assert next !in LiveIds(p);
    assert forall id: nat :: MIN_NET_ID <= id < next ==> id in LiveIds(p);
    UnusedIs(p.net, LiveIds(p), MIN_NET_ID, next);
  }

  /** A release leaves the pool sound exactly when it does not name an ID in range that was never handed out. */
  lemma FreeIsSoundIffIssued(p: PoolState, id: nat)
    requires Valid(p)
    ensures Valid(Free(p, id)) <==> !(p.nextFresh <= id <= MaxNetId(p.net))
    ensures forall x: nat :: Live(Free(p, id), x) <==> Live(p, x) && x != id
  {
    if p.nextFresh <= id <= MaxNetId(p.net) {
      assert id in Free(p, id).freed;
    }
  }

  /** Releasing an ID that was never handed out makes the pool hand it out twice. */
  lemma UndisciplinedReleaseDuplicates()
    ensures Run(Fresh(Vlan), [Release(101), Acquire, Acquire]).1 == [Some(101), Some(101)]
  {
    var ops := [Release(101), Acquire, Acquire];
    var p1 := Free(Fresh(Vlan), 101);
    assert p1.freed == {101};
    assert Least(p1.freed) == 101;
    var p2 := Allocate(p1).0;
    assert p2.freed == {} && p2.nextFresh == 101;
    assert ops[1..] == [Acquire, Acquire] && ops[1..][1..] == [Acquire];
    assert Run(p2, [Acquire]).1 == [Some(101)] by {
      assert [Acquire][1..] == [];
    }
    assert Run(p1, ops[1..]).1 == [Some(101)] + Run(p2, [Acquire]).1;
  }

  /** Over every disciplined run the two-part state behaves as the least-unused-ID reference. */
  lemma {:induction false} PoolRefinesLeastUnused(p: PoolState, ops: seq<PoolOp>)
    requires Valid(p) && Disciplined(p, ops)
    ensures var (q, answers) := Run(p, ops);
      && Valid(q)
      && ReferenceRun(p.net, LiveIds(p), ops) == (LiveIds(q), answers)
      && |LiveIds(q)| + |q.freed| == q.nextFresh - MIN_NET_ID
    decreases |ops|
  {
    if ops == [] {
      CountIds(p);
    } else {
      match ops[0]
      case Acquire =>
        AllocateSpec(p);
        PoolRefinesLeastUnused(Allocate(p).0, ops[1..]);
      case Release(id) =>
        FreeIsSoundIffIssued(p, id);
        assert LiveIds(Free(p, id)) == LiveIds(p) - {id};
        PoolRefinesLeastUnused(Free(p, id), ops[1..]);
    }
  }

  /** `in_use` of the source: handed out, minus given back. */
  lemma CountIds(p: PoolState)
    requires Valid(p)
    ensures |LiveIds(p)| + |p.freed| == p.nextFresh - MIN_NET_ID
  {
    assert Range(MIN_NET_ID, p.nextFresh) == LiveIds(p) + p.freed && LiveIds(p) !! p.freed;
  }

  ghost function Range(lo: nat, hi: nat): (all: set<nat>)
    requires lo <= hi
    ensures |all| == hi - lo
    ensures forall id: nat :: id in all <==> lo <= id < hi
    decreases hi
  {
    if lo == hi then {} else Range(lo, hi - 1) + {hi - 1}
  }

  class IdPool {
    const net: NetType
    var nextFresh: nat
    var freed: set<nat>

    ghost function State(): PoolState
      reads this
    {
      PoolState(net, nextFresh, freed)
    }

    constructor (net: NetType)
      ensures State() == Fresh(net) && Valid(State())
    {
      this.net := net;
      nextFresh, freed := MIN_NET_ID, {};
    }

    method Acquire() returns (got: Option<nat>)
      modifies this
      ensures (State(), got) == Allocate(old(State()))
      ensures old(Valid(State())) ==> Valid(State()) && got == LeastUnused(net, LiveIds(old(State())))
    {
      ghost var before := State();
      if freed != {} {
        var id := Least(freed);
        freed := freed - {id};
        got := Some(id);
      } else if nextFresh <= MaxNetId(net) {
        got := Some(nextFresh);
        nextFresh := nextFresh + 1;
      } else {
        got := None;
      }
      if Valid(before) {
        AllocateSpec(before);
      }
    }

    method Release(id: nat)
      modifies this
      ensures State() == Free(old(State()), id)
      ensures old(Valid(State())) && !(old(nextFresh) <= id <= MaxNetId(net)) ==>
        Valid(State()) && LiveIds(State()) == LiveIds(old(State())) - {id}
    {
      if MIN_NET_ID <= id <= MaxNetId(net) {
        freed := freed + {id};
      }
    }
  }
}
