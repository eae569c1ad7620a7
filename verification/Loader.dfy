/** From the declared services to the table of services (src/services/input.rs:90-147). */
module Loader {
  import opened Types
  import opened ServiceTable
  import opened Chains
  import opened Changes
  import opened Reconcile
  import opened Flow
  import opened FlowTeardown

  datatype TriggerToml = TriggerToml(port: nat, chain: seq<Name>)

  datatype ServiceToml = ServiceToml(
    name: Name,
    timeout: Option<nat>,
    proxyDeps: seq<Name>,
    triggers: seq<TriggerToml>,
    maxNetworks: Option<nat>)

  /** What follows the first occurrence of `elem`. */
  function TailAfter(list: seq<Name>, elem: Name): seq<Name> {
    if list == [] then [] else if list[0] == elem then list[1..] else TailAfter(list[1..], elem)
  }

  // ----- what the loaded table is, name by name -----

  /** The last declaration of the name. */
  function Declared(services: seq<ServiceToml>, n: Name): Option<ServiceToml> {
    if services == [] then None
    else if services[|services| - 1].name == n then Some(services[|services| - 1])
    else Declared(services[..|services| - 1], n)
  }

  /** What follows the name in the last list that mentions it. */
  function Mentioned(services: seq<ServiceToml>, n: Name): Option<seq<Name>> {
    if services == [] then None
    else if n in services[|services| - 1].proxyDeps then Some(TailAfter(services[|services| - 1].proxyDeps, n))
    else Mentioned(services[..|services| - 1], n)
  }

  function TriggerNames(services: seq<ServiceToml>): set<Name> {
    set s, t, d | s in services && t in s.triggers && d in t.chain :: d
  }

  /** Later entries replace earlier ones. */
  function TriggersOf(triggers: seq<TriggerToml>): map<nat, seq<Name>> {
    if triggers == [] then map[]
    else TriggersOf(triggers[..|triggers| - 1])[triggers[|triggers| - 1].port := triggers[|triggers| - 1].chain]
  }

  function Explicit(s: ServiceToml, timeout: nat): ServiceInfo {
    Unregistered(Config(s.proxyDeps, TriggersOf(s.triggers),
                        Some(if s.timeout.Some? then s.timeout.value else timeout), s.maxNetworks))
  }

  function Implicit(deps: seq<Name>): ServiceInfo {
    Unregistered(Config(deps, map[], None, None))
  }

  /** A declaration wins over a mention, a proxy dependency over a trigger's. */
  function LoadedInfo(services: seq<ServiceToml>, timeout: nat, n: Name): Option<ServiceInfo> {
    if Declared(services, n).Some? then Some(Explicit(Declared(services, n).value, timeout))
    else if Mentioned(services, n).Some? then Some(Implicit(Mentioned(services, n).value))
    else if n in TriggerNames(services) then Some(Implicit([]))
    else None
  }

  /** `loaded` has exactly the names that are declared, mentioned or triggered, each with its configuration. */
  ghost predicate IsLoaded(services: seq<ServiceToml>, timeout: nat, loaded: Services) {
    forall n :: (if n in loaded then Some(loaded[n]) else None) == LoadedInfo(services, timeout, n)
  }

  // ----- the loader -----

  method CollectMentions(accum: map<Name, seq<Name>>, deps: seq<Name>) returns (after: map<Name, seq<Name>>)
    ensures forall n :: n in after <==> n in accum || n in deps
    ensures forall n :: n in after ==> after[n] == if n in deps then TailAfter(deps, n) else accum[n]
  {
    after := accum;
    for j := 0 to |deps|
      invariant forall n :: n in after <==> n in accum || n in deps[..j]
      invariant forall n :: n in after ==> after[n] == if n in deps[..j] then TailAfter(deps, n) else accum[n]
    {
      assert forall n :: n in deps[..j + 1] <==> n in deps[..j] || n == deps[j];
      after := after[deps[j] := TailAfter(deps, deps[j])];
    }
    assert deps[..|deps|] == deps;
  }

  method CollectTriggerNames(names: set<Name>, triggers: seq<TriggerToml>) returns (after: set<Name>)
    ensures after == names + set t, d | t in triggers && d in t.chain :: d
  {
    after := names;
    for j := 0 to |triggers|
      invariant after == names + set t, d | t in triggers[..j] && d in t.chain :: d
    {
      ghost var before := after;
      var chain := triggers[j].chain;
      for k := 0 to |chain|
        invariant after == before + set d | d in chain[..k]
      {
        assert forall d :: d in chain[..k + 1] <==> d in chain[..k] || d == chain[k];
        after := after + {chain[k]};
      }
      assert chain[..|chain|] == chain;
      assert forall t :: t in triggers[..j + 1] <==> t in triggers[..j] || t == triggers[j];
    }
    assert triggers[..|triggers|] == triggers;
  }

  lemma MentionedAppend(services: seq<ServiceToml>, i: nat, n: Name)
    requires i < |services|
    ensures Mentioned(services[..i + 1], n) ==
      if n in services[i].proxyDeps then Some(TailAfter(services[i].proxyDeps, n)) else Mentioned(services[..i], n)
    ensures Declared(services[..i + 1], n) ==
      if services[i].name == n then Some(services[i]) else Declared(services[..i], n)
  {
    assert services[..i + 1][..i] == services[..i];
  }

  lemma TriggerNamesAppend(services: seq<ServiceToml>, i: nat)
    requires i < |services|
    ensures TriggerNames(services[..i + 1]) ==
      TriggerNames(services[..i]) + set t, d | t in services[i].triggers && d in t.chain :: d
  {
    assert forall s :: s in services[..i + 1] <==> s in services[..i] || s == services[i];
  }

  ghost predicate IsAccum(services: seq<ServiceToml>, accum: map<Name, seq<Name>>) {
    forall n :: (if n in accum then Some(accum[n]) else None) == Mentioned(services, n)
  }

  method Collect(services: seq<ServiceToml>) returns (accum: map<Name, seq<Name>>, names: set<Name>)
    ensures IsAccum(services, accum) && names == TriggerNames(services)
  {
    accum, names := map[], {};
    for i := 0 to |services|
      invariant IsAccum(services[..i], accum) && names == TriggerNames(services[..i])
    {
      accum := CollectMentions(accum, services[i].proxyDeps);
      names := CollectTriggerNames(names, services[i].triggers);
      forall n ensures (if n in accum then Some(accum[n]) else None) == Mentioned(services[..i + 1], n) {
        MentionedAppend(services, i, n);
      }
      TriggerNamesAppend(services, i);
    }
    assert services[..|services|] == services;
  }

  method CollectTriggers(triggers: seq<TriggerToml>) returns (r: map<nat, seq<Name>>)
    ensures r == TriggersOf(triggers)
  {
    r := map[];
    for j := 0 to |triggers|
      invariant r == TriggersOf(triggers[..j])
    {
      assert triggers[..j + 1][..j] == triggers[..j];
      r := r[triggers[j].port := triggers[j].chain];
    }
    assert triggers[..|triggers|] == triggers;
  }

  /** The implicit services: proxy dependencies first, then whatever only a trigger names. */
  method ImplicitServices(accum: map<Name, seq<Name>>, names: set<Name>) returns (r: Services)
    ensures r.Keys == accum.Keys + names
    ensures forall n :: n in r ==> r[n] == Implicit(if n in accum then accum[n] else [])
  {
    r := map[];
    var todo := accum.Keys;
    while todo != {}
      invariant todo <= accum.Keys && r.Keys == accum.Keys - todo
      invariant forall n :: n in r ==> r[n] == Implicit(accum[n])
    {
      var n :| n in todo;
      todo := todo - {n};
      r := r[n := Implicit(accum[n])];
    }
    todo := names;
    while todo != {}
      invariant todo <= names && r.Keys == accum.Keys + (names - todo)
      invariant forall n :: n in r ==> r[n] == Implicit(if n in accum then accum[n] else [])
    {
      var n :| n in todo;
      todo := todo - {n};
      if n !in r {
        r := r[n := Implicit([])];
      }
    }
  }

  /** `loaded` is `implicit` with the declared services put over it. */
  ghost predicate DeclaredOver(services: seq<ServiceToml>, timeout: nat, implicit: Services, loaded: Services) {
    && loaded.Keys == implicit.Keys + (set s | s in services :: s.name)
    && forall n :: n in loaded ==>
         if Declared(services, n).Some? then loaded[n] == Explicit(Declared(services, n).value, timeout)
         else n in implicit && loaded[n] == implicit[n]
  }

  lemma {:induction false} DeclaredNames(services: seq<ServiceToml>, n: Name)
    ensures Declared(services, n).Some? <==> exists s :: s in services && s.name == n
    ensures Declared(services, n).Some? ==> Declared(services, n).value in services && Declared(services, n).value.name == n
  {
    if services != [] {
      var before, last := services[..|services| - 1], services[|services| - 1];
      DeclaredNames(before, n);
      assert forall s :: s in services <==> s in before || s == last;
    }
  }

  lemma DeclaredStep(services: seq<ServiceToml>, timeout: nat, implicit: Services, i: nat, loaded: Services)
    requires i < |services| && DeclaredOver(services[..i], timeout, implicit, loaded)
    ensures DeclaredOver(services[..i + 1], timeout, implicit,
                         loaded[services[i].name := Explicit(services[i], timeout)])
  {
    forall n ensures Declared(services[..i + 1], n) ==
      if services[i].name == n then Some(services[i]) else Declared(services[..i], n)
    {
      MentionedAppend(services, i, n);
    }
    assert forall x :: x in services[..i + 1] <==> x in services[..i] || x == services[i];
  }

  lemma DeclaredOverIsLoaded(services: seq<ServiceToml>, timeout: nat, accum: map<Name, seq<Name>>,
                             implicit: Services, loaded: Services)
    requires IsAccum(services, accum)
    requires implicit.Keys == accum.Keys + TriggerNames(services)
    requires forall n :: n in implicit ==> implicit[n] == Implicit(if n in accum then accum[n] else [])
    requires DeclaredOver(services, timeout, implicit, loaded)
    ensures IsLoaded(services, timeout, loaded)
  {
    forall n ensures (if n in loaded then Some(loaded[n]) else None) == LoadedInfo(services, timeout, n) {
      DeclaredNames(services, n);
      assert (if n in accum then Some(accum[n]) else None) == Mentioned(services, n);
    }
  }

  /** `services_map`. */
  method ServicesMap(services: seq<ServiceToml>, timeout: nat) returns (loaded: Services)
    ensures IsLoaded(services, timeout, loaded)
  {
    var accum, names := Collect(services);
    var implicit := ImplicitServices(accum, names);
    loaded := implicit;
    for i := 0 to |services|
      invariant DeclaredOver(services[..i], timeout, implicit, loaded)
    {
      var s := services[i];
      var triggers := CollectTriggers(s.triggers);
      DeclaredStep(services, timeout, implicit, i, loaded);
      loaded := loaded[s.name := Unregistered(Config(s.proxyDeps, triggers,
        Some(if s.timeout.Some? then s.timeout.value else timeout), s.maxNetworks))];
    }
    assert services[..|services|] == services;
    DeclaredOverIsLoaded(services, timeout, accum, implicit, loaded);
  }

  // ----- closure -----

  lemma LoadedAt(services: seq<ServiceToml>, timeout: nat, loaded: Services, n: Name)
    requires IsLoaded(services, timeout, loaded)
    ensures n in loaded <==> LoadedInfo(services, timeout, n).Some?
    ensures n in loaded ==> loaded[n] == LoadedInfo(services, timeout, n).value
  {
    assert (if n in loaded then Some(loaded[n]) else None) == LoadedInfo(services, timeout, n);
  }

  lemma {:induction false} TailIsPart(list: seq<Name>, elem: Name)
    ensures forall d :: d in TailAfter(list, elem) ==> d in list
  {
    if list != [] && list[0] != elem {
      TailIsPart(list[1..], elem);
    }
  }

  lemma {:induction false} MentionedBySome(services: seq<ServiceToml>, n: Name)
    ensures Mentioned(services, n).Some? <==> exists s :: s in services && n in s.proxyDeps
    ensures Mentioned(services, n).Some? ==>
      exists s :: s in services && n in s.proxyDeps && Mentioned(services, n).value == TailAfter(s.proxyDeps, n)
  {
    if services != [] {
      var before, last := services[..|services| - 1], services[|services| - 1];
      MentionedBySome(before, n);
      assert forall s :: s in services <==> s in before || s == last;
    }
  }

  lemma {:induction false} TriggersListed(triggers: seq<TriggerToml>, p: nat)
    requires p in TriggersOf(triggers)
    ensures exists t :: t in triggers && t.chain == TriggersOf(triggers)[p]
  {
    var before, last := triggers[..|triggers| - 1], triggers[|triggers| - 1];
    assert forall t :: t in triggers <==> t in before || t == last;
    if p != last.port {
      TriggersListed(before, p);
    }
  }

  ghost predicate Closed(s: Services) {
    forall n, d :: n in s && DepsContain(s[n].config, d) ==> d in s
  }

  lemma DepIsLoaded(services: seq<ServiceToml>, timeout: nat, loaded: Services, s: ServiceToml, d: Name)
    requires IsLoaded(services, timeout, loaded) && s in services
    ensures d in s.proxyDeps ==> d in loaded
    ensures d in TriggerNames(services) ==> d in loaded
  {
    LoadedAt(services, timeout, loaded, d);
    MentionedBySome(services, d);
  }

  /** Every name that a loaded service depends on, directly or through a trigger, is itself loaded. */
  lemma LoadedIsClosed(services: seq<ServiceToml>, timeout: nat, loaded: Services)
    requires IsLoaded(services, timeout, loaded)
    ensures Closed(loaded) && FromFile(loaded)
  {
    forall n, d | n in loaded && DepsContain(loaded[n].config, d) ensures d in loaded {
      LoadedAt(services, timeout, loaded, n);
      DeclaredNames(services, n);
      MentionedBySome(services, n);
      var declared := Declared(services, n);
      if declared.Some? {
        var s := declared.value;
        DepIsLoaded(services, timeout, loaded, s, d);
        if d !in s.proxyDeps {
          var p :| p in TriggersOf(s.triggers) && d in TriggersOf(s.triggers)[p];
          TriggersListed(s.triggers, p);
        }
      } else {
        var s :| s in services && n in s.proxyDeps && Mentioned(services, n).value == TailAfter(s.proxyDeps, n);
        TailIsPart(s.proxyDeps, n);
        DepIsLoaded(services, timeout, loaded, s, d);
      }
    }
    forall n | n in loaded ensures loaded[n].Unregistered? {
      LoadedAt(services, timeout, loaded, n);
    }
  }

  // ----- coherence -----

  ghost predicate NoRepeats(list: seq<Name>) {
    forall i, j :: 0 <= i < j < |list| ==> list[i] != list[j]
  }

  /** The declared lists agree on what follows each service. */
  ghost predicate Agreeing(services: seq<ServiceToml>) {
    && (forall s :: s in services ==> NoRepeats(s.proxyDeps))
    && (forall s, t, d :: s in services && t in services && d in s.proxyDeps && d in t.proxyDeps ==>
          TailAfter(s.proxyDeps, d) == TailAfter(t.proxyDeps, d))
    && (forall s, t :: s in services && t in services && t.name in s.proxyDeps ==>
          t.proxyDeps == TailAfter(s.proxyDeps, t.name))
  }

  lemma {:induction false} TailAt(list: seq<Name>, i: nat)
    requires NoRepeats(list) && i < |list|
    ensures TailAfter(list, list[i]) == list[i + 1..]
  {
    if i > 0 {
      assert list[0] != list[i];
      assert list[1..][i - 1] == list[i] && list[1..][i..] == list[i + 1..];
      TailAt(list[1..], i - 1);
    }
  }

  /** What a mentioned service is loaded with. */
  lemma MentionedTail(services: seq<ServiceToml>, timeout: nat, loaded: Services, s: ServiceToml, d: Name)
    requires IsLoaded(services, timeout, loaded) && Agreeing(services) && s in services && d in s.proxyDeps
    ensures d in loaded && Deps(loaded, d) == TailAfter(s.proxyDeps, d)
  {
    LoadedAt(services, timeout, loaded, d);
    DeclaredNames(services, d);
    MentionedBySome(services, d);
    if Declared(services, d).None? {
      var t :| t in services && d in t.proxyDeps && Mentioned(services, d).value == TailAfter(t.proxyDeps, d);
    }
  }

  /** A loaded list is a declared list, or the end of one. */
  lemma LoadedIsSuffix(services: seq<ServiceToml>, timeout: nat, loaded: Services, n: Name) returns (s: ServiceToml,
                       k: nat)
    requires IsLoaded(services, timeout, loaded) && Agreeing(services) && Deps(loaded, n) != []
    ensures s in services && k <= |s.proxyDeps| && Deps(loaded, n) == s.proxyDeps[k..]
  {
    LoadedAt(services, timeout, loaded, n);
    DeclaredNames(services, n);
    MentionedBySome(services, n);
    if Declared(services, n).Some? {
      s, k := Declared(services, n).value, 0;
    } else {
      s :| s in services && n in s.proxyDeps && Mentioned(services, n).value == TailAfter(s.proxyDeps, n);
      var i :| 0 <= i < |s.proxyDeps| && s.proxyDeps[i] == n;
      TailAt(s.proxyDeps, i);
      k := i + 1;
    }
  }

  lemma LoadedTail(services: seq<ServiceToml>, timeout: nat, loaded: Services, n: Name, i: nat)
    requires IsLoaded(services, timeout, loaded) && Agreeing(services)
    requires n in loaded && i < |Deps(loaded, n)| && Deps(loaded, n)[i] in loaded
    ensures Deps(loaded, Deps(loaded, n)[i]) == Deps(loaded, n)[i + 1..]
  {
    var s, k := LoadedIsSuffix(services, timeout, loaded, n);
    var d := Deps(loaded, n)[i];
    TailOfSuffix(s.proxyDeps, k, i);
    MentionedTail(services, timeout, loaded, s, d);
  }

  lemma TailOfSuffix(list: seq<Name>, k: nat, i: nat)
    requires NoRepeats(list) && k + i < |list|
    ensures list[k..][i] in list && TailAfter(list, list[k..][i]) == list[k..][i + 1..]
  {
    assert list[k..][i] == list[k + i] && list[k..][i + 1..] == list[k + i + 1..];
    TailAt(list, k + i);
  }

  /** Lists that agree load into a coherent table, on which every dependency walk ends. */
  lemma AgreeingIsCoherent(services: seq<ServiceToml>, timeout: nat, loaded: Services)
    requires IsLoaded(services, timeout, loaded) && Agreeing(services)
    ensures Coherent(loaded) && Acyclic(loaded)
    ensures forall n, d :: n in loaded && d in Deps(loaded, n) ==> |Deps(loaded, d)| < |Deps(loaded, n)|
  {
    forall n, i | n in loaded && 0 <= i < |Deps(loaded, n)| && Deps(loaded, n)[i] in loaded
      ensures Deps(loaded, Deps(loaded, n)[i]) == Deps(loaded, n)[i + 1..]
    {
      LoadedTail(services, timeout, loaded, n, i);
    }
    CoherentIsAcyclic(loaded);
    LoadedIsClosed(services, timeout, loaded);
    forall n, d | n in loaded && d in Deps(loaded, n) ensures |Deps(loaded, d)| < |Deps(loaded, n)| {
      var i :| 0 <= i < |Deps(loaded, n)| && Deps(loaded, n)[i] == d;
      assert DepsContain(loaded[n].config, d);
      LoadedTail(services, timeout, loaded, n, i);
    }
  }

  ghost predicate DistinctNames(services: seq<ServiceToml>) {
    forall i, j :: 0 <= i < j < |services| ==> services[i].name != services[j].name
  }

  lemma {:induction false} DeclaredOnce(services: seq<ServiceToml>, s: ServiceToml)
    requires DistinctNames(services) && s in services
    ensures Declared(services, s.name) == Some(s)
  {
    var before, last := services[..|services| - 1], services[|services| - 1];
    if s != last {
      assert s in before;
      DeclaredOnce(before, s);
    }
  }

  lemma CoherentTail(services: seq<ServiceToml>, timeout: nat, loaded: Services, s: ServiceToml, i: nat)
    requires IsLoaded(services, timeout, loaded) && DistinctNames(services) && Coherent(loaded)
    requires s in services && i < |s.proxyDeps|
    ensures s.name in loaded && Deps(loaded, s.name) == s.proxyDeps && s.proxyDeps[i] in loaded
    ensures Deps(loaded, s.proxyDeps[i]) == s.proxyDeps[i + 1..]
  {
    LoadedAt(services, timeout, loaded, s.name);
    DeclaredOnce(services, s);
    DepIsLoaded(services, timeout, loaded, s, s.proxyDeps[i]);
  }

  lemma CoherentNoRepeats(services: seq<ServiceToml>, timeout: nat, loaded: Services, s: ServiceToml)
    requires IsLoaded(services, timeout, loaded) && DistinctNames(services) && Coherent(loaded) && s in services
    ensures NoRepeats(s.proxyDeps)
  {
    forall i, j | 0 <= i < j < |s.proxyDeps| ensures s.proxyDeps[i] != s.proxyDeps[j] {
      CoherentTail(services, timeout, loaded, s, i);
      LinksDistinct(loaded, s.name, ReplicaId(0, None), i, j);
    }
  }

  lemma CoherentTailAfter(services: seq<ServiceToml>, timeout: nat, loaded: Services, s: ServiceToml, d: Name)
    requires IsLoaded(services, timeout, loaded) && DistinctNames(services) && Coherent(loaded)
    requires s in services && d in s.proxyDeps
    ensures TailAfter(s.proxyDeps, d) == Deps(loaded, d)
  {
    var i :| 0 <= i < |s.proxyDeps| && s.proxyDeps[i] == d;
    CoherentNoRepeats(services, timeout, loaded, s);
    CoherentTail(services, timeout, loaded, s, i);
    TailAt(s.proxyDeps, i);
  }

  lemma CoherentMeansAgreeing(services: seq<ServiceToml>, timeout: nat, loaded: Services)
    requires IsLoaded(services, timeout, loaded) && DistinctNames(services) && Coherent(loaded)
    ensures Agreeing(services)
  {
    forall s | s in services ensures NoRepeats(s.proxyDeps) {
      CoherentNoRepeats(services, timeout, loaded, s);
    }
    forall s, t, d | s in services && t in services && d in s.proxyDeps && d in t.proxyDeps
      ensures TailAfter(s.proxyDeps, d) == TailAfter(t.proxyDeps, d)
    {
      CoherentTailAfter(services, timeout, loaded, s, d);
      CoherentTailAfter(services, timeout, loaded, t, d);
    }
    forall s, t | s in services && t in services && t.name in s.proxyDeps
      ensures t.proxyDeps == TailAfter(s.proxyDeps, t.name)
    {
      CoherentTailAfter(services, timeout, loaded, s, t.name);
      LoadedAt(services, timeout, loaded, t.name);
      DeclaredOnce(services, t);
    }
  }

  /** For a file that declares no name twice, the loaded table is coherent exactly when the lists agree. */
  lemma CoherentIffAgreeing(services: seq<ServiceToml>, timeout: nat, loaded: Services)
    requires IsLoaded(services, timeout, loaded) && DistinctNames(services)
    ensures Coherent(loaded) <==> Agreeing(services)
  {
    if Agreeing(services) {
      AgreeingIsCoherent(services, timeout, loaded);
    }
    if Coherent(loaded) {
      CoherentMeansAgreeing(services, timeout, loaded);
    }
  }

  lemma RanksFall(s: Services, rank: Name -> nat, n: Name, d: Name)
    requires IsRanking(s, rank) && n in s && d in Deps(s, n)
    ensures rank(d) < rank(n)
  {
  }

  /** A service that lists itself is loaded as it is; `Counterexamples.SelfDependencyNeverEnds` says what comes of it. */
  lemma SelfDependencyIsCyclic(name: Name, timeout: nat, loaded: Services)
    requires IsLoaded([ServiceToml(name, None, [name], [], None)], timeout, loaded)
    ensures !Acyclic(loaded)
  {
    var services := [ServiceToml(name, None, [name], [], None)];
    LoadedAt(services, timeout, loaded, name);
    DeclaredOnce(services, services[0]);
    assert name in loaded && name in Deps(loaded, name);
    forall rank: Name -> nat ensures !IsRanking(loaded, rank) {
      if IsRanking(loaded, rank) {
        RanksFall(loaded, rank, name, name);
      }
    }
  }
}
