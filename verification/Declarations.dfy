/** What a declared, a mentioned and a triggered service is loaded with (src/services/input.rs:90-147). */
module Declarations {
  import opened Types
  import opened Loader

  /** Number `i` is the last declaration of its name. */
  ghost predicate LastOfName(services: seq<ServiceToml>, i: nat) {
    i < |services| && forall j :: i < j < |services| ==> services[j].name != services[i].name
  }

  /** Number `i` is the last declaration whose list mentions the name. */
  ghost predicate LastMention(services: seq<ServiceToml>, i: nat, n: Name) {
    && i < |services| && n in services[i].proxyDeps
    && forall j :: i < j < |services| ==> n !in services[j].proxyDeps
  }

  /** Number `k` is the last trigger of its port. */
  ghost predicate LastOfPort(triggers: seq<TriggerToml>, k: nat) {
    k < |triggers| && forall j :: k < j < |triggers| ==> triggers[j].port != triggers[k].port
  }

  /** `tail` is what follows the name where the list mentions it first. */
  ghost predicate Follows(list: seq<Name>, n: Name, tail: seq<Name>) {
    exists k :: 0 <= k < |list| && list[k] == n && n !in list[..k] && tail == list[k + 1..]
  }

  lemma {:induction false} LastIsDeclared(services: seq<ServiceToml>, i: nat)
    requires LastOfName(services, i)
    ensures Declared(services, services[i].name) == Some(services[i])
  {
    if i < |services| - 1 {
      var before := services[..|services| - 1];
      assert before[i] == services[i];
      LastIsDeclared(before, i);
    }
  }

  lemma {:induction false} LastIsMentioned(services: seq<ServiceToml>, i: nat, n: Name)
    requires LastMention(services, i, n)
    ensures Mentioned(services, n) == Some(TailAfter(services[i].proxyDeps, n))
  {
    if i < |services| - 1 {
      var before := services[..|services| - 1];
      assert before[i] == services[i];
      LastIsMentioned(before, i, n);
    }
  }

  lemma {:induction false} TailFollows(list: seq<Name>, n: Name)
    requires n in list
    ensures Follows(list, n, TailAfter(list, n))
  {
    if list[0] == n {
      assert list[..0] == [];
    } else {
      var rest := list[1..];
      TailFollows(rest, n);
      var k :| 0 <= k < |rest| && rest[k] == n && n !in rest[..k] && TailAfter(list, n) == rest[k + 1..];
      assert list[..k + 1] == [list[0]] + rest[..k] && list[k + 1 + 1..] == rest[k + 1..];
      assert list[k + 1] == n;
    }
  }

  lemma {:induction false} LastTriggerCounts(triggers: seq<TriggerToml>, k: nat)
    requires LastOfPort(triggers, k)
    ensures triggers[k].port in TriggersOf(triggers) && TriggersOf(triggers)[triggers[k].port] == triggers[k].chain
  {
    if k < |triggers| - 1 {
      var before := triggers[..|triggers| - 1];
      assert before[k] == triggers[k];
      LastTriggerCounts(before, k);
    }
  }

  lemma {:induction false} PortsOf(triggers: seq<TriggerToml>, p: nat)
    ensures p in TriggersOf(triggers) <==> exists t :: t in triggers && t.port == p
  {
    if triggers != [] {
      var before, last := triggers[..|triggers| - 1], triggers[|triggers| - 1];
      PortsOf(before, p);
      assert forall t :: t in triggers <==> t in before || t == last;
    }
  }

  /**
   A declared service is an entry point. It is loaded with its last declaration: the declared timeout, or the default
   if there is none, the declared limit and dependencies, and for each port the chain of its last trigger.
   */
  lemma DeclaredConfig(services: seq<ServiceToml>, default: nat, loaded: Services, i: nat)
    requires IsLoaded(services, default, loaded) && LastOfName(services, i)
    ensures services[i].name in loaded
    ensures var s, config := services[i], loaded[services[i].name].config;
      && config.timeout.Some?
      && (s.timeout.Some? ==> config.timeout == s.timeout) && (s.timeout.None? ==> config.timeout.value == default)
      && config.maxNetworks == s.maxNetworks && config.proxyDeps == s.proxyDeps
      && (forall p :: p in config.triggers <==> exists t :: t in s.triggers && t.port == p)
      && forall k: nat :: LastOfPort(s.triggers, k) ==>
           s.triggers[k].port in config.triggers && config.triggers[s.triggers[k].port] == s.triggers[k].chain
  {
    var s := services[i];
    LoadedAt(services, default, loaded, s.name);
    LastIsDeclared(services, i);
    forall p ensures p in TriggersOf(s.triggers) <==> exists t :: t in s.triggers && t.port == p {
      PortsOf(s.triggers, p);
    }
    forall k: nat | LastOfPort(s.triggers, k)
      ensures s.triggers[k].port in TriggersOf(s.triggers)
      ensures TriggersOf(s.triggers)[s.triggers[k].port] == s.triggers[k].chain
    {
      LastTriggerCounts(s.triggers, k);
    }
  }

  /**
   A service that is not declared is no entry point: it has no timeout, no limit and no triggers, and depends on what
   follows it in the last list that mentions it, or on nothing.
   */
  lemma UndeclaredConfig(services: seq<ServiceToml>, default: nat, loaded: Services, n: Name)
    requires IsLoaded(services, default, loaded) && n in loaded && forall s :: s in services ==> s.name != n
    ensures var config := loaded[n].config;
      && config.timeout == None && config.maxNetworks == None && config.triggers == map[]
      && (forall i: nat :: LastMention(services, i, n) ==> Follows(services[i].proxyDeps, n, config.proxyDeps))
      && ((forall s :: s in services ==> n !in s.proxyDeps) ==> config.proxyDeps == [])
  {
    LoadedAt(services, default, loaded, n);
    DeclaredNames(services, n);
    MentionedBySome(services, n);
    forall i: nat | LastMention(services, i, n) ensures Follows(services[i].proxyDeps, n, loaded[n].config.proxyDeps) {
      LastIsMentioned(services, i, n);
      TailFollows(services[i].proxyDeps, n);
    }
  }

  /** Loaded are the names that are declared, mentioned in a list, or on the chain of a trigger; none is registered. */
  lemma LoadedNames(services: seq<ServiceToml>, default: nat, loaded: Services, n: Name)
    requires IsLoaded(services, default, loaded)
    ensures n in loaded <==>
      exists s :: s in services && (s.name == n || n in s.proxyDeps || exists t :: t in s.triggers && n in t.chain)
    ensures n in loaded ==> loaded[n].Unregistered?
  {
    LoadedAt(services, default, loaded, n);
    DeclaredNames(services, n);
    MentionedBySome(services, n);
    assert n in TriggerNames(services) <==> exists s, t :: s in services && t in s.triggers && n in t.chain;
  }
}
