/** Which users and trigger chains a reload takes down, read off the two configurations (src/services/changes.rs:59-104). */
module Reloads {
  import opened Types
  import opened ServiceTable
  import opened Teardown
  import opened Changes
  import opened Reconcile
  import opened Settlement
  import opened AtomicSetup
  import opened Users
  import opened UserChanges
  import opened Flow
  import opened FlowChanges
  import Timeout

  /** The loaded configuration has no service `x` any more, or one with other dependencies. */
  predicate Rewired(s: Services, loaded: Services, x: Name) {
    x in s && (x !in loaded || loaded[x].config.proxyDeps != s[x].config.proxyDeps)
  }

  /** The timeout of the service is new or shorter, and the user has been idle for that long. */
  ghost predicate OverNewTimeout(s: Services, loaded: Services, now: nat, l: Link)
    requires l.server in s && l.server in loaded && Entry(s, l).Some?
  {
    var was, will := s[l.server].config.timeout, loaded[l.server].config.timeout;
    && was.Some? && will.Some? && will.value > 0 && (was.value == 0 || will.value < was.value)
    && now >= Entry(s, l).value.latest + will.value * SECOND
  }

  /** What takes a user down in a reload. */
  ghost predicate Uprooted(s: Services, loaded: Services, now: nat, l: Link)
    requires Entry(s, l).Some? && l.server in s
  {
    || (exists x :: Lists(s, l.server, x) && Rewired(s, loaded, x))
    || l.server !in loaded
    || s[l.server].config.timeout.Some? != loaded[l.server].config.timeout.Some?
    || OverNewTimeout(s, loaded, now, l)
  }

  lemma DetectedConcerns(s: Services, loaded: Services, now: nat, changes: seq<ServiceChange>, l: Link)
    requires Unique(s) && ProxyOnce(s) && ConfigDetected(s, loaded, now, changes)
    requires l.client.proxy.Some? && Entry(s, l).Some? && l.server in s
    ensures SomeConcerns(changes, s, l) <==> Uprooted(s, loaded, now, l)
  {
    if x :| Lists(s, l.server, x) && Rewired(s, loaded, x) {
      var change := if x in loaded then ProxyDepsChanged(x) else Removed(x);
      assert IsConfigChange(s, loaded, now, change) && Concerns(change, s, l);
    } else if l.server in loaded {
      var n := l.server;
      TimeoutConcerns(s, loaded, now, l);
      if s[n].config.timeout.Some? != loaded[n].config.timeout.Some? {
        assert IsConfigChange(s, loaded, now, ReachabilityChanged(n)) && Concerns(ReachabilityChanged(n), s, l);
      } else if OverNewTimeout(s, loaded, now, l) {
        assert Concerns(ProxyClientTimedOut(n, l.client), s, l);
      } else if change :| change in changes && Concerns(change, s, l) {
        assert IsConfigChange(s, loaded, now, change);
      }
    } else {
      assert Lists(s, l.server, l.server) && Rewired(s, loaded, l.server);
    }
  }

  lemma TimeoutConcerns(s: Services, loaded: Services, now: nat, l: Link)
    requires ProxyOnce(s) && l.client.proxy.Some? && Entry(s, l).Some? && l.server in s && l.server in loaded
    ensures IsConfigChange(s, loaded, now, ProxyClientTimedOut(l.server, l.client)) <==>
      OverNewTimeout(s, loaded, now, l)
  {
    Timeout.ExpiredOnce(s, l, now);
    var will := loaded[l.server].config.timeout;
    if will.Some? {
      Timeout.ExpiredMeans(Entry(s, l).value, will.value, now);
    }
  }

  /**
   A reload takes down exactly the users whose service is gone, is or lists a service that is gone or has other
   dependencies, has become or ceased to be an entry point, or has a new or shorter timeout that has run out. All other
   users keep their entries as they are.
   */
  lemma ReloadTakes(w: World, loaded: Services, now: nat, w': World, l: Link)
    requires Unique(w.services) && ProxyOnce(w.services) && FromFile(loaded) && ReloadRel(w, loaded, now, w')
    requires l.client.proxy.Some?
    ensures Entry(w.services, l).None? ==> Entry(w'.services, l).None?
    ensures Entry(w.services, l).Some? ==> l.server in w.services
    ensures Entry(w.services, l).Some? ==>
      Entry(w'.services, l) == if Uprooted(w.services, loaded, now, l) then None else Entry(w.services, l)
  {
    var changes, mid: World :| ConfigDetected(w.services, loaded, now, changes) && ApplyRel(w, changes, mid)
      && w' == mid.(services := Merge(mid.services, loaded));
    ReloadDetects(w.services, loaded, now, changes);
    ApplyTakes(w, changes, mid, l);
    ApplyPorts(w, changes, mid);
    MergePorts(mid.services, loaded);
    assert Entry(w'.services, l) == Entry(mid.services, l);
    if Entry(w.services, l).Some? {
      EntryNeedsRep(w.services, l);
      DetectedConcerns(w.services, loaded, now, changes, l);
    }
  }

  /** The service still has the triggers, the reachability and the dependencies that it had. */
  predicate SameSetup(s: Services, loaded: Services, n: Name) {
    && n in s && n in loaded && loaded[n].config.triggers == s[n].config.triggers
    && loaded[n].config.timeout.Some? == s[n].config.timeout.Some? && loaded[n].config.proxyDeps == s[n].config.proxyDeps
  }

  lemma NotHitIsSame(s: Services, loaded: Services, now: nat, l: Link)
    requires l.client.name in s
    requires forall change :: IsConfigChange(s, loaded, now, change) ==> !TriggerHits(change, s, l)
    ensures SameSetup(s, loaded, l.client.name)
    ensures forall x :: x == l.server || x in Deps(s, l.server) ==> !Rewired(s, loaded, x)
  {
    var n := l.client.name;
    assert TriggerHits(Removed(n), s, l) && TriggerHits(TriggersChanged(n), s, l);
    assert TriggerHits(ReachabilityChanged(n), s, l) && TriggerHits(ProxyDepsChanged(n), s, l);
    forall x | x == l.server || x in Deps(s, l.server) ensures !Rewired(s, loaded, x) {
      assert TriggerHits(Removed(x), s, l) && TriggerHits(ProxyDepsChanged(x), s, l);
    }
  }

  /**
   In the flow regime no trigger chain is left of a service that is gone or has other triggers, dependencies or
   reachability, nor one through a service that is gone or has other dependencies.
   */
  lemma ReloadTakesTriggers(w: World, loaded: Services, now: nat, w': World, l: Link)
    requires Sound(w.services) && FromFile(loaded) && ReloadRel(w, loaded, now, w')
    requires Starts(w.services, l) && Entry(w'.services, l).Some?
    ensures Entry(w.services, l).Some? && SameSetup(w.services, loaded, l.client.name)
    ensures forall x :: x == l.server || x in Deps(w.services, l.server) ==> !Rewired(w.services, loaded, x)
  {
    var s := w.services;
    var changes, mid: World :| ConfigDetected(s, loaded, now, changes) && ApplyRel(w, changes, mid)
      && w' == mid.(services := Merge(mid.services, loaded));
    EntryBeforeMerge(w, loaded, now, changes, mid, l);
    ApplyTriggers(w, changes, mid, l);
    SourceExists(s, l);
    NotHitIsSame(s, loaded, now, l);
  }

  lemma EntryBeforeMerge(w: World, loaded: Services, now: nat, changes: seq<ServiceChange>, mid: World, l: Link)
    requires Unique(w.services) && FromFile(loaded) && ConfigDetected(w.services, loaded, now, changes)
    requires ApplyRel(w, changes, mid)
    ensures Entry(Merge(mid.services, loaded), l) == Entry(mid.services, l) && Known(w.services, changes)
  {
    ReloadDetects(w.services, loaded, now, changes);
    ApplyPorts(w, changes, mid);
    MergePorts(mid.services, loaded);
  }
}
