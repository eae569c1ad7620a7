/** When users expire and how long the timeout loop sleeps (src/timeout.rs, src/services/service_info.rs:444-474). */
module Timeout {
  import opened Types
  import opened NetIdPool
  import opened ServiceTable
  import opened Teardown
  import opened Changes
  import opened Settlement
  import opened AtomicSetup
  import opened Users

  // ----- expiry of the users of one service -----

  /** `timeout.saturating_sub(now.duration_since(latest))`. */
  function Remaining(info: ClientInfo, timeout: nat, now: nat): nat {
    var idle := Since(now, info.latest);
    if idle >= timeout * SECOND then 0 else timeout * SECOND - idle
  }

  function Expiries(clients: map<Client, ClientInfo>, timeout: nat, now: nat): set<nat> {
    set c | c in clients && c.proxy.Some? :: Remaining(clients[c], timeout, now)
  }

  function AllExpiries(reps: seq<Replica>, timeout: nat, now: nat): set<nat> {
    if reps == [] then {} else Expiries(reps[0].clients, timeout, now) + AllExpiries(reps[1..], timeout, now)
  }

  function NearestProxyExpiry(reps: seq<Replica>, timeout: nat, now: nat): Option<nat> {
    var all := AllExpiries(reps, timeout, now);
    if all == {} then None else Some(Least(all))
  }

  function ExpiredIn(clients: map<Client, ClientInfo>, timeout: nat, now: nat): set<Client> {
    set c | c in clients && c.proxy.Some? && Expired(clients[c], timeout, now)
  }

  function ExpiredProxyClients(reps: seq<Replica>, timeout: nat, now: nat): set<Client> {
    if reps == [] then {} else ExpiredIn(reps[0].clients, timeout, now) + ExpiredProxyClients(reps[1..], timeout, now)
  }

  lemma {:induction false} ZeroIffExpired(reps: seq<Replica>, timeout: nat, now: nat)
    ensures 0 in AllExpiries(reps, timeout, now) <==> ExpiredProxyClients(reps, timeout, now) != {}
  {
    if reps != [] {
      ZeroIffExpired(reps[1..], timeout, now);
      var clients := reps[0].clients;
      if c :| c in ExpiredIn(clients, timeout, now) {
        assert Remaining(clients[c], timeout, now) == 0;
      }
      if 0 in Expiries(clients, timeout, now) {
        var c :| c in clients && c.proxy.Some? && Remaining(clients[c], timeout, now) == 0;
        assert c in ExpiredIn(clients, timeout, now);
      }
    }
  }

  /** The nearest expiry is zero exactly when some user has expired. */
  lemma NearestIsZeroIffExpired(reps: seq<Replica>, timeout: nat, now: nat)
    ensures NearestProxyExpiry(reps, timeout, now) == Some(0) <==> ExpiredProxyClients(reps, timeout, now) != {}
  {
    ZeroIffExpired(reps, timeout, now);
  }

  lemma {:induction false} ExpiriesCover(reps: seq<Replica>, i: nat, c: Client, timeout: nat, now: nat)
    requires i < |reps| && c in reps[i].clients && c.proxy.Some?
    ensures Remaining(reps[i].clients[c], timeout, now) in AllExpiries(reps, timeout, now)
  {
    if i > 0 {
      ExpiriesCover(reps[1..], i - 1, c, timeout, now);
    }
  }

  lemma {:induction false} ExpiredHas(reps: seq<Replica>, c: Client, timeout: nat, now: nat)
    ensures c in ExpiredProxyClients(reps, timeout, now) <==>
      exists i :: 0 <= i < |reps| && c in ExpiredIn(reps[i].clients, timeout, now)
  {
    if reps != [] {
      ExpiredHas(reps[1..], c, timeout, now);
      if i :| 0 <= i < |reps| && c in ExpiredIn(reps[i].clients, timeout, now) {
        assert i > 0 ==> reps[1..][i - 1] == reps[i];
      }
      if i :| 0 <= i < |reps[1..]| && c in ExpiredIn(reps[1..][i].clients, timeout, now) {
        assert reps[i + 1] == reps[1..][i];
      }
    }
  }

  lemma ExpiredIsExpired(s: Services, n: Name, c: Client, timeout: nat, now: nat)
    requires Unique(s)
    ensures c in ExpiredProxyClients(Reps(s, n), timeout, now) <==> HasExpired(s, n, c, timeout, now)
  {
    var reps := Reps(s, n);
    ExpiredHas(reps, c, timeout, now);
    if i :| 0 <= i < |reps| && c in ExpiredIn(reps[i].clients, timeout, now) {
      TabAt(reps, i);
      assert c in Tab(s, n, reps[i].Id()) && Expired(Tab(s, n, reps[i].Id())[c], timeout, now);
    }
    if HasExpired(s, n, c, timeout, now) {
      var r :| c in Tab(s, n, r) && Expired(Tab(s, n, r)[c], timeout, now);
      TabNeedsRep(s, n, r);
      var i :| 0 <= i < |reps| && reps[i].Id() == r;
      TabAt(reps, i);
      assert c in ExpiredIn(reps[i].clients, timeout, now);
    }
  }

  // ----- collecting the expired users -----

  predicate HasTimeout(s: Services, n: Name) {
    n in s && s[n].config.timeout.Some? && s[n].config.timeout.value > 0
  }

  /** `changes` are the timeouts of exactly the expired users of the services in `done`. */
  ghost predicate CollectedOver(s: Services, now: nat, done: set<Name>, changes: seq<ServiceChange>) {
    && (forall ch :: ch in changes ==> IsTimeout(s, now, ch) && ch.name in done)
    && (forall ch :: IsTimeout(s, now, ch) && ch.name in done ==> ch in changes)
  }

  ghost predicate Pushed(n: Name, expired: set<Client>, before: seq<ServiceChange>, after: seq<ServiceChange>) {
    forall ch :: ch in after <==> ch in before || (ch.ProxyClientTimedOut? && ch.name == n && ch.client in expired)
  }

  method PushTimeouts(n: Name, expired: set<Client>, changes: seq<ServiceChange>) returns (after: seq<ServiceChange>)
    ensures Pushed(n, expired, changes, after)
  {
    after := changes;
    var todo := expired;
    while todo != {}
      invariant todo <= expired
      invariant Pushed(n, expired - todo, changes, after)
    {
      var c :| c in todo;
      todo := todo - {c};
      after := after + [ProxyClientTimedOut(n, c)];
    }
    assert expired - {} == expired;
  }

  lemma CollectedStep(s: Services, now: nat, done: set<Name>, n: Name, before: seq<ServiceChange>,
                      after: seq<ServiceChange>)
    requires Unique(s) && n in s && CollectedOver(s, now, done, before)
    requires if HasTimeout(s, n) then
               Pushed(n, ExpiredProxyClients(Reps(s, n), s[n].config.timeout.value, now), before, after)
             else after == before
    ensures CollectedOver(s, now, done + {n}, after)
  {
    if HasTimeout(s, n) {
      forall c ensures c in ExpiredProxyClients(Reps(s, n), s[n].config.timeout.value, now) <==>
        IsTimeout(s, now, ProxyClientTimedOut(n, c))
      {
        ExpiredIsExpired(s, n, c, s[n].config.timeout.value, now);
      }
    }
  }

  method CollectTimedOutClients(s: Services, now: nat) returns (changes: seq<ServiceChange>)
    requires Unique(s)
    ensures TimeoutsDetected(s, now, changes)
  {
    changes := [];
    var todo := s.Keys;
    while todo != {}
      invariant todo <= s.Keys && CollectedOver(s, now, s.Keys - todo, changes)
    {
      var n :| n in todo;
      ghost var before := changes;
      if s[n].config.timeout.Some? && s[n].config.timeout.value != 0 && s[n].Registered? {
        changes := PushTimeouts(n, ExpiredProxyClients(s[n].replicas, s[n].config.timeout.value, now), changes);
      }
      CollectedStep(s, now, s.Keys - todo, n, before, changes);
      assert s.Keys - (todo - {n}) == s.Keys - todo + {n};
      todo := todo - {n};
    }
    assert s.Keys - {} == s.Keys;
  }

  // ----- how long to sleep -----

  /** The bounds that the services in `done` put on the sleep. */
  ghost predicate SleepsWithin(s: Services, now: nat, done: set<Name>, nearest: nat) {
    forall n :: n in done && HasTimeout(s, n) ==>
      && nearest <= s[n].config.timeout.value * SECOND
      && forall x :: x in AllExpiries(Reps(s, n), s[n].config.timeout.value, now) ==> nearest <= x
  }

  /** The sleep is one of the bounds: no shorter than needed. */
  ghost predicate IsBound(s: Services, fallback: nat, now: nat, nearest: nat) {
    nearest == fallback * SECOND || exists n :: HasTimeout(s, n) && BoundOf(s, n, now, nearest)
  }

  ghost predicate BoundOf(s: Services, n: Name, now: nat, x: nat)
    requires HasTimeout(s, n)
  {
    x == s[n].config.timeout.value * SECOND || x in AllExpiries(Reps(s, n), s[n].config.timeout.value, now)
  }

  method NearestTimeout(s: Services, fallback: nat, now: nat) returns (nearest: nat)
    ensures nearest <= fallback * SECOND && SleepsWithin(s, now, s.Keys, nearest)
    ensures IsBound(s, fallback, now, nearest)
  {
    nearest := fallback * SECOND;
    var todo := s.Keys;
    while todo != {}
      invariant todo <= s.Keys && nearest <= fallback * SECOND
      invariant SleepsWithin(s, now, s.Keys - todo, nearest) && IsBound(s, fallback, now, nearest)
    {
      var n :| n in todo;
      todo := todo - {n};
      if s[n].config.timeout.Some? && s[n].config.timeout.value != 0 {
        var timeout := s[n].config.timeout.value;
        if timeout * SECOND < nearest {
          nearest := timeout * SECOND;
        }
        assert HasTimeout(s, n);
        if s[n].Registered? {
          var expiry := NearestProxyExpiry(s[n].replicas, timeout, now);
          if expiry.Some? && expiry.value < nearest {
            nearest := expiry.value;
          }
        }
        assert nearest == timeout * SECOND ==> BoundOf(s, n, now, nearest);
      }
    }
    assert s.Keys - {} == s.Keys;
  }

  /** Whatever entry `b` has was stamped at or after `from`, or was in `a` with no later stamp. */
  ghost predicate Stamped(a: Services, b: Services, from: nat) {
    forall l :: Entry(b, l).Some? ==>
      || Entry(b, l).value.latest >= from
      || (Entry(a, l).Some? && Entry(b, l).value.latest >= Entry(a, l).value.latest)
  }

  /** A service that is there at the end was there before, with the same configuration. */
  ghost predicate ConfigsStay(a: Services, b: Services) {
    forall n :: n in b ==> n in a && b[n].config == a[n].config
  }

  /** What the steps taken during a sleep that began at `now` do to configurations and time stamps. */
  ghost predicate SleptThrough(a: Services, b: Services, now: nat) {
    ConfigsStay(a, b) && Stamped(a, b, now)
  }

  /**
   The loop never sleeps past the expiry of a user, not even of one that arrives or is refreshed during the sleep, on
   a service that may not have had a replica when the sleep began.
   */
  lemma WakesInTime(a: Services, b: Services, now: nat, nearest: nat, l: Link)
    requires Unique(a) && SleepsWithin(a, now, a.Keys, nearest) && SleptThrough(a, b, now)
    requires l.server in b && b[l.server].config.timeout.Some? && b[l.server].config.timeout.value > 0
    requires l.client.proxy.Some? && Entry(b, l).Some?
    ensures var expiry := Entry(b, l).value.latest + b[l.server].config.timeout.value * SECOND;
      now + nearest <= if expiry < now then now else expiry
  {
    var n, timeout := l.server, b[l.server].config.timeout.value;
    assert HasTimeout(a, n) && n in a.Keys;
    if Entry(b, l).value.latest < now {
      var reps := Reps(a, n);
      EntryNeedsRep(a, l);
      var i :| 0 <= i < |reps| && reps[i].Id() == l.at;
      TabAt(reps, i);
      ExpiriesCover(reps, i, l.client, timeout, now);
      assert nearest <= Remaining(Entry(a, l).value, timeout, now);
    }
  }

  /** What is left of the timeout of a user, 0 if it has passed. */
  ghost predicate IsRest(s: Services, l: Link, timeout: nat, now: nat, x: nat) {
    && l.client.proxy.Some? && Entry(s, l).Some?
    && x == if now >= Entry(s, l).value.latest + timeout * SECOND then 0
            else if now < Entry(s, l).value.latest then timeout * SECOND
            else Entry(s, l).value.latest + timeout * SECOND - now
  }

  lemma {:induction false} ExpiryIsRest(reps: seq<Replica>, timeout: nat, now: nat, x: nat) returns (i: nat, c: Client)
    requires x in AllExpiries(reps, timeout, now)
    ensures i < |reps| && c in reps[i].clients && c.proxy.Some? && x == Remaining(reps[i].clients[c], timeout, now)
  {
    if c' :| c' in reps[0].clients && c'.proxy.Some? && x == Remaining(reps[0].clients[c'], timeout, now) {
      i, c := 0, c';
    } else {
      i, c := ExpiryIsRest(reps[1..], timeout, now, x);
      i := i + 1;
    }
  }

  /** The loop never sleeps shorter than the default, a positive timeout, or what is left of one for one of its users. */
  lemma SleepsNoShorter(s: Services, fallback: nat, now: nat, nearest: nat) returns (n: Name)
    requires Unique(s) && IsBound(s, fallback, now, nearest) && nearest != fallback * SECOND
    ensures n in s && s[n].config.timeout.Some? && s[n].config.timeout.value > 0
    ensures nearest == s[n].config.timeout.value * SECOND
      || exists l: Link :: l.server == n && IsRest(s, l, s[n].config.timeout.value, now, nearest)
  {
    n :| HasTimeout(s, n) && BoundOf(s, n, now, nearest);
    if nearest != s[n].config.timeout.value * SECOND {
      var i, c := ExpiryIsRest(Reps(s, n), s[n].config.timeout.value, now, nearest);
      TabAt(Reps(s, n), i);
      assert IsRest(s, Link(c, n, Reps(s, n)[i].Id()), s[n].config.timeout.value, now, nearest);
    }
  }

  // ----- what a pass of the loop does -----

  /** A positive timeout has passed since the user was last seen. */
  predicate IsIdle(timeout: Option<nat>, latest: nat, now: nat) {
    timeout.Some? && timeout.value > 0 && now >= latest + timeout.value * SECOND
  }

  /** A pass removes exactly the users that have been idle for the timeout of their service; all others stay. */
  lemma TimeoutsAreExact(w: World, now: nat, w': World)
    requires Orderly(w) && TimeoutsRel(w, now, w')
    ensures forall l: Link :: l.client.proxy.Some? && Entry(w.services, l).Some? ==>
      Entry(w'.services, l) ==
      if l.server in w.services && IsIdle(w.services[l.server].config.timeout, Entry(w.services, l).value.latest, now)
      then None else Entry(w.services, l)
    ensures forall l: Link :: l.client.proxy.Some? && Entry(w.services, l).None? ==> Entry(w'.services, l).None?
  {
    var s := w.services;
    var changes :| TimeoutsDetected(s, now, changes) && ApplyRel(w, changes, w');
    AllTimedOutUsers(w, changes, w');
    forall l: Link | l.client.proxy.Some? && Entry(s, l).Some?
      ensures ProxyClientTimedOut(l.server, l.client) in changes <==>
        l.server in s && IsIdle(s[l.server].config.timeout, Entry(s, l).value.latest, now)
    {
      EntryNeedsRep(s, l);
      if HasTimeout(s, l.server) {
        ExpiredMeans(Entry(s, l).value, s[l.server].config.timeout.value, now);
      }
      ExpiredOnce(s, l, now);
      assert ProxyClientTimedOut(l.server, l.client) in changes <==>
        IsTimeout(s, now, ProxyClientTimedOut(l.server, l.client));
    }
  }

  lemma ExpiredMeans(info: ClientInfo, timeout: nat, now: nat)
    ensures timeout > 0 ==> (Expired(info, timeout, now) <==> now >= info.latest + timeout * SECOND)
  {
  }

  lemma ExpiredOnce(s: Services, l: Link, now: nat)
    requires ProxyOnce(s) && l.client.proxy.Some? && Entry(s, l).Some?
    ensures forall timeout: nat ::
      HasExpired(s, l.server, l.client, timeout, now) <==> Expired(Entry(s, l).value, timeout, now)
  {
    forall timeout: nat
      ensures HasExpired(s, l.server, l.client, timeout, now) <==> Expired(Entry(s, l).value, timeout, now)
    {
      if HasExpired(s, l.server, l.client, timeout, now) {
        var r :| l.client in Tab(s, l.server, r) && Expired(Tab(s, l.server, r)[l.client], timeout, now);
        assert r == l.at;
      }
      assert l.client in Tab(s, l.server, l.at);
    }
  }
}
