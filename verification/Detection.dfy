/** Which changes the table needs, read off it without changing it (src/services/changes.rs:59-177). */
module Detection {
  import opened Types
  import opened ServiceTable
  import opened Changes
  import opened Timeout

  // ----- configuration -----

  /** `changes` are the changes, other than removals, that the services in `done` need. */
  ghost predicate ConfigOver(s: Services, loaded: Services, now: nat, done: set<Name>, changes: seq<ServiceChange>) {
    forall ch :: ch in changes <==> IsConfigChange(s, loaded, now, ch) && (ch.Removed? || ch.name in done)
  }

  method ConfigChangesOf(s: Services, loaded: Services, now: nat, n: Name) returns (changes: seq<ServiceChange>)
    requires Unique(s) && n in s && n in loaded
    ensures forall ch :: ch in changes <==> IsConfigChange(s, loaded, now, ch) && !ch.Removed? && ch.name == n
  {
    var was, will := s[n].config, loaded[n].config;
    changes := [];
    if will.proxyDeps != was.proxyDeps {
      changes := changes + [ProxyDepsChanged(n)];
    }
    if will.triggers != was.triggers {
      changes := changes + [TriggersChanged(n)];
    }
    if will.timeout.Some? != was.timeout.Some? {
      changes := changes + [ReachabilityChanged(n)];
    } else if will.timeout.Some? && will.timeout.value != was.timeout.value && will.timeout.value > 0
      && (was.timeout.value == 0 || will.timeout.value < was.timeout.value)
    {
      if s[n].Registered? {
        changes := PushTimeouts(n, ExpiredProxyClients(s[n].replicas, will.timeout.value, now), changes);
      }
      forall c ensures c in ExpiredProxyClients(Reps(s, n), will.timeout.value, now) <==>
        HasExpired(s, n, c, will.timeout.value, now)
      {
        ExpiredIsExpired(s, n, c, will.timeout.value, now);
      }
    }
  }

  method DetectConfigChanges(s: Services, loaded: Services, now: nat) returns (changes: seq<ServiceChange>)
    requires Unique(s)
    ensures ConfigDetected(s, loaded, now, changes)
  {
    changes := [];
    var todo := s.Keys;
    while todo != {}
      invariant todo <= s.Keys
      invariant forall ch :: ch in changes <==> ch.Removed? && ch.name in s.Keys - todo && ch.name !in loaded
    {
      var n :| n in todo;
      todo := todo - {n};
      if n !in loaded {
        changes := changes + [Removed(n)];
      }
    }
    todo := loaded.Keys;
    while todo != {}
      invariant todo <= loaded.Keys && ConfigOver(s, loaded, now, loaded.Keys - todo, changes)
    {
      var n :| n in todo;
      todo := todo - {n};
      if n in s {
        var more := ConfigChangesOf(s, loaded, now, n);
        changes := changes + more;
      }
    }
  }

  // ----- a host's list -----

  lemma IsListedStep(list: seq<Listed>, n: Name, docker: Option<string>, k: nat)
    requires k < |list|
    ensures IsListed(list[..k + 1], n, docker) <==>
      IsListed(list[..k], n, docker) || (list[k].name == n && list[k].docker == docker)
  {
    if IsListed(list[..k + 1], n, docker) {
      var i :| 0 <= i < k + 1 && list[..k + 1][i].name == n && list[..k + 1][i].docker == docker;
      assert i < k ==> list[..k][i] == list[i];
    }
    if IsListed(list[..k], n, docker) {
      var i :| 0 <= i < k && list[..k][i].name == n && list[..k][i].docker == docker;
      assert list[..k + 1][i] == list[i];
    }
    assert list[..k + 1][k] == list[k];
  }

  method InList(list: seq<Listed>, n: Name, docker: Option<string>) returns (found: bool)
    ensures found <==> IsListed(list, n, docker)
  {
    found := false;
    for k := 0 to |list|
      invariant found <==> IsListed(list[..k], n, docker)
    {
      IsListedStep(list, n, docker, k);
      if list[k].name == n && list[k].docker == docker {
        found := true;
      }
    }
    assert list[..|list|] == list;
  }

  /** The replicas of `n` on the host that its list leaves out, among the first `i`. */
  function Unlisted(s: Services, ip: Ip, list: seq<Listed>, n: Name, i: nat): set<ServiceChange>
    requires i <= |Reps(s, n)|
  {
    set j | 0 <= j < i && Reps(s, n)[j].ip == ip && !IsListed(list, n, Reps(s, n)[j].docker)
      :: ReplicaRemoved(n, Reps(s, n)[j].Id())
  }

  method UnlistedReplicas(s: Services, ip: Ip, list: seq<Listed>, n: Name) returns (changes: seq<ServiceChange>)
    requires Unique(s) && n in s
    ensures Enumerates(changes, Unlisted(s, ip, list, n, |Reps(s, n)|))
  {
    changes := [];
    var reps := Reps(s, n);
    for i := 0 to |reps|
      invariant Enumerates(changes, Unlisted(s, ip, list, n, i))
    {
      if reps[i].ip == ip {
        var listed := InList(list, n, reps[i].docker);
        if !listed {
          assert ReplicaRemoved(n, reps[i].Id()) !in Unlisted(s, ip, list, n, i);
          changes := changes + [ReplicaRemoved(n, reps[i].Id())];
        }
      }
    }
  }

  lemma EnumeratesBoth<T>(a: seq<T>, x: set<T>, b: seq<T>, y: set<T>)
    requires Enumerates(a, x) && Enumerates(b, y) && x !! y
    ensures Enumerates(a + b, x + y)
  {
    forall i, j | 0 <= i < j < |a + b| ensures (a + b)[i] != (a + b)[j] {
      if i < |a| <= j {
        assert (a + b)[i] in x && (a + b)[j] in y;
      }
    }
  }

  function UnlistedOver(s: Services, ip: Ip, list: seq<Listed>, done: set<Name>): set<ServiceChange> {
    set ch | ch in NoLongerListed(s, ip, list) && ch.name in done
  }

  lemma UnlistedStep(s: Services, ip: Ip, list: seq<Listed>, done: set<Name>, n: Name)
    requires n in s && n !in done
    ensures UnlistedOver(s, ip, list, done + {n}) ==
      UnlistedOver(s, ip, list, done) + Unlisted(s, ip, list, n, |Reps(s, n)|)
    ensures UnlistedOver(s, ip, list, done) !! Unlisted(s, ip, list, n, |Reps(s, n)|)
  {
  }

  method DetectServicesListChanges(s: Services, ip: Ip, list: seq<Listed>) returns (changes: seq<ServiceChange>)
    requires Unique(s)
    ensures Enumerates(changes, NoLongerListed(s, ip, list))
  {
    changes := [];
    var todo := s.Keys;
    while todo != {}
      invariant todo <= s.Keys && Enumerates(changes, UnlistedOver(s, ip, list, s.Keys - todo))
    {
      var n :| n in todo;
      var more := UnlistedReplicas(s, ip, list, n);
      UnlistedStep(s, ip, list, s.Keys - todo, n);
      EnumeratesBoth(changes, UnlistedOver(s, ip, list, s.Keys - todo), more, Unlisted(s, ip, list, n, |Reps(s, n)|));
      assert s.Keys - (todo - {n}) == s.Keys - todo + {n};
      changes := changes + more;
      todo := todo - {n};
    }
    assert UnlistedOver(s, ip, list, s.Keys - {}) == NoLongerListed(s, ip, list);
  }

  // ----- a node that has gone -----

  method HasReplicaOnIp(reps: seq<Replica>, ip: Ip) returns (found: bool)
    ensures found <==> exists i :: 0 <= i < |reps| && reps[i].ip == ip
  {
    for i := 0 to |reps|
      invariant forall j :: 0 <= j < i ==> reps[j].ip != ip
    {
      if reps[i].ip == ip {
        return true;
      }
    }
    return false;
  }

  predicate HasUserOf(s: Services, n: Name, ip: Ip) {
    exists i :: 0 <= i < |Reps(s, n)| && exists c :: c in Reps(s, n)[i].clients && c.proxy == Some(ip)
  }

  method DetectNodeDisconnectChanges(s: Services, ip: Ip) returns (changes: seq<ServiceChange>)
    ensures DisconnectDetected(s, ip, changes)
  {
    changes := [];
    ghost var order: seq<Name> := [];
    var todo := s.Keys;
    while todo != {}
      invariant todo <= s.Keys
      invariant Enumerates(order, NamesOnIp(s, ip) - todo) && changes == RemovalsOnIp(order, ip)
    {
      var n :| n in todo;
      todo := todo - {n};
      var onIp := HasReplicaOnIp(Reps(s, n), ip);
      if onIp {
        changes := changes + [ReplicasRemoved(n, ip)];
        order := order + [n];
      }
    }
    assert NamesOnIp(s, ip) - {} == NamesOnIp(s, ip);
    var hasUsers := HasProxyClients(s, ip);
    if hasUsers {
      changes := changes + [ProxyDisconnected(ip)];
    }
  }

  method HasProxyClients(s: Services, ip: Ip) returns (found: bool)
    ensures found <==> NamesOfProxy(s, ip) != {}
  {
    var todo := s.Keys;
    while todo != {}
      invariant todo <= s.Keys
      invariant forall n :: n in s.Keys - todo ==> !HasUserOf(s, n, ip)
    {
      var n :| n in todo;
      todo := todo - {n};
      if HasUserOf(s, n, ip) {
        assert n in NamesOfProxy(s, ip);
        return true;
      }
    }
    NoUserNames(s, ip);
    return false;
  }

  lemma UserNamesHave(s: Services, ip: Ip, n: Name)
    ensures n in NamesOfProxy(s, ip) ==> n in s && HasUserOf(s, n, ip)
  {
  }

  lemma NoUserNames(s: Services, ip: Ip)
    requires forall n :: n in s ==> !HasUserOf(s, n, ip)
    ensures NamesOfProxy(s, ip) == {}
  {
    forall n ensures n !in NamesOfProxy(s, ip) {
      UserNamesHave(s, ip, n);
    }
  }
}
