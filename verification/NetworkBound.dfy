/** How many networks one proxy can hold on a service, in every run that serves requests one at a time. */
module NetworkBound {
  import opened Types
  import opened ServiceTable
  import opened Teardown
  import opened Settlement
  import opened ChainSetup
  import opened Requests
  import opened AtomicSetup
  import opened AtomicRequests
  import opened Runs

  function NetsOf(clients: map<Client, ClientInfo>, proxy: Ip): set<nat> {
    set c | c in clients && c.proxy == Some(proxy) :: clients[c].netId
  }

  function NetsIn(reps: seq<Replica>, proxy: Ip): set<nat> {
    if reps == [] then {} else NetsOf(reps[0].clients, proxy) + NetsIn(reps[1..], proxy)
  }

  /** The networks that the users of one proxy are on. */
  function Nets(s: Services, n: Name, proxy: Ip): set<nat> {
    NetsIn(Reps(s, n), proxy)
  }

  ghost predicate OnNet(s: Services, n: Name, proxy: Ip, id: nat) {
    exists l: Link :: l.server == n && l.client.proxy == Some(proxy) && Entry(s, l).Some? && Entry(s, l).value.netId == id
  }

  lemma {:induction false} NetsInHas(reps: seq<Replica>, proxy: Ip, id: nat)
    ensures id in NetsIn(reps, proxy) <==>
      exists i :: 0 <= i < |reps| && id in NetsOf(reps[i].clients, proxy)
  {
    if reps != [] {
      NetsInHas(reps[1..], proxy, id);
      if i :| 0 <= i < |reps| && id in NetsOf(reps[i].clients, proxy) {
        assert i > 0 ==> reps[1..][i - 1] == reps[i];
      }
      if i :| 0 <= i < |reps[1..]| && id in NetsOf(reps[1..][i].clients, proxy) {
        assert reps[i + 1] == reps[1..][i];
      }
    }
  }

  lemma NetsHas(s: Services, n: Name, proxy: Ip, id: nat)
    requires Unique(s)
    ensures id in Nets(s, n, proxy) <==> OnNet(s, n, proxy, id)
  {
    var reps := Reps(s, n);
    NetsInHas(reps, proxy, id);
    if i :| 0 <= i < |reps| && id in NetsOf(reps[i].clients, proxy) {
      var c :| c in reps[i].clients && c.proxy == Some(proxy) && reps[i].clients[c].netId == id;
      TabAt(reps, i);
      assert Entry(s, Link(c, n, reps[i].Id())) == Some(reps[i].clients[c]);
    }
    if OnNet(s, n, proxy, id) {
      var l: Link :| l.server == n && l.client.proxy == Some(proxy) && Entry(s, l).Some? && Entry(s, l).value.netId == id;
      EntryNeedsRep(s, l);
      var i :| 0 <= i < |reps| && reps[i].Id() == l.at;
      TabAt(reps, i);
      assert id in NetsOf(reps[i].clients, proxy);
    }
  }

  // ----- clients are at least as many as networks -----

  lemma {:induction false} ImageIsSmall(users: set<Client>, clients: map<Client, ClientInfo>, nets: set<nat>)
    requires forall c :: c in users ==> c in clients
    requires nets == set c | c in users :: clients[c].netId
    ensures |nets| <= |users|
    decreases |users|
  {
    if users != {} {
      var c :| c in users;
      var fewer := set d | d in users - {c} :: clients[d].netId;
      ImageIsSmall(users - {c}, clients, fewer);
      assert nets == fewer + {clients[c].netId};
    } else {
      assert nets == {};
    }
  }

  lemma {:induction false} FewerIsSmaller<T>(a: set<T>, b: set<T>)
    requires a <= b
    ensures |a| <= |b|
  {
    assert b == a + (b - a);
  }

  lemma NetsOfSmall(clients: map<Client, ClientInfo>, proxy: Ip)
    ensures |NetsOf(clients, proxy)| <= |UserKeys(clients)|
  {
    var users := set c | c in clients && c.proxy == Some(proxy);
    assert NetsOf(clients, proxy) == set c | c in users :: clients[c].netId;
    ImageIsSmall(users, clients, NetsOf(clients, proxy));
    FewerIsSmaller(users, UserKeys(clients));
  }

  /** The count that the code compares with the limit, clients of all proxies, is at least the number of networks. */
  lemma {:induction false} NetsAtMostClients(reps: seq<Replica>, proxy: Ip)
    ensures |NetsIn(reps, proxy)| <= ProxyClientsCount(reps)
  {
    if reps != [] {
      NetsOfSmall(reps[0].clients, proxy);
      NetsAtMostClients(reps[1..], proxy);
    }
  }

  // ----- the bound -----

  function Limit(max: nat): nat {
    if max == 0 then 1 else max
  }

  ghost predicate Bounded(s: Services) {
    forall n, proxy :: n in s && s[n].config.maxNetworks.Some? ==>
      |Nets(s, n, proxy)| <= Limit(s[n].config.maxNetworks.value)
  }

  /** Whoever is on a network of the service through the proxy was already on it. */
  ghost predicate NoNewNet(a: Services, b: Services, n: Name, proxy: Ip) {
    forall id: nat :: OnNet(b, n, proxy, id) ==> OnNet(a, n, proxy, id)
  }

  lemma NoNewNetIsSmaller(a: Services, b: Services, n: Name, proxy: Ip)
    requires Unique(a) && Unique(b) && NoNewNet(a, b, n, proxy)
    ensures |Nets(b, n, proxy)| <= |Nets(a, n, proxy)|
  {
    forall id | id in Nets(b, n, proxy) ensures id in Nets(a, n, proxy) {
      NetsHas(a, n, proxy, id);
      NetsHas(b, n, proxy, id);
    }
    FewerIsSmaller(Nets(b, n, proxy), Nets(a, n, proxy));
  }

  lemma ShrunkNets(a: Services, b: Services, n: Name, proxy: Ip)
    requires Shrunk(a, b)
    ensures NoNewNet(a, b, n, proxy)
  {
    forall id: nat | OnNet(b, n, proxy, id) ensures OnNet(a, n, proxy, id) {
      var l: Link :| l.server == n && l.client.proxy == Some(proxy) && Entry(b, l).Some? && Entry(b, l).value.netId == id;
      assert Entry(a, l).Some?;
    }
  }

  lemma SameUsersNets(a: Services, b: Services, n: Name, proxy: Ip)
    requires SameUsers(a, b)
    ensures NoNewNet(a, b, n, proxy)
  {
    forall id: nat | OnNet(b, n, proxy, id) ensures OnNet(a, n, proxy, id) {
      var l: Link :| l.server == n && l.client.proxy == Some(proxy) && Entry(b, l).Some? && Entry(b, l).value.netId == id;
      assert Alike(Entry(a, l), Entry(b, l));
      assert Entry(a, l).Some?;
    }
  }

  /** The only network that a new user can bring is its own. */
  lemma AdmittedNets(a: Services, b: Services, req: Request, at: ReplicaId, n: Name, proxy: Ip, id: nat)
    requires Admitted(a, b, req, at) && OnNet(b, n, proxy, id)
    ensures OnNet(a, n, proxy, id) ||
      (n == req.service && proxy == req.proxy && id == Entry(b, Link(req.Client(), req.service, at)).value.netId)
  {
    var l: Link :| l.server == n && l.client.proxy == Some(proxy) && Entry(b, l).Some? && Entry(b, l).value.netId == id;
    assert l != Link(req.Client(), req.service, at) ==> Entry(a, l).Some?;
  }

  lemma AdmittedOne(a: Services, b: Services, req: Request, at: ReplicaId)
    requires Unique(a) && Unique(b) && Admitted(a, b, req, at)
    ensures |Nets(b, req.service, req.proxy)| <= |Nets(a, req.service, req.proxy)| + 1
    ensures MustShare(a, req.service, req.proxy) ==> NoNewNet(a, b, req.service, req.proxy)
  {
    var n, proxy := req.service, req.proxy;
    var own := Entry(b, Link(req.Client(), n, at)).value.netId;
    forall id | id in Nets(b, n, proxy) ensures id in Nets(a, n, proxy) + {own} {
      NetsHas(a, n, proxy, id);
      NetsHas(b, n, proxy, id);
      AdmittedNets(a, b, req, at, n, proxy, id);
    }
    FewerIsSmaller(Nets(b, n, proxy), Nets(a, n, proxy) + {own});
    if MustShare(a, n, proxy) {
      var l :| Reusable(a, n, proxy, l) && Entry(a, l).value.netId == own;
      assert OnNet(a, n, proxy, own);
      forall id: nat | OnNet(b, n, proxy, id) ensures OnNet(a, n, proxy, id) {
        AdmittedNets(a, b, req, at, n, proxy, id);
      }
    }
  }

  /** Below the limit there is room for one more network, and a proxy without users has none. */
  lemma RoomForOne(w: World, n: Name, proxy: Ip)
    requires Orderly(w) && !MustShare(w.services, n, proxy)
    requires n in w.services && w.services[n].config.maxNetworks.Some?
    ensures |Nets(w.services, n, proxy)| + 1 <= Limit(w.services[n].config.maxNetworks.value)
  {
    var s := w.services;
    NetsAtMostClients(Reps(s, n), proxy);
    if ProxyClientsCount(Reps(s, n)) >= s[n].config.maxNetworks.value {
      forall id ensures id !in Nets(s, n, proxy) {
        NetsHas(s, n, proxy, id);
        NotReusableMeansNone(w, n, proxy, id);
      }
      assert Nets(s, n, proxy) == {};
    }
  }

  lemma NotReusableMeansNone(w: World, n: Name, proxy: Ip, id: nat)
    requires Orderly(w) && forall l :: !Reusable(w.services, n, proxy, l)
    ensures !OnNet(w.services, n, proxy, id)
  {
    if OnNet(w.services, n, proxy, id) {
      var l: Link :| l.server == n && l.client.proxy == Some(proxy)
        && Entry(w.services, l).Some? && Entry(w.services, l).value.netId == id;
      assert Reusable(w.services, n, proxy, l);
    }
  }

  lemma AdmittedBounded(w: World, w': World, req: Request, at: ReplicaId)
    requires Orderly(w) && Orderly(w') && SameShape(w.services, w'.services) && Bounded(w.services)
    requires Admitted(w.services, w'.services, req, at)
    ensures Bounded(w'.services)
  {
    var a, b := w.services, w'.services;
    AdmittedOne(a, b, req, at);
    forall n, proxy | n in b && b[n].config.maxNetworks.Some?
      ensures |Nets(b, n, proxy)| <= Limit(b[n].config.maxNetworks.value)
    {
      assert n in a && a[n].config == b[n].config;
      if n == req.service && proxy == req.proxy && !MustShare(a, n, proxy) {
        RoomForOne(w, n, proxy);
      } else {
        forall id: nat | OnNet(b, n, proxy, id) ensures OnNet(a, n, proxy, id) {
          AdmittedNets(a, b, req, at, n, proxy, id);
        }
        NoNewNetIsSmaller(a, b, n, proxy);
      }
    }
  }

  // ----- runs -----

  /** No service that stays has its limit changed. */
  ghost predicate SameLimits(a: Services, b: Services) {
    forall n :: n in a && n in b ==> a[n].config.maxNetworks == b[n].config.maxNetworks
  }

  lemma NoNewNetsBounded(a: Services, b: Services)
    requires Unique(a) && Unique(b) && Bounded(a) && SameLimits(a, b)
    requires forall n, proxy :: NoNewNet(a, b, n, proxy)
    ensures Bounded(b)
  {
    forall n, proxy | n in b && b[n].config.maxNetworks.Some?
      ensures |Nets(b, n, proxy)| <= Limit(b[n].config.maxNetworks.value)
    {
      assert NoNewNet(a, b, n, proxy);
      NoNewNetIsSmaller(a, b, n, proxy);
      if n !in a {
        assert Nets(a, n, proxy) == {};
      }
    }
  }

  lemma EventBounded(w: World, event: Event, w': World)
    requires Orderly(w) && Bounded(w.services) && EventRel(w, event, w') && SameLimits(w.services, w'.services)
    ensures Bounded(w'.services)
  {
    EventOrderly(w, event, w');
    if event.Serve? {
      var answer :| RequestRel(w, event.req, event.now, w', answer);
      RequestIsOrderly(w, event.req, event.now, w', answer);
      if answer.Upstream? && !HasHolder(w.services, event.req) {
        var at :| Admitted(w.services, w'.services, event.req, at);
        AdmittedBounded(w, w', event.req, at);
        return;
      }
    } else if event.Trigger? {
      TriggerIsOrderly(w, event.name, event.port, event.sender, event.now, w');
    }
    forall n, proxy ensures NoNewNet(w.services, w'.services, n, proxy) {
      if event.Serve? || event.Trigger? {
        SameUsersNets(w.services, w'.services, n, proxy);
      } else {
        ShrunkNets(w.services, w'.services, n, proxy);
      }
    }
    NoNewNetsBounded(w.services, w'.services);
  }

  lemma StepBounded(w: World, w': World)
    requires Orderly(w) && Bounded(w.services) && Step(w, w') && SameLimits(w.services, w'.services)
    ensures Bounded(w'.services)
  {
    var event :| EventRel(w, event, w');
    EventBounded(w, event, w');
  }

  lemma InitiallyBounded(w: World)
    requires Initial(w)
    ensures Bounded(w.services)
  {
    forall n, proxy ensures Nets(w.services, n, proxy) == {} {}
  }

  ghost predicate FixedLimits(run: seq<World>) {
    forall i :: 0 < i < |run| ==> SameLimits(run[i - 1].services, run[i].services)
  }

  ghost predicate AllBounded(run: seq<World>) {
    forall i :: 0 <= i < |run| ==> Bounded(run[i].services)
  }

  lemma ShorterFixed(run: seq<World>)
    requires FixedLimits(run) && |run| > 1
    ensures FixedLimits(run[..|run| - 1])
  {
    var before := run[..|run| - 1];
    forall i | 0 < i < |before| ensures SameLimits(before[i - 1].services, before[i].services) {
      assert before[i - 1] == run[i - 1] && before[i] == run[i];
    }
  }

  lemma BoundedOn(run: seq<World>)
    requires run != [] && AllBounded(run[..|run| - 1]) && Bounded(run[|run| - 1].services)
    ensures AllBounded(run)
  {
    forall i | 0 <= i < |run| ensures Bounded(run[i].services) {
      assert i < |run| - 1 ==> run[..|run| - 1][i] == run[i];
    }
  }

  lemma FirstIsBounded(run: seq<World>)
    requires AtomicRun(run)
    ensures Bounded(run[0].services)
  {
    InitiallyBounded(run[0]);
  }

  lemma LastIsBounded(run: seq<World>)
    requires AtomicRun(run) && FixedLimits(run) && |run| > 1 && Bounded(run[|run| - 2].services)
    ensures Bounded(run[|run| - 1].services)
  {
    RunsAreOrderly(run);
    StepBounded(run[|run| - 2], run[|run| - 1]);
  }

  /**
   In every run with fixed limits, one proxy never holds more networks on a service than its limit, or one if the
   limit is zero, although the code compares the number of clients, of all proxies, with the limit.
   */
  lemma {:induction false} NetworksAreBounded(run: seq<World>)
    requires AtomicRun(run) && FixedLimits(run)
    ensures AllBounded(run)
    decreases |run|
  {
    if |run| == 1 {
      FirstIsBounded(run);
    } else {
      var before, last := run[..|run| - 1], |run| - 1;
      Shorter(run);
      ShorterFixed(run);
      NetworksAreBounded(before);
      assert before[last - 1] == run[last - 1] && Bounded(before[last - 1].services);
      LastIsBounded(run);
      BoundedOn(run);
    }
  }
}
