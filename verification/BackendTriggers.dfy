/** When a backend trigger sets its chain up, which one, and that it can (src/nullnet_grpc_impl.rs:390-496). */
module BackendTriggers {
  import opened Types
  import opened NetIdPool
  import opened ServiceTable
  import opened Chains
  import opened Teardown
  import opened Setup
  import opened ChainSetup
  import opened Requests
  import opened AtomicSetup
  import opened AtomicRequests
  import opened Success
  import opened Stickiness
  import opened Limits

  /** Of the service's replicas on the host this one comes first. */
  ghost predicate FirstOn(s: Services, n: Name, host: Ip, r: ReplicaId) {
    exists i :: 0 <= i < |Reps(s, n)| && Reps(s, n)[i].Id() == r && r.ip == host
                && forall j :: 0 <= j < i ==> Reps(s, n)[j].ip != host
  }

  lemma {:induction false} ReplicaOnIsFirst(reps: seq<Replica>, host: Ip)
    ensures match ReplicaOn(reps, host)
      case None => forall j :: 0 <= j < |reps| ==> reps[j].ip != host
      case Some(r) => exists i :: 0 <= i < |reps| && reps[i].Id() == r && r.ip == host
                                  && forall j :: 0 <= j < i ==> reps[j].ip != host
  {
    if reps != [] {
      if reps[0].ip == host {
        assert reps[0].Id() == ReplicaOn(reps, host).value;
      } else {
        ReplicaOnIsFirst(reps[1..], host);
        forall j | 0 < j < |reps| ensures reps[j] == reps[1..][j - 1] {}
        if ReplicaOn(reps, host).Some? {
          var i :| 0 <= i < |reps[1..]| && reps[1..][i].Id() == ReplicaOn(reps, host).value
            && forall j :: 0 <= j < i ==> reps[1..][j].ip != host;
          assert reps[i + 1].Id() == ReplicaOn(reps, host).value;
        }
      }
    }
  }

  lemma FirstIsReplicaOn(s: Services, n: Name, host: Ip, r: ReplicaId)
    ensures FirstOn(s, n, host, r) <==> ReplicaOn(Reps(s, n), host) == Some(r)
  {
    var reps := Reps(s, n);
    ReplicaOnIsFirst(reps, host);
    if FirstOn(s, n, host, r) {
      var i :| 0 <= i < |reps| && reps[i].Id() == r && r.ip == host && forall j :: 0 <= j < i ==> reps[j].ip != host;
      assert reps[i].ip == host;
      var got := ReplicaOn(reps, host).value;
      var k :| 0 <= k < |reps| && reps[k].Id() == got && got.ip == host && forall j :: 0 <= j < k ==> reps[j].ip != host;
      assert reps[k].ip == host && !(k < i) && !(i < k);
    }
  }

  /** The chain that the service has configured for the port, `[]` if none. */
  function Configured(s: Services, n: Name, port: nat): seq<Name> {
    if n in s && port in s[n].config.triggers then s[n].config.triggers[port] else []
  }

  /**
   The trigger of the port is due for replica `r`: the service is an entry point, `r` is its first replica on the host
   that sends, the chain is not empty, each of its services has a replica, and its first edge is not there.
   */
  ghost predicate Due(s: Services, n: Name, port: nat, sender: Ip, r: ReplicaId) {
    var chain := Configured(s, n, port);
    && n in s && s[n].config.timeout.Some? && FirstOn(s, n, sender, r)
    && chain != [] && (forall d :: d in chain ==> Reps(s, d) != [])
    && forall q :: Entry(s, Link(Client(n, None, Some(r)), chain[0], q)).None?
  }

  /** The edges lead from the replica along the chain; the first one carries the port. */
  ghost predicate TriggerLeads(s: Services, chain: seq<Name>, n: Name, r: ReplicaId, port: nat, edges: seq<RegisteredEdge>) {
    && edges != [] && edges[0].entryPort == Some(port)
    && Leads(s, chain, n, r, edges[0 := edges[0].(entryPort := None)])
  }

  lemma TriggeredLead(s: Services, n: Name, r: ReplicaId, port: nat)
    requires Unique(s)
    ensures var chain, edges := Configured(s, n, port), TriggeredEdges(s, n, r, port);
      && (edges.Some? <==> chain != [] && forall d :: d in chain ==> Reps(s, d) != [])
      && (edges.Some? ==> TriggerLeads(s, chain, n, r, port, edges.value))
  {
    var chain := Configured(s, n, port);
    assert TriggerChain(s, n, port) == chain;
    BuiltLeads(s, chain, n, r);
    var built := AllRegistered(BuildChain(s, chain, n, Some(r)));
    if built.Some? && built.value != [] {
      var edges := built.value[0 := built.value[0].(entryPort := Some(port))];
      assert EdgeLeads(s, NameBefore(chain, n, 0), PlaceBefore(built.value, r, 0), chain[0], built.value[0]);
      assert edges[0 := edges[0].(entryPort := None)] == built.value;
    }
  }

  lemma FirstEdgeIsNew(s: Services, d: Name, c: Client)
    requires Unique(s)
    ensures Holder(s, d, c).None? <==> forall q :: Entry(s, Link(c, d, q)).None?
  {
    HolderSpec(s, d, c);
    if Holder(s, d, c).Some? {
      assert Entry(s, Link(c, d, Holder(s, d, c).value)).Some?;
    }
  }

  /** The relation of a trigger, without its helpers: nothing happens unless it is due, and then its chain is set up. */
  lemma TriggerIs(w: World, n: Name, port: nat, sender: Ip, now: nat, w': World, r: ReplicaId)
    requires Unique(w.services) && Due(w.services, n, port, sender, r)
    ensures var edges := TriggeredEdges(w.services, n, r, port);
      && edges.Some? && TriggerLeads(w.services, Configured(w.services, n, port), n, r, port, edges.value)
      && (TriggerRel(w, n, port, sender, now, w') <==>
            exists ok, upstream :: ChainSetupRel(w, edges.value, now, w', ok, upstream))
  {
    var s := w.services;
    FirstIsReplicaOn(s, n, sender, r);
    TriggeredLead(s, n, r, port);
    FirstEdgeIsNew(s, Configured(s, n, port)[0], ServiceClient(n, r));
    assert TriggerChain(s, n, port) == Configured(s, n, port);
  }

  lemma SetUpIsDue(s: Services, n: Name, port: nat, sender: Ip, at: ReplicaId)
    requires Unique(s) && n in s && s[n].config.timeout.Some? && ReplicaOn(Reps(s, n), sender) == Some(at)
    requires var chain := Configured(s, n, port); chain != [] && Holder(s, chain[0], ServiceClient(n, at)).None?
    requires TriggeredEdges(s, n, at, port).Some?
    ensures Due(s, n, port, sender, at)
  {
    FirstIsReplicaOn(s, n, sender, at);
    TriggeredLead(s, n, at, port);
    FirstEdgeIsNew(s, Configured(s, n, port)[0], ServiceClient(n, at));
  }

  /** A trigger that is due for no replica has no effect. */
  lemma TriggerIsIdle(w: World, n: Name, port: nat, sender: Ip, now: nat, w': World)
    requires Unique(w.services) && TriggerRel(w, n, port, sender, now, w')
    requires forall r :: !Due(w.services, n, port, sender, r)
    ensures w' == w
  {
    var s, at := w.services, ReplicaOn(Reps(w.services, n), sender);
    if w' != w {
      assert TriggerChain(s, n, port) == Configured(s, n, port);
      SetUpIsDue(s, n, port, sender, at.value);
      assert false;
    }
  }

  lemma SameLink(edges: seq<RegisteredEdge>, k: nat)
    requires k < |edges|
    ensures edges[0 := edges[0].(entryPort := None)][k].Link() == edges[k].Link()
    ensures edges[0 := edges[0].(entryPort := None)][k].server == edges[k].server
    ensures edges[0 := edges[0].(entryPort := None)][k].at == edges[k].at
    ensures edges[0 := edges[0].(entryPort := None)][k].client == edges[k].client
  {
  }

  lemma LeadsToReplicas(s: Services, chain: seq<Name>, n: Name, r: ReplicaId, port: nat, edges: seq<RegisteredEdge>, k: nat)
    requires TriggerLeads(s, chain, n, r, port, edges) && k < |edges|
    ensures HasRep(s, edges[k].server, edges[k].at) && edges[k].client.proxy.None? && edges[k].server == chain[k]
    ensures k == 0 ==> edges[0].client == Client(n, None, Some(r))
  {
    var plain := edges[0 := edges[0].(entryPort := None)];
    SameLink(edges, k);
    assert EdgeLeads(s, NameBefore(chain, n, k), PlaceBefore(plain, r, k), chain[k], plain[k]);
  }

  /**
   A trigger that is due can set its chain up while there are IDs: there is a course after which the entries are those
   before and those of the chain.
   */
  lemma TriggerCanSucceed(w: World, n: Name, port: nat, sender: Ip, r: ReplicaId, now: nat)
    returns (w': World, edges: seq<RegisteredEdge>)
    requires Orderly(w) && Due(w.services, n, port, sender, r)
    requires Spare(w.pool) >= |Configured(w.services, n, port)|
    ensures TriggerRel(w, n, port, sender, now, w')
    ensures TriggerLeads(w.services, Configured(w.services, n, port), n, r, port, edges)
    ensures forall l :: Entry(w'.services, l).Some? <==> Entry(w.services, l).Some? || OnChain(edges, l)
  {
    TriggerIs(w, n, port, sender, now, w, r);
    edges := TriggeredEdges(w.services, n, r, port).value;
    TriggeredAreServices(w.services, n, r, port);
    forall k | 0 <= k < |edges| ensures HasRep(w.services, edges[k].server, edges[k].at) {
      LeadsToReplicas(w.services, Configured(w.services, n, port), n, r, port, edges, k);
    }
    var upstream: Option<Ipv4>;
    w', upstream := ChainCanSucceed(w, edges, |edges|, now);
    TriggerIs(w, n, port, sender, now, w', r);
  }

  /**
   Whatever entry a trigger brings is one of the chain that is configured for its port, which begins at the service's
   first replica on the host that sends.
   */
  lemma TriggerBringsItsChain(w: World, n: Name, port: nat, sender: Ip, now: nat, w': World, l: Link)
    returns (r: ReplicaId, edges: seq<RegisteredEdge>)
    requires Orderly(w) && TriggerRel(w, n, port, sender, now, w')
    requires Entry(w.services, l).None? && Entry(w'.services, l).Some?
    ensures Due(w.services, n, port, sender, r) && OnChain(edges, l)
    ensures TriggerLeads(w.services, Configured(w.services, n, port), n, r, port, edges)
    ensures edges[0].client == Client(n, None, Some(r)) && edges[0].server == Configured(w.services, n, port)[0]
  {
    if forall q :: !Due(w.services, n, port, sender, q) {
      TriggerIsIdle(w, n, port, sender, now, w');
      assert false;
    }
    r :| Due(w.services, n, port, sender, r);
    TriggerIs(w, n, port, sender, now, w', r);
    edges := TriggeredEdges(w.services, n, r, port).value;
    var ok, upstream :| ChainSetupRel(w, edges, now, w', ok, upstream);
    TriggeredPicked(w.services, n, r, port);
    ChainEntries(w, edges, now, w', ok, upstream);
    LeadsToReplicas(w.services, Configured(w.services, n, port), n, r, port, edges, 0);
  }
}
