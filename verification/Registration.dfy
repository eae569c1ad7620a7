/** A service is registered exactly as long as it has replicas (src/services/service_info.rs:28-86). */
module Registration {
  import opened Types
  import opened ServiceTable
  import opened Teardown
  import opened Changes
  import opened Reconcile
  import opened Requests
  import opened AtomicSetup
  import opened AtomicRequests
  import opened Runs

  ghost predicate Populated(s: Services) {
    forall n :: n in s && s[n].Registered? ==> Reps(s, n) != []
  }

  lemma ShapePopulated(a: Services, b: Services)
    requires Populated(a) && SameShape(a, b)
    ensures Populated(b)
  {
    forall n | n in b && b[n].Registered? ensures Reps(b, n) != [] {
      assert n in a && |Reps(a, n)| == |Reps(b, n)|;
    }
  }

  lemma FinishPopulated(s0: Services, s: Services, change: ServiceChange)
    requires Populated(s)
    ensures Populated(Finish(s0, s, change))
  {
    var b := Finish(s0, s, change);
    forall n | n in b && b[n].Registered? ensures Reps(b, n) != [] {
      assert n in s && s[n].Registered?;
    }
  }

  lemma {:induction false} ApplyPopulated(w: World, changes: seq<ServiceChange>, w': World)
    requires Populated(w.services) && ApplyRel(w, changes, w')
    ensures Populated(w'.services)
    decreases |changes|
  {
    if changes != [] {
      var before, last := changes[..|changes| - 1], changes[|changes| - 1];
      var mid :| ApplyRel(w, before, mid) && ChangeRel(mid, last, w');
      ApplyPopulated(w, before, mid);
      var ops, cut: World :| Plan(mid, last, ops, cut) && OpsRel(mid, ops, cut)
        && w' == cut.(services := Finish(mid.services, cut.services, last));
      OpsShape(mid, ops, cut);
      ShapePopulated(mid.services, cut.services);
      FinishPopulated(mid.services, cut.services, last);
    }
  }

  lemma {:induction false} AddListedPopulated(s: Services, ip: Ip, list: seq<Listed>)
    requires Populated(s)
    ensures Populated(AddListed(s, ip, list))
  {
    if list != [] {
      AddListedPopulated(s, ip, list[..|list| - 1]);
    }
  }

  lemma MergePopulated(s: Services, loaded: Services)
    requires Populated(s) && FromFile(loaded)
    ensures Populated(Merge(s, loaded))
  {
  }

  lemma EventPopulated(w: World, event: Event, w': World)
    requires Orderly(w) && Populated(w.services) && EventRel(w, event, w')
    ensures Populated(w'.services)
  {
    match event
    case Serve(req, now) =>
      var answer :| RequestRel(w, req, now, w', answer);
      RequestIsOrderly(w, req, now, w', answer);
      ShapePopulated(w.services, w'.services);
    case Trigger(n, port, sender, now) =>
      TriggerIsOrderly(w, n, port, sender, now, w');
      ShapePopulated(w.services, w'.services);
    case Expire(now) =>
      var changes :| TimeoutsDetected(w.services, now, changes) && ApplyRel(w, changes, w');
      ApplyPopulated(w, changes, w');
    case Disconnect(ip) =>
      var changes :| DisconnectDetected(w.services, ip, changes) && ApplyRel(w, changes, w');
      ApplyPopulated(w, changes, w');
    case Register(ip, list) =>
      var changes: seq<ServiceChange>, mid: World :|
        Enumerates(changes, NoLongerListed(w.services, ip, list)) && ApplyRel(w, changes, mid)
        && w' == mid.(services := AddListed(mid.services, ip, list));
      ApplyPopulated(w, changes, mid);
      AddListedPopulated(mid.services, ip, list);
    case Reload(loaded, now) =>
      var changes, mid: World :| ConfigDetected(w.services, loaded, now, changes) && ApplyRel(w, changes, mid)
        && w' == mid.(services := Merge(mid.services, loaded));
      ApplyPopulated(w, changes, mid);
      MergePopulated(mid.services, loaded);
  }

  lemma StepPopulated(w: World, w': World)
    requires Orderly(w) && Populated(w.services) && Step(w, w')
    ensures Populated(w'.services)
  {
    var event :| EventRel(w, event, w');
    EventPopulated(w, event, w');
  }

  /** The service has a replica, on whatever host and port. */
  ghost predicate Replicated(s: Services, n: Name) {
    exists r :: Port(s, n, r).Some?
  }

  /** In every state of a run a service is registered exactly if it has a replica. */
  lemma RegisteredIffReplicated(run: seq<World>, n: Name)
    requires AtomicRun(run) && n in run[|run| - 1].services
    ensures run[|run| - 1].services[n].Registered? <==> Replicated(run[|run| - 1].services, n)
  {
    RunsPopulated(run);
    var s := run[|run| - 1].services;
    PortsOfReps(s, n);
    if r :| Port(s, n, r).Some? {
      HasRepByPort(s, n, r);
    }
  }

  lemma PortsOfReps(s: Services, n: Name)
    ensures Reps(s, n) != [] ==> Port(s, n, Reps(s, n)[0].Id()).Some?
  {
  }

  lemma {:induction false} RunsPopulated(run: seq<World>)
    requires AtomicRun(run)
    ensures Populated(run[|run| - 1].services)
    decreases |run|
  {
    if |run| > 1 {
      Shorter(run);
      RunsPopulated(run[..|run| - 1]);
      RunsAreOrderly(run[..|run| - 1]);
      StepPopulated(run[|run| - 2], run[|run| - 1]);
    }
  }
}
