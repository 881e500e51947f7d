/** How many clients and probers, which hold no ports, can be live on one host. */
module PerHostBounds {
  import opened Types
  import opened TaskIds
  import opened ResourcePlans
  import opened Launching
  import opened Reactions
  import opened Slots
  import opened History
  import opened Cluster

  function LiveOn(w: World, svc: Service, host: string): set<nat> {
    set n | n in w.live && w.live[n].task.service == svc && w.live[n].host == host
  }

  /** The scheduler may launch the service on the host. */
  predicate Free(svc: Service, sl: Slot) {
    if svc == Client then sl.state == NOT_RUNNING else sl.state != STARTING && sl.state != RUNNING
  }

  /** At most r + 1 instances are live on the host, and at most r while another launch is possible. */
  predicate Bounded(w: World, svc: Service, host: string, r: nat) {
    && |LiveOn(w, svc, host)| <= r + 1
    && (Free(svc, SlotOf(w.sched, svc, host)) ==> |LiveOn(w, svc, host)| <= r)
  }

  lemma NewOn(cfg: Config, w: World, e: WorldEvent, svc: Service, host: string, n: nat)
    requires LiveOk(w) && n in LiveOn(Apply(cfg, w, e), svc, host) && n !in LiveOn(w, svc, host)
    ensures e.Callback? && e.event.OfferArrives? && e.event.offer.hostname == host
    ensures Starts(Step(cfg, w.sched, e.event).calls, svc)
    ensures var tasks := LaunchedTasks(Step(cfg, w.sched, e.event).calls);
            w.next <= n < w.next + |tasks| && tasks[n - w.next].service == svc
  {
    hide Step, LaunchedTasks, TaskId;
    if n in w.live {
      OldInstance(cfg, w, e, n);
    } else {
      NewInstance(cfg, w, e.event, e.accepted, n);
    }
  }

  /** One step starts at most one instance of a service on a host. */
  lemma LiveOnStep(cfg: Config, w: World, e: WorldEvent, svc: Service, host: string)
    requires LiveOk(w)
    ensures var was, now := LiveOn(w, svc, host), LiveOn(Apply(cfg, w, e), svc, host);
            || now <= was
            || (&& |now| <= |was| + 1 && e.Callback? && e.event.OfferArrives? && e.event.offer.hostname == host
                && Starts(Step(cfg, w.sched, e.event).calls, svc))
  {
    hide Apply, Step, LaunchedTasks, LiveOk, Starts;
    var was, now := LiveOn(w, svc, host), LiveOn(Apply(cfg, w, e), svc, host);
    if born :| born in now && born !in was {
      NewOn(cfg, w, e, svc, host, born);
      forall n | n in now && n !in was
        ensures n == born
      {
        NewOn(cfg, w, e, svc, host, n);
        if n < born {
          DistinctLaunches(cfg, w.sched, e.event, n - w.next, born - w.next);
        } else if born < n {
          DistinctLaunches(cfg, w.sched, e.event, born - w.next, n - w.next);
        }
      }
      SubsetSize(now, was + {born});
    }
  }

  lemma ReleasedOn(w: World, e: WorldEvent, svc: Service, host: string)
    requires LiveOk(w) && Honest(w, e) && e.Callback? && Releases(e.event, TaskId(svc, host))
    ensures LiveOn(w, svc, host) == {}
  {
    hide TaskId;
  }

  /** How the slot of the client or the prober becomes free. */
  lemma FreedBy(cfg: Config, s: SchedState, e: Event, svc: Service, host: string)
    requires svc == Client || svc == Prober
    ensures var a, b := SlotOf(s, svc, host), SlotOf(Step(cfg, s, e).sched, svc, host);
            Free(svc, b) ==> Free(svc, a) || Releases(e, TaskId(svc, host)) || (e.Restart? && svc == Prober)
    ensures var a, b := SlotOf(s, svc, host), SlotOf(Step(cfg, s, e).sched, svc, host);
            e.OfferArrives? && e.offer.hostname == host && Starts(Step(cfg, s, e).calls, svc) ==> Free(svc, a) && !Free(svc, b)
  {
    hide Step, SlotOf, Starts, TaskId, Route;
    StepSlot(cfg, s, e, svc, host);
    if e.UpdateArrives? && Route(e.status.id).Some? {
      RoutedIdIsBuilt(e.status.id);
    }
  }

  lemma BoundedStep(cfg: Config, w: World, e: WorldEvent, svc: Service, host: string, r: nat)
    requires LiveOk(w) && Honest(w, e) && (svc == Client || svc == Prober) && Bounded(w, svc, host, r)
    ensures Bounded(Apply(cfg, w, e), svc, host, r + if IsRestart(e) && svc == Prober then 1 else 0)
  {
    hide Step, LaunchedTasks, LiveOk, SlotOf, Starts, TaskId, LiveOn, Honest;
    LiveOnStep(cfg, w, e, svc, host);
    if LiveOn(Apply(cfg, w, e), svc, host) <= LiveOn(w, svc, host) {
      SubsetSize(LiveOn(Apply(cfg, w, e), svc, host), LiveOn(w, svc, host));
    }
    if e.Callback? {
      FreedBy(cfg, w.sched, e.event, svc, host);
      if Releases(e.event, TaskId(svc, host)) {
        ReleasedOn(w, e, svc, host);
      }
    }
  }

  lemma FreshBounded(p: Persistent, svc: Service, host: string)
    ensures LiveOk(FreshWorld(p)) && Bounded(FreshWorld(p), svc, host, 0)
  {
    assert LiveOn(FreshWorld(p), svc, host) == {};
  }

  /**
   * In every honest run from an empty cluster at most one client is live per host, however often the scheduler is
   * restarted; for the prober each restart can add one, because an UNKNOWN prober is launched without being asked about.
   */
  lemma {:induction false} PerHostBound(cfg: Config, p: Persistent, es: seq<WorldEvent>, svc: Service, host: string)
    requires IsHonestRun(cfg, FreshWorld(p), es) && (svc == Client || svc == Prober)
    ensures var w := After(cfg, FreshWorld(p), es);
            LiveOk(w) && Bounded(w, svc, host, if svc == Prober then Restarts(es) else 0)
  {
    hide Apply, LiveOk, Bounded, Enabled, Honest, IsRestart;
    if es == [] {
      FreshBounded(p, svc, host);
    } else {
      var front, e := es[..|es| - 1], es[|es| - 1];
      var w := After(cfg, FreshWorld(p), front);
      PerHostBound(cfg, p, front, svc, host);
      LiveOkStep(cfg, w, e);
      BoundedStep(cfg, w, e, svc, host, if svc == Prober then Restarts(front) else 0);
    }
  }
}
