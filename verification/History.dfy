/** Properties of whole histories of one scheduler: hand-over, failover, dashed host names, probe rate. */
module History {
  import opened Types
  import opened TaskIds
  import opened ResourcePlans
  import opened Policy
  import opened Launching
  import opened Reactions
  import opened Slots

  /** The state just before the k-th event. */
  function Before(cfg: Config, s: SchedState, es: seq<Event>, k: nat): SchedState
    requires k <= |es|
  {
    Run(cfg, s, es[..k])
  }

  function CallsAt(cfg: Config, s: SchedState, es: seq<Event>, k: nat): seq<DriverCall>
    requires k < |es|
  {
    Step(cfg, Before(cfg, s, es, k), es[k]).calls
  }

  /** The k-th event is an offer that launches the service. */
  predicate LaunchesAt(cfg: Config, s: SchedState, es: seq<Event>, k: nat, svc: Service)
    requires k < |es|
  {
    es[k].OfferArrives? && Starts(CallsAt(cfg, s, es, k), svc)
  }

  lemma BeforeNext(cfg: Config, s: SchedState, es: seq<Event>, k: nat)
    requires k < |es|
    ensures Before(cfg, s, es, k + 1) == Step(cfg, Before(cfg, s, es, k), es[k]).sched
  {
    assert es[..k + 1][..k] == es[..k];
  }

  predicate NoRestart(es: seq<Event>, i: nat, j: nat)
    requires i <= j <= |es|
  {
    forall k | i <= k < j :: !es[k].Restart?
  }

  /** A FAILED, KILLED, LOST or ERROR update for exactly this id. */
  predicate Releases(e: Event, id: string) {
    e.UpdateArrives? && IsReleaseState(e.status.state) && e.status.id == id
  }

  /** One step of the slot of (svc, host) between events k and k + 1. */
  lemma SlotAt(cfg: Config, s: SchedState, es: seq<Event>, k: nat, svc: Service, host: string)
    requires k < |es|
    ensures SlotStep(es[k], CallsAt(cfg, s, es, k), svc, host,
                     SlotOf(Before(cfg, s, es, k), svc, host), SlotOf(Before(cfg, s, es, k + 1), svc, host))
  {
    hide SlotStep, SlotOf, Step;
    StepSlot(cfg, Before(cfg, s, es, k), es[k], svc, host);
    BeforeNext(cfg, s, es, k);
  }

  // --------------------------------------------------------------- hand-over

  lemma RecordedStays(e: Event, calls: seq<DriverCall>, svc: Service, host: string, id: string, a: Slot, b: Slot)
    requires SlotStep(e, calls, svc, host, a, b) && !e.Restart?
    requires id != "" && a == Slot(RUNNING, id)
    requires !(Releases(e, id) && Route(id).Some?)
    ensures b == a
  {
    hide Route, TaskId, Starts;
  }

  lemma ProberStays(e: Event, calls: seq<DriverCall>, host: string, a: Slot, b: Slot)
    requires SlotStep(e, calls, Prober, host, a, b) && !e.Restart?
    requires a.state == STARTING || a.state == RUNNING
    requires !Releases(e, TaskId(Prober, host))
    ensures b.state == STARTING || b.state == RUNNING
  {
    hide Route, TaskId, Starts;
    if e.UpdateArrives? && Route(e.status.id).Some? {
      RoutedIdIsBuilt(e.status.id);
    }
  }

  /** A recorded id survives everything but a restart and a routed release update for exactly that id. */
  lemma {:induction false} RecordedUntilReleased(cfg: Config, s: SchedState, es: seq<Event>, i: nat, j: nat, svc: Service, host: string, id: string)
    requires i <= j <= |es| && NoRestart(es, i, j)
    requires id != "" && SlotOf(Before(cfg, s, es, i), svc, host) == Slot(RUNNING, id)
    requires forall k | i <= k < j :: !(Releases(es[k], id) && Route(id).Some?)
    ensures SlotOf(Before(cfg, s, es, j), svc, host) == Slot(RUNNING, id)
  {
    hide Route, TaskId, SlotOf, SlotStep, Releases, Step;
    if i < j {
      RecordedUntilReleased(cfg, s, es, i, j - 1, svc, host, id);
      SlotAt(cfg, s, es, j - 1, svc, host);
      RecordedStays(es[j - 1], CallsAt(cfg, s, es, j - 1), svc, host, id,
                    SlotOf(Before(cfg, s, es, j - 1), svc, host), SlotOf(Before(cfg, s, es, j), svc, host));
    }
  }

  /** A prober slot in use stays in use until a release update for the host's prober id. */
  lemma {:induction false} ProberUntilReleased(cfg: Config, s: SchedState, es: seq<Event>, i: nat, j: nat, host: string)
    requires i <= j <= |es| && NoRestart(es, i, j)
    requires var sl := SlotOf(Before(cfg, s, es, i), Prober, host); sl.state == STARTING || sl.state == RUNNING
    requires forall k | i <= k < j :: !Releases(es[k], TaskId(Prober, host))
    ensures var sl := SlotOf(Before(cfg, s, es, j), Prober, host); sl.state == STARTING || sl.state == RUNNING
  {
    hide Route, TaskId, SlotOf, SlotStep, Releases, Step;
    if i < j {
      ProberUntilReleased(cfg, s, es, i, j - 1, host);
      SlotAt(cfg, s, es, j - 1, Prober, host);
      ProberStays(es[j - 1], CallsAt(cfg, s, es, j - 1), host,
                  SlotOf(Before(cfg, s, es, j - 1), Prober, host), SlotOf(Before(cfg, s, es, j), Prober, host));
    }
  }

  /** The slot of a service right before and after the event that launches it. */
  lemma LaunchSlots(cfg: Config, s: SchedState, es: seq<Event>, k: nat, svc: Service, host: string)
    requires k < |es| && LaunchesAt(cfg, s, es, k, svc) && Addresses(es[k].offer.hostname, svc, host)
    ensures LaunchChange(svc, es[k].offer.hostname,
                         SlotOf(Before(cfg, s, es, k), svc, host), SlotOf(Before(cfg, s, es, k + 1), svc, host))
  {
    hide SlotOf, LaunchChange, Step;
    SlotAt(cfg, s, es, k, svc, host);
  }

  /**
   * Hand-over: between two launches of a singleton on any hosts, or of the client or the prober on one host,
   * a FAILED/KILLED/LOST/ERROR update for exactly the first launch's id was received.
   */
  lemma HandOver(cfg: Config, s: SchedState, es: seq<Event>, i: nat, j: nat, svc: Service)
    requires i < j < |es| && NoRestart(es, i, j)
    requires LaunchesAt(cfg, s, es, i, svc) && LaunchesAt(cfg, s, es, j, svc) && !IsCore(svc)
    requires Addresses(es[j].offer.hostname, svc, es[i].offer.hostname)
    ensures exists k | i < k < j :: Releases(es[k], TaskId(svc, es[i].offer.hostname))
  {
    hide Route, TaskId, Starts, SlotOf;
    var host := es[i].offer.hostname;
    var id := TaskId(svc, host);
    LaunchSlots(cfg, s, es, i, svc, host);
    LaunchSlots(cfg, s, es, j, svc, host);
    BuiltIdOk(svc, host);
    if forall k | i < k < j :: !Releases(es[k], id) {
      if svc == Prober {
        ProberUntilReleased(cfg, s, es, i + 1, j, host);
      } else {
        RecordedUntilReleased(cfg, s, es, i + 1, j, svc, host, id);
      }
    }
  }

  // --------------------------------------------------------------- failover

  /** A release update credited to (svc, host); for per-host services it is for exactly that host's id. */
  predicate ReleasesSlot(e: Event, svc: Service, host: string) {
    && e.UpdateArrives? && IsReleaseState(e.status.state)
    && if IsSingleton(svc) then RoutesTo(e.status.id, svc, host) else e.status.id == TaskId(svc, host) && '-' !in host
  }

  /** From just after event k up to now the service has been NOT_RUNNING: nothing has adopted it. */
  ghost predicate NotRunningSince(cfg: Config, s: SchedState, es: seq<Event>, k: nat, svc: Service, host: string)
  {
    forall j {:trigger Before(cfg, s, es, j)} | k < j <= |es| :: SlotOf(Before(cfg, s, es, j), svc, host).state == NOT_RUNNING
  }

  /** A service that is NOT_RUNNING now but was not at first has been released, and not adopted since. */
  lemma {:induction false} ReleasedBefore(cfg: Config, s: SchedState, es: seq<Event>, svc: Service, host: string)
    requires SlotOf(s, svc, host).state != NOT_RUNNING
    requires SlotOf(Run(cfg, s, es), svc, host).state == NOT_RUNNING
    ensures exists k: nat | k < |es| :: ReleasesSlot(es[k], svc, host) && NotRunningSince(cfg, s, es, k, svc, host)
  {
    hide Route, TaskId, Starts, SlotOf, SlotStep, Step;
    if es != [] {
      var n := |es| - 1;
      var front := es[..n];
      assert es[..n + 1] == es;
      SlotAt(cfg, s, es, n, svc, host);
      if SlotOf(Run(cfg, s, front), svc, host).state == NOT_RUNNING {
        ReleasedBefore(cfg, s, front, svc, host);
        var k: nat :| k < n && ReleasesSlot(front[k], svc, host) && NotRunningSince(cfg, s, front, k, svc, host);
        forall j | k < j <= |es|
          ensures SlotOf(Before(cfg, s, es, j), svc, host).state == NOT_RUNNING
        {
          if j <= n {
            assert front[..j] == es[..j];
            assert Before(cfg, s, front, j) == Before(cfg, s, es, j);
          }
        }
        assert ReleasesSlot(es[k], svc, host);
      } else {
        BecomesNotRunning(es[n], CallsAt(cfg, s, es, n), svc, host,
                          SlotOf(Before(cfg, s, es, n), svc, host), SlotOf(Before(cfg, s, es, n + 1), svc, host));
        assert NotRunningSince(cfg, s, es, n, svc, host);
      }
    }
  }

  lemma BecomesNotRunning(e: Event, calls: seq<DriverCall>, svc: Service, host: string, a: Slot, b: Slot)
    requires SlotStep(e, calls, svc, host, a, b)
    requires a.state != NOT_RUNNING && b.state == NOT_RUNNING
    ensures ReleasesSlot(e, svc, host)
  {
    hide TaskId, Starts;
    if e.UpdateArrives? && Route(e.status.id).Some? {
      RoutedIdIsBuilt(e.status.id);
    }
  }

  /**
   * Failover safety: a scheduler that restarts knowing only its persistent state launches a registry, metadata,
   * data, client or singleton task only after a release update for it has arrived since the restart, with the
   * service NOT_RUNNING (hence not adopted) ever since. For a per-host service the update is for exactly that
   * host's task id, and the host name has no dash.
   */
  lemma FailoverSafety(cfg: Config, p: Persistent, es: seq<Event>, i: nat, svc: Service)
    requires i < |es| && LaunchesAt(cfg, FreshSched(p), es, i, svc) && svc != Prober
    ensures var host := es[i].offer.hostname;
            exists k: nat | k < i :: ReleasesSlot(es[k], svc, host) && NotRunningSince(cfg, FreshSched(p), es[..i], k, svc, host)
  {
    hide Route, TaskId, Starts, Step;
    var host := es[i].offer.hostname;
    LaunchSlots(cfg, FreshSched(p), es, i, svc, host);
    ReleasedBefore(cfg, FreshSched(p), es[..i], svc, host);
    var k: nat :| k < i && ReleasesSlot(es[..i][k], svc, host) && NotRunningSince(cfg, FreshSched(p), es[..i], k, svc, host);
    assert ReleasesSlot(es[k], svc, host);
  }

  function LastVersion(es: seq<Event>, version: string): string {
    if es == [] then version
    else if es[|es| - 1].VersionPost? then es[|es| - 1].version
    else LastVersion(es[..|es| - 1], version)
  }

  function LastFrameworkId(es: seq<Event>, id: string): string {
    if es == [] then id
    else if es[|es| - 1].Registered? then es[|es| - 1].frameworkId
    else LastFrameworkId(es[..|es| - 1], id)
  }

  lemma StepPersistent(cfg: Config, s: SchedState, e: Event)
    ensures var p := Step(cfg, s, e).sched.persistent;
            && p.targetVersion == (if e.VersionPost? then e.version else s.persistent.targetVersion)
            && p.frameworkId == (if e.Registered? then e.frameworkId else s.persistent.frameworkId)
  {
    hide TaskId, Plan, ServiceStage, ServiceNamed;
  }

  /** Across any history, restarts included, the framework id and target version are the last ones set. */
  lemma {:induction false} PersistentIsLastSet(cfg: Config, s: SchedState, es: seq<Event>)
    ensures Run(cfg, s, es).persistent
         == Persistent(LastFrameworkId(es, s.persistent.frameworkId), LastVersion(es, s.persistent.targetVersion))
  {
    hide Step;
    if es != [] {
      PersistentIsLastSet(cfg, s, es[..|es| - 1]);
      StepPersistent(cfg, Run(cfg, s, es[..|es| - 1]), es[|es| - 1]);
    }
  }

  /** A restart forgets everything but the persistent state, so later behaviour is that of a fresh scheduler. */
  lemma {:induction false} RestartStartsOver(cfg: Config, s: SchedState, es: seq<Event>, r: nat)
    requires r < |es| && es[r].Restart?
    ensures Run(cfg, s, es) == Run(cfg, FreshSched(Before(cfg, s, es, r).persistent), es[r + 1..])
  {
    hide HandleOffer, HandleUpdate, HandleMessage;
    var n := |es| - 1;
    if r == n {
      assert es[r + 1..] == [];
    } else {
      var front := es[..n];
      assert front[..r] == es[..r];
      RestartStartsOver(cfg, s, front, r);
      var tail := es[r + 1..];
      assert tail[..|tail| - 1] == front[r + 1..];
    }
  }

  // --------------------------------------------------------------- probe requests and foreign loss reports

  predicate Probes(calls: seq<DriverCall>) {
    exists c | c in calls :: c.SendProbeRequest?
  }

  lemma StartedBy(calls: seq<DriverCall>, t: TaskInfo)
    requires t in LaunchedTasks(calls)
    ensures Starts(calls, t.service)
  {
  }

  lemma OfferStep(cfg: Config, s: SchedState, e: Event)
    requires e.OfferArrives?
    ensures Step(cfg, s, e) == HandleOffer(cfg, s, e.offer, e.ticks)
  {
  }

  /** A probe request goes out exactly when the host is known, its prober runs and the interval has passed. */
  lemma ProbedOnlyIfRunning(cfg: Config, s: SchedState, o: Offer, t: Ticks)
    ensures Probes(HandleOffer(cfg, s, o, t).calls) <==>
              !HostRestricted(cfg, o.hostname) && o.hostname in s.nodes && ProbeDue(cfg, s.nodes[o.hostname], t)
    ensures Probes(HandleOffer(cfg, s, o, t).calls) ==>
              var n := HandleOffer(cfg, s, o, t).sched.nodes; o.hostname in n && n[o.hostname].lastProbe == t.probeAt
  {
    hide TaskId, Plan, ServiceStage, HostTaskIds, ShutdownCalls, HostRestricted;
    if !HostRestricted(cfg, o.hostname) && o.hostname in s.nodes {
      var n := s.nodes[o.hostname].(lastOffer := t.offerAt);
      ShutdownOnlyKills(s, n, o.hostname);
      var calls := HandleOffer(cfg, s, o, t).calls;
      if ProbeDue(cfg, n, t) {
        assert calls[0].SendProbeRequest?;
      } else {
        assert forall c | c in calls :: c in ShutdownCalls(s, n, o.hostname) || c.DeclineOffer? || c.LaunchTasks?;
      }
    }
  }

  /**
   * With no id recorded, as after a restart, a loss report for the id of any dash-free host makes a singleton
   * startable, even while another instance of it is live elsewhere; one for a dashed host does nothing.
   */
  lemma LossElsewhereUnlocks(s: SchedState, svc: Service, host: string, st: TaskStatus, at: int)
    requires IsSingleton(svc) && SlotOf(s, svc, host).taskId == ""
    requires IsReleaseState(st.state) && st.id == TaskId(svc, host)
    ensures SlotOf(HandleUpdate(s, st, at).sched, svc, host)
         == if '-' in host then SlotOf(s, svc, host) else Slot(NOT_RUNNING, "")
  {
    hide TaskId, HandleUpdate, SlotOf;
    RoutingRoundTrip(svc, host);
    UpdateSlot(s, st, at, svc, host);
  }

  // --------------------------------------------------------------- probe rate and keep-alive

  predicate Timed(e: Event) {
    e.OfferArrives? || e.UpdateArrives? || e.ProbeReply?
  }

  /** First and last clock reading of an event. */
  function Begin(e: Event): int
    requires Timed(e)
  {
    if e.OfferArrives? then e.ticks.offerAt else e.at
  }

  function End(e: Event): int
    requires Timed(e)
  {
    if e.OfferArrives? then e.ticks.probeAt else e.at
  }

  /** The clock readings of a history never go back, across events and within one. */
  predicate Monotone(es: seq<Event>) {
    && (forall i | 0 <= i < |es| && es[i].OfferArrives? :: Ordered(es[i].ticks))
    && (forall i, j | 0 <= i < j < |es| && Timed(es[i]) && Timed(es[j]) :: End(es[i]) <= Begin(es[j]))
  }

  predicate ProbesAt(cfg: Config, s: SchedState, es: seq<Event>, k: nat, host: string)
    requires k < |es|
  {
    es[k].OfferArrives? && es[k].offer.hostname == host && Probes(CallsAt(cfg, s, es, k))
  }

  /** What one event does to the recorded time of the last probe of a known host. */
  lemma StepLastProbe(cfg: Config, s: SchedState, e: Event, host: string)
    requires host in s.nodes && !e.Restart?
    ensures var r := Step(cfg, s, e);
            && host in r.sched.nodes
            && r.sched.nodes[host].lastProbe ==
                 (if e.OfferArrives? && e.offer.hostname == host && Probes(r.calls) then e.ticks.probeAt
                  else s.nodes[host].lastProbe)
  {
    hide TaskId, ServiceNamed, Probes, HandleOffer;
    if e.OfferArrives? {
      OfferLastProbe(cfg, s, e.offer, e.ticks, host);
    }
  }

  lemma OfferLastProbe(cfg: Config, s: SchedState, o: Offer, t: Ticks, host: string)
    requires host in s.nodes
    ensures var r := HandleOffer(cfg, s, o, t);
            && host in r.sched.nodes
            && r.sched.nodes[host].lastProbe ==
                 if o.hostname == host && Probes(r.calls) then t.probeAt else s.nodes[host].lastProbe
  {
    hide TaskId, Plan, ServiceStage, HostTaskIds, ShutdownCalls, Agenda, Probes, HostRestricted;
    ProbedOnlyIfRunning(cfg, s, o, t);
    if o.hostname in s.nodes {
      var n := s.nodes[o.hostname].(lastOffer := t.offerAt);
      var g := StartStage(s, n, o);
      AttemptAllInv(cfg, o, s.persistent.targetVersion, g, Agenda(n.deviceTypes));
      StageIsAttempts(cfg, o, s.persistent.targetVersion, g);
    }
  }

  lemma {:induction false} LastProbeKept(cfg: Config, s: SchedState, es: seq<Event>, i: nat, j: nat, host: string)
    requires i < j <= |es| && NoRestart(es, i, j) && Monotone(es)
    requires ProbesAt(cfg, s, es, i, host)
    ensures var nodes := Before(cfg, s, es, j).nodes; host in nodes && nodes[host].lastProbe >= es[i].ticks.probeAt
  {
    hide Step, Probes;
    if j == i + 1 {
      BeforeNext(cfg, s, es, i);
      OfferStep(cfg, Before(cfg, s, es, i), es[i]);
      ProbedOnlyIfRunning(cfg, Before(cfg, s, es, i), es[i].offer, es[i].ticks);
    } else {
      LastProbeKept(cfg, s, es, i, j - 1, host);
      BeforeNext(cfg, s, es, j - 1);
      StepLastProbe(cfg, Before(cfg, s, es, j - 1), es[j - 1], host);
    }
  }

  /**
   * Probe rate: with a monotone clock and no restart in between, two probe requests to one host are recorded
   * more than the probe interval apart, whatever happens in between.
   */
  lemma ProbeRate(cfg: Config, s: SchedState, es: seq<Event>, i: nat, j: nat, host: string)
    requires i < j < |es| && NoRestart(es, i, j) && Monotone(es)
    requires ProbesAt(cfg, s, es, i, host) && ProbesAt(cfg, s, es, j, host)
    ensures es[j].ticks.probeAt - es[i].ticks.probeAt > cfg.probeInterval
  {
    hide Step, Probes, HandleOffer;
    LastProbeKept(cfg, s, es, i, j, host);
    OfferStep(cfg, Before(cfg, s, es, j), es[j]);
    ProbedOnlyIfRunning(cfg, Before(cfg, s, es, j), es[j].offer, es[j].ticks);
  }

  /** A known host keeps the slave id it was first seen under, and its prober is last seen no earlier than before. */
  lemma StepNode(cfg: Config, s: SchedState, e: Event, host: string)
    requires host in s.nodes && !e.Restart?
    ensures var nodes := Step(cfg, s, e).sched.nodes;
            && host in nodes && nodes[host].slaveId == s.nodes[host].slaveId
            && (nodes[host].prober.lastSeen == s.nodes[host].prober.lastSeen
                || (e.UpdateArrives? && Reports(e.status, host) && nodes[host].prober.lastSeen == e.at)
                || (e.ProbeReply? && e.slaveId == s.nodes[host].slaveId && nodes[host].prober.lastSeen == e.at))
            && (e.ProbeReply? && e.slaveId == s.nodes[host].slaveId && e.response.Some? ==> nodes[host].prober.lastSeen == e.at)
  {
    hide TaskId, HandleUpdate, HandleOffer;
    match e
    case OfferArrives(o, t) => OfferNode(cfg, s, o, t, host);
    case UpdateArrives(st, at) => UpdateNode(s, st, at, host);
    case _ =>
  }

  lemma UpdateNode(s: SchedState, st: TaskStatus, at: int, host: string)
    requires host in s.nodes
    ensures var nodes := HandleUpdate(s, st, at).sched.nodes;
            && host in nodes && nodes[host].slaveId == s.nodes[host].slaveId
            && (nodes[host].prober.lastSeen == s.nodes[host].prober.lastSeen
                || (nodes[host].prober.lastSeen == at && Reports(st, host)))
  {
    hide TaskId, ServiceNamed, ServiceShouldRun;
    if Route(st.id).Some? {
      RoutedIdIsBuilt(st.id);
    }
  }

  /** A RUNNING (or FINISHED) report about the host's prober. */
  predicate Reports(st: TaskStatus, host: string) {
    ReportsRunning(st.state) && st.id == TaskId(Prober, host)
  }

  lemma OfferNode(cfg: Config, s: SchedState, o: Offer, t: Ticks, host: string)
    requires host in s.nodes
    ensures var nodes := HandleOffer(cfg, s, o, t).sched.nodes;
            && host in nodes && nodes[host].slaveId == s.nodes[host].slaveId
            && nodes[host].prober.lastSeen == s.nodes[host].prober.lastSeen
  {
    hide TaskId, Plan, ServiceStage, HostTaskIds, ShutdownCalls, Agenda, HostRestricted;
    if o.hostname in s.nodes {
      var n := s.nodes[o.hostname].(lastOffer := t.offerAt);
      var g := StartStage(s, n, o);
      AttemptAllInv(cfg, o, s.persistent.targetVersion, g, Agenda(n.deviceTypes));
      StageIsAttempts(cfg, o, s.persistent.targetVersion, g);
    }
  }

  lemma {:induction false} SeenSince(cfg: Config, s: SchedState, es: seq<Event>, i: nat, j: nat, host: string)
    requires i < j <= |es| && NoRestart(es, i, j) && Monotone(es)
    requires host in Before(cfg, s, es, i).nodes
    requires es[i].ProbeReply? && es[i].response.Some? && es[i].slaveId == Before(cfg, s, es, i).nodes[host].slaveId
    ensures var nodes := Before(cfg, s, es, j).nodes; host in nodes && nodes[host].prober.lastSeen >= es[i].at
  {
    hide Step;
    BeforeNext(cfg, s, es, j - 1);
    if j > i + 1 {
      SeenSince(cfg, s, es, i, j - 1, host);
      assert Timed(es[i]) && (es[j - 1].UpdateArrives? || es[j - 1].ProbeReply? ==> Timed(es[j - 1]));
    }
    StepNode(cfg, Before(cfg, s, es, j - 1), es[j - 1], host);
  }

  /** A prober is launched exactly when it is due on a known, allowed host and the offer holds its resources. */
  lemma ProberLaunchedIffDue(cfg: Config, s: SchedState, o: Offer, t: Ticks)
    ensures Starts(HandleOffer(cfg, s, o, t).calls, Prober) <==>
              && !HostRestricted(cfg, o.hostname) && o.hostname in s.nodes
              && ProberDue(cfg, s.nodes[o.hostname], t) && Contains(o.resources, Plan(cfg, Prober))
  {
    hide TaskId, Plan, ServiceStage, HostTaskIds, ShutdownCalls, HostRestricted, Agenda;
    OfferAnswered(cfg, s, o, t);
    var calls := HandleOffer(cfg, s, o, t).calls;
    if !HostRestricted(cfg, o.hostname) && o.hostname in s.nodes {
      var n := s.nodes[o.hostname].(lastOffer := t.offerAt);
      if ProberDue(cfg, n, t) && Contains(o.resources, Plan(cfg, Prober)) {
        assert ProberTask(cfg, o) in LaunchedTasks(calls);
      } else {
        forall task | task in LaunchedTasks(calls)
          ensures task.service != Prober
        {
          ProberNotInStage(cfg, o, s.persistent.targetVersion, StartStage(s, n, o), task);
        }
      }
    }
  }

  /**
   * Keep-alive: with a monotone clock and no restart in between, a prober is launched on a host only more than the
   * keep-alive interval after the last reply from that host's agent.
   */
  lemma ProberKeepAlive(cfg: Config, s: SchedState, es: seq<Event>, i: nat, j: nat)
    requires i < j < |es| && NoRestart(es, i, j) && Monotone(es)
    requires LaunchesAt(cfg, s, es, j, Prober) && es[j].offer.hostname in Before(cfg, s, es, i).nodes
    requires es[i].ProbeReply? && es[i].response.Some?
    requires es[i].slaveId == Before(cfg, s, es, i).nodes[es[j].offer.hostname].slaveId
    ensures es[j].ticks.keepAliveAt - es[i].at > cfg.keepAliveInterval
  {
    hide Step, HandleOffer, Starts;
    SeenSince(cfg, s, es, i, j, es[j].offer.hostname);
    OfferStep(cfg, Before(cfg, s, es, j), es[j]);
    ProberLaunchedIffDue(cfg, Before(cfg, s, es, j), es[j].offer, es[j].ticks);
  }

  // --------------------------------------------------------------- launches follow probe replies

  /** What the scheduler knows of a host's devices. */
  datatype DeviceFacts = DeviceFacts(valid: bool, deviceTypes: seq<DeviceType>, clientMountPoint: bool)

  function FactsOf(n: NodeState): DeviceFacts {
    DeviceFacts(n.deviceTypesValid, n.deviceTypes, n.clientMountPoint)
  }

  predicate IsReply(e: Event, slaveId: string, facts: DeviceFacts) {
    && e.ProbeReply? && e.slaveId == slaveId && e.response.Some?
    && facts == DeviceFacts(true, e.response.value.deviceTypes, e.response.value.clientMountPoint)
  }

  /** A well-formed reply under this slave id, or the restart that forgets all of them. */
  predicate Renews(e: Event, slaveId: string) {
    e.Restart? || (e.ProbeReply? && e.slaveId == slaveId && e.response.Some?)
  }

  /** Only a well-formed reply under the node's slave id changes what is known of its devices. */
  lemma StepFacts(cfg: Config, s: SchedState, e: Event, host: string)
    requires host in Step(cfg, s, e).sched.nodes
    ensures var n := Step(cfg, s, e).sched.nodes[host];
            if host in s.nodes then
              n.slaveId == s.nodes[host].slaveId
              && (if Renews(e, n.slaveId) then IsReply(e, n.slaveId, FactsOf(n))
                  else FactsOf(n) == FactsOf(s.nodes[host]))
            else !n.deviceTypesValid
  {
    hide TaskId, HandleUpdate, HandleOffer;
    match e
    case OfferArrives(o, t) => OfferFacts(cfg, s, o, t, host);
    case UpdateArrives(st, at) => UpdateFacts(s, st, at, host);
    case _ =>
  }

  lemma UpdateFacts(s: SchedState, st: TaskStatus, at: int, host: string)
    requires host in HandleUpdate(s, st, at).sched.nodes
    ensures var n := HandleUpdate(s, st, at).sched.nodes[host];
            if host in s.nodes then n.slaveId == s.nodes[host].slaveId && FactsOf(n) == FactsOf(s.nodes[host])
            else !n.deviceTypesValid
  {
    hide TaskId, ServiceNamed, UpdatedService;
  }

  lemma OfferFacts(cfg: Config, s: SchedState, o: Offer, t: Ticks, host: string)
    requires host in HandleOffer(cfg, s, o, t).sched.nodes
    ensures var n := HandleOffer(cfg, s, o, t).sched.nodes[host];
            if host in s.nodes then n.slaveId == s.nodes[host].slaveId && FactsOf(n) == FactsOf(s.nodes[host])
            else !n.deviceTypesValid
  {
    hide TaskId, Plan, ServiceStage, HostTaskIds, ShutdownCalls, Agenda, HostRestricted;
    if o.hostname in s.nodes {
      var n := s.nodes[o.hostname].(lastOffer := t.offerAt);
      var g := StartStage(s, n, o);
      AttemptAllInv(cfg, o, s.persistent.targetVersion, g, Agenda(n.deviceTypes));
      StageIsAttempts(cfg, o, s.persistent.targetVersion, g);
    }
  }

  /**
   * createHost never overwrites: until a restart a host is known by the slave id it was first seen under. Once its
   * agent has a new id nothing that agent reports is taken in: device types, their validity and the client mount
   * stay as they were, and the prober counts as last seen when it was, unless a status report renews that.
   */
  lemma {:induction false} FirstSlaveIdSticks(cfg: Config, s: SchedState, es: seq<Event>, host: string)
    requires host in s.nodes && NoRestart(es, 0, |es|)
    requires forall e | e in es && e.ProbeReply? :: e.slaveId != s.nodes[host].slaveId
    ensures var nodes := Run(cfg, s, es).nodes;
            && host in nodes && nodes[host].slaveId == s.nodes[host].slaveId
            && FactsOf(nodes[host]) == FactsOf(s.nodes[host])
            && (nodes[host].prober.lastSeen == s.nodes[host].prober.lastSeen
                || exists e | e in es :: e.UpdateArrives? && Reports(e.status, host) && nodes[host].prober.lastSeen == e.at)
  {
    hide Step, Reports;
    if es != [] {
      var front, e := es[..|es| - 1], es[|es| - 1];
      assert e in es && forall x | x in front :: x in es;
      FirstSlaveIdSticks(cfg, s, front, host);
      StepNode(cfg, Run(cfg, s, front), e, host);
      StepFacts(cfg, Run(cfg, s, front), e, host);
    }
  }

  lemma LastStep(cfg: Config, p: Persistent, es: seq<Event>, host: string)
    requires host in Run(cfg, FreshSched(p), es).nodes
    ensures es != [] && Run(cfg, FreshSched(p), es) == Step(cfg, Run(cfg, FreshSched(p), es[..|es| - 1]), es[|es| - 1]).sched
  {
    hide Step;
  }

  lemma SameFactsSameValid(n: NodeState, m: NodeState)
    requires FactsOf(n) == FactsOf(m)
    ensures n.deviceTypesValid == m.deviceTypesValid
  {
  }

  /** Valid device facts are those of the last well-formed reply under the node's slave id, not older than a restart. */
  lemma {:induction false} FactsFromReply(cfg: Config, p: Persistent, es: seq<Event>, host: string)
    requires var nodes := Run(cfg, FreshSched(p), es).nodes; host in nodes && nodes[host].deviceTypesValid
    ensures var n := Run(cfg, FreshSched(p), es).nodes[host];
            exists k | 0 <= k < |es| ::
              IsReply(es[k], n.slaveId, FactsOf(n)) && forall m | k < m < |es| :: !Renews(es[m], n.slaveId)
  {
    hide Step, IsReply, Renews, FactsOf, Run;
    LastStep(cfg, p, es, host);
    var last := |es| - 1;
    var front := es[..last];
    var s := Run(cfg, FreshSched(p), front);
    StepFacts(cfg, s, es[last], host);
    var n := Run(cfg, FreshSched(p), es).nodes[host];
    if !Renews(es[last], n.slaveId) {
      SameFactsSameValid(n, s.nodes[host]);
      FactsFromReply(cfg, p, front, host);
      var k :| 0 <= k < |front| && IsReply(front[k], n.slaveId, FactsOf(n))
               && forall m | k < m < |front| :: !Renews(front[m], n.slaveId);
      assert IsReply(es[k], n.slaveId, FactsOf(n));
      assert forall m | k < m < last :: es[m] == front[m];
    }
  }

  /** What must be known of a host before a service is started there. */
  lemma LaunchNeeds(cfg: Config, s: SchedState, o: Offer, t: Ticks, task: TaskInfo)
    requires task in LaunchedTasks(HandleOffer(cfg, s, o, t).calls) && task.service != Prober
    ensures o.hostname in s.nodes && s.nodes[o.hostname].deviceTypesValid
    ensures var n := s.nodes[o.hostname];
            && (if IsCore(task.service) then CoreDevice(task.service) in n.deviceTypes else CoreGateOpen(n))
            && (task.service == Client ==> n.clientMountPoint)
            && (IsSingleton(task.service) ==> RoleAllows(cfg, o, task.service))
            && (task.service == S3 ==> cfg.s3Hostname != "")
  {
    hide TaskId, Plan, HandleOffer, LaunchedTasks, ServiceStage, HostRestricted, RoleAllows;
    LaunchedByOffer(cfg, s, o, t);
    LaunchedWasWanted(cfg, o, s.persistent.targetVersion, OfferStage(s, o, t), task);
  }

  /**
   * Nothing but probers is launched on a host before a well-formed probe reply from its agent has arrived since the
   * last restart; a core service only if the reply in force lists its device, the client only if that reply found
   * the mount point.
   */
  lemma LaunchFollowsReply(cfg: Config, p: Persistent, es: seq<Event>, i: nat, task: TaskInfo)
    requires i < |es| && es[i].OfferArrives?
    requires task in LaunchedTasks(CallsAt(cfg, FreshSched(p), es, i)) && task.service != Prober
    ensures es[i].offer.hostname in Before(cfg, FreshSched(p), es, i).nodes
    ensures var n := Before(cfg, FreshSched(p), es, i).nodes[es[i].offer.hostname];
            exists k | 0 <= k < i ::
              && IsReply(es[k], n.slaveId, FactsOf(n)) && (forall m | k < m < i :: !Renews(es[m], n.slaveId))
              && (IsCore(task.service) ==> CoreDevice(task.service) in es[k].response.value.deviceTypes)
              && (task.service == Client ==> es[k].response.value.clientMountPoint)
  {
    hide Step, HandleOffer, LaunchedTasks, Renews;
    var s := Before(cfg, FreshSched(p), es, i);
    OfferStep(cfg, s, es[i]);
    LaunchNeeds(cfg, s, es[i].offer, es[i].ticks, task);
    var n := s.nodes[es[i].offer.hostname];
    FactsFromReply(cfg, p, es[..i], es[i].offer.hostname);
    var k :| 0 <= k < i && IsReply(es[..i][k], n.slaveId, FactsOf(n))
             && forall m | k < m < i :: !Renews(es[..i][m], n.slaveId);
    assert IsReply(es[k], n.slaveId, FactsOf(n));
    assert forall m | k < m < i :: es[m] == es[..i][m];
  }
}
