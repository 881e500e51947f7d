/** What follows when nothing reaches the scheduler unasked: where tasks can be live, and healing without provisos. */
module WarrantedRuns {
  import opened Types
  import opened TaskIds
  import opened ResourcePlans
  import opened Policy
  import opened Launching
  import opened Reactions
  import opened Slots
  import opened History
  import opened Cluster

  // ------------------------------------------------------------ dashed hosts

  /** A node whose name has a dash: its slave id is that of an agent on it, and nothing is known of its devices. */
  predicate DashedNodeOk(past: Past, host: string, n: NodeState) {
    && n.slaveId in past.agents && past.agents[n.slaveId] == host
    && !n.deviceTypesValid
    && (n.prober.state == UNKNOWN || n.prober.state == STARTING)
  }

  predicate AskedOk(cfg: Config, past: Past, slaveId: string) {
    slaveId in past.agents && '-' !in past.agents[slaveId] && !HostRestricted(cfg, past.agents[slaveId])
  }

  /** Probe requests went only to agents on allowed, dash-free hosts. */
  predicate DashInv(cfg: Config, s: SchedState, past: Past) {
    && (forall h | h in s.nodes && '-' in h :: DashedNodeOk(past, h, s.nodes[h]))
    && (forall slaveId | slaveId in past.asked :: AskedOk(cfg, past, slaveId))
  }

  lemma NewDashedNode(cfg: Config, s: SchedState, e: Event, host: string)
    requires '-' in host && host !in s.nodes && host in Step(cfg, s, e).sched.nodes
    ensures e.OfferArrives? && e.offer.hostname == host
    ensures Step(cfg, s, e).sched.nodes[host] == FreshNode(host, e.offer.slaveId)
  {
    hide TaskId, HandleUpdate, HandleKnownHost, HostTaskIds, HostRestricted;
    if e.UpdateArrives? {
      UpdateCreates(s, e.status, e.at, host);
    }
    if e.OfferArrives? && e.offer.hostname in s.nodes {
      KnownHostNodes(cfg, s, e.offer, e.ticks);
    }
  }

  lemma UpdateCreates(s: SchedState, st: TaskStatus, at: int, host: string)
    requires host !in s.nodes && host in HandleUpdate(s, st, at).sched.nodes
    ensures '-' !in host
  {
    hide TaskId, ServiceNamed, UpdatedService;
  }

  lemma KnownHostNodes(cfg: Config, s: SchedState, o: Offer, t: Ticks)
    requires o.hostname in s.nodes
    ensures HandleKnownHost(cfg, s, o, t).sched.nodes.Keys == s.nodes.Keys
  {
    hide TaskId, Plan, ServiceStage, HostTaskIds, ShutdownCalls, ProberDue, ProbeDue;
  }

  lemma DashedNodeStep(cfg: Config, s: SchedState, past: Past, e: Event, host: string)
    requires DashInv(cfg, s, past) && Warranted(past, e) && '-' in host
    requires host in Step(cfg, s, e).sched.nodes
    ensures DashedNodeOk(Remember(past, e, Step(cfg, s, e).calls), host, Step(cfg, s, e).sched.nodes[host])
  {
    hide Step, Route, Requested, LaunchedIds, Reconciled, HostRestricted, IsReply, TaskId, Starts;
    if host in s.nodes {
      assert DashedNodeOk(past, host, s.nodes[host]);
      StepFacts(cfg, s, e, host);
      StepSlot(cfg, s, e, Prober, host);
      if e.UpdateArrives? && Route(e.status.id).Some? {
        RoutedIdIsBuilt(e.status.id);
      }
      RestartForgets(cfg, s, e, host);
    } else {
      NewDashedNode(cfg, s, e, host);
    }
  }

  lemma RestartForgets(cfg: Config, s: SchedState, e: Event, host: string)
    requires host in Step(cfg, s, e).sched.nodes
    ensures !e.Restart?
  {
  }

  /** A probe request goes to the offering agent, on an allowed host whose prober runs. */
  lemma RequestedBy(cfg: Config, s: SchedState, e: Event, slaveId: string)
    requires slaveId in Requested(Step(cfg, s, e).calls)
    ensures e.OfferArrives? && slaveId == e.offer.slaveId && !HostRestricted(cfg, e.offer.hostname)
    ensures e.offer.hostname in s.nodes && s.nodes[e.offer.hostname].prober.state == RUNNING
  {
    hide TaskId, ServiceNamed, HandleOffer, HostRestricted;
    if e.OfferArrives? {
      OfferRequests(cfg, s, e.offer, e.ticks, slaveId);
    }
  }

  lemma OfferRequests(cfg: Config, s: SchedState, o: Offer, t: Ticks, slaveId: string)
    requires slaveId in Requested(HandleOffer(cfg, s, o, t).calls)
    ensures slaveId == o.slaveId && !HostRestricted(cfg, o.hostname)
    ensures o.hostname in s.nodes && s.nodes[o.hostname].prober.state == RUNNING
  {
    hide TaskId, Plan, ServiceStage, HostTaskIds, ShutdownCalls, HostRestricted;
    if o.hostname in s.nodes {
      ShutdownOnlyKills(s, s.nodes[o.hostname].(lastOffer := t.offerAt), o.hostname);
    }
  }

  lemma DashInvStep(cfg: Config, s: SchedState, past: Past, e: Event)
    requires DashInv(cfg, s, past) && Warranted(past, e)
    ensures var r := Step(cfg, s, e); DashInv(cfg, r.sched, Remember(past, e, r.calls))
  {
    hide Step, Requested, LaunchedIds, Reconciled, HostRestricted, DashedNodeOk;
    var r := Step(cfg, s, e);
    var past' := Remember(past, e, r.calls);
    forall h | h in r.sched.nodes && '-' in h
      ensures DashedNodeOk(past', h, r.sched.nodes[h])
    {
      DashedNodeStep(cfg, s, past, e, h);
    }
    forall slaveId | slaveId in past'.asked
      ensures AskedOk(cfg, past', slaveId)
    {
      if slaveId in past.asked {
        assert AskedOk(cfg, past, slaveId);
      } else {
        RequestedBy(cfg, s, e, slaveId);
        NotDashed(cfg, s, past, e.offer.hostname);
      }
    }
  }

  lemma NotDashed(cfg: Config, s: SchedState, past: Past, host: string)
    requires DashInv(cfg, s, past) && host in s.nodes && s.nodes[host].prober.state == RUNNING
    ensures '-' !in host
  {
  }

  // ------------------------------------------------------------ the client

  predicate NoClientId(ids: set<string>) {
    forall id | id in ids :: Route(id).Some? ==> Route(id).value.service != Client
  }

  /** No client was ever launched or asked about, so nothing has moved a client from UNKNOWN. */
  ghost predicate ClientInv(s: SchedState, past: Past) {
    && (forall h :: SlotOf(s, Client, h).state == UNKNOWN)
    && NoClientId(past.launched) && NoClientId(past.reconciled)
  }

  lemma ClientSlotStep(cfg: Config, s: SchedState, past: Past, e: Event, h: string)
    requires ClientInv(s, past) && Warranted(past, e)
    ensures SlotOf(Step(cfg, s, e).sched, Client, h).state == UNKNOWN
    ensures e.OfferArrives? && e.offer.hostname == h ==> !Starts(Step(cfg, s, e).calls, Client)
  {
    hide Step, Route, TaskId, Starts, SlotOf;
    StepSlot(cfg, s, e, Client, h);
    assert SlotOf(s, Client, h).state == UNKNOWN;
  }

  lemma ReconciledBy(cfg: Config, s: SchedState, e: Event, id: string)
    requires id in Reconciled(Step(cfg, s, e).calls)
    ensures e.OfferArrives? && id in HostTaskIds(e.offer.hostname)
  {
    hide TaskId, ServiceNamed, HandleOffer, HostTaskIds;
    if e.OfferArrives? {
      OfferReconciles(cfg, s, e.offer, e.ticks, id);
    }
  }

  lemma OfferReconciles(cfg: Config, s: SchedState, o: Offer, t: Ticks, id: string)
    requires id in Reconciled(HandleOffer(cfg, s, o, t).calls)
    ensures id in HostTaskIds(o.hostname)
  {
    hide TaskId, Plan, ServiceStage, HostTaskIds, ShutdownCalls, HostRestricted;
    if o.hostname in s.nodes {
      ShutdownOnlyKills(s, s.nodes[o.hostname].(lastOffer := t.offerAt), o.hostname);
    }
  }

  lemma NotClientId(svc: Service, host: string)
    requires svc != Client
    ensures Route(TaskId(svc, host)).Some? ==> Route(TaskId(svc, host)).value.service != Client
  {
    hide TaskId, Route;
    RoutingRoundTrip(svc, host);
  }

  lemma HostIdOf(id: string, host: string) returns (svc: Service)
    requires id in HostTaskIds(host)
    ensures svc != Client && id == TaskId(svc, host)
  {
    hide TaskId;
    svc := if id == TaskId(Prober, host) then Prober else if id == TaskId(Registry, host) then Registry
           else if id == TaskId(Metadata, host) then Metadata else if id == TaskId(Data, host) then Data
           else if id == TaskId(Webconsole, host) then Webconsole else if id == TaskId(Api, host) then Api else S3;
  }

  lemma OnlyOffersLaunch(cfg: Config, s: SchedState, e: Event)
    ensures !e.OfferArrives? ==> LaunchedTasks(Step(cfg, s, e).calls) == []
  {
    hide HandleOffer, TaskId, ServiceNamed, ServiceShouldRun;
    if e.UpdateArrives? {
      UpdateLaunchesNothing(s, e.status, e.at);
    } else if !e.OfferArrives? {
      OneCall(ReconcileTasks([]));
    }
  }

  lemma UpdateLaunchesNothing(s: SchedState, st: TaskStatus, at: int)
    ensures LaunchedTasks(HandleUpdate(s, st, at).calls) == []
  {
    hide TaskId, ServiceNamed, ServiceShouldRun, UpdatedService;
    KillsAnswerNothing(HandleUpdate(s, st, at).calls);
  }

  lemma ClientInvStep(cfg: Config, s: SchedState, past: Past, e: Event)
    requires ClientInv(s, past) && Warranted(past, e)
    ensures var r := Step(cfg, s, e); ClientInv(r.sched, Remember(past, e, r.calls))
  {
    hide Step, Route, TaskId, Starts, LaunchedTasks, Requested, SlotOf, HostTaskIds, Warranted, Reconciled;
    var r := Step(cfg, s, e);
    forall h
      ensures SlotOf(r.sched, Client, h).state == UNKNOWN
    {
      ClientSlotStep(cfg, s, past, e, h);
    }
    OnlyOffersLaunch(cfg, s, e);
    forall task | task in LaunchedTasks(r.calls)
      ensures Route(task.id).Some? ==> Route(task.id).value.service != Client
    {
      LaunchedStep(cfg, s, e, task);
      StartedBy(r.calls, task);
      ClientSlotStep(cfg, s, past, e, e.offer.hostname);
      NotClientId(task.service, e.offer.hostname);
    }
    forall id | id in Reconciled(r.calls)
      ensures Route(id).Some? ==> Route(id).value.service != Client
    {
      ReconciledBy(cfg, s, e, id);
      var svc := HostIdOf(id, e.offer.hostname);
      NotClientId(svc, e.offer.hostname);
    }
  }

  // ------------------------------------------------------------ where tasks can be live

  /** Where a service may be started at all. */
  predicate Placeable(cfg: Config, svc: Service, host: string) {
    && !HostRestricted(cfg, host)
    && (svc != Prober ==> '-' !in host)
    && svc != Client
    && (svc == S3 ==> cfg.s3Hostname != "")
  }

  lemma LaunchPlace(cfg: Config, s: SchedState, past: Past, o: Offer, t: Ticks, task: TaskInfo)
    requires DashInv(cfg, s, past) && ClientInv(s, past)
    requires Warranted(past, OfferArrives(o, t)) && task in LaunchedTasks(HandleOffer(cfg, s, o, t).calls)
    ensures Placeable(cfg, task.service, o.hostname)
  {
    hide HandleOffer, LaunchedTasks, HostRestricted, TaskId, Starts, SlotOf, Route;
    if HostRestricted(cfg, o.hostname) {
      RestrictedIdle(cfg, s, o, t);
    }
    OfferStep(cfg, s, OfferArrives(o, t));
    StartedBy(HandleOffer(cfg, s, o, t).calls, task);
    ClientSlotStep(cfg, s, past, OfferArrives(o, t), o.hostname);
    if task.service != Prober {
      LaunchNeeds(cfg, s, o, t, task);
    }
  }

  lemma RestrictedIdle(cfg: Config, s: SchedState, o: Offer, t: Ticks)
    requires HostRestricted(cfg, o.hostname)
    ensures LaunchedTasks(HandleOffer(cfg, s, o, t).calls) == []
  {
    hide HostRestricted;
    OneCall(DeclineOffer(o.id));
  }

  ghost predicate PlaceInv(cfg: Config, w: World) {
    && LiveOk(w) && DashInv(cfg, w.sched, w.past) && ClientInv(w.sched, w.past)
    && forall n | n in w.live :: Placeable(cfg, w.live[n].task.service, w.live[n].host)
  }

  lemma PlaceInvStep(cfg: Config, w: World, e: WorldEvent)
    requires PlaceInv(cfg, w) && (e.Callback? ==> Warranted(w.past, e.event))
    ensures PlaceInv(cfg, Apply(cfg, w, e))
  {
    hide Step, LaunchedTasks, LiveOk, DashInv, ClientInv, Placeable, Remember, Warranted;
    LiveOkStep(cfg, w, e);
    if e.Callback? {
      DashInvStep(cfg, w.sched, w.past, e.event);
      ClientInvStep(cfg, w.sched, w.past, e.event);
    }
    var w' := Apply(cfg, w, e);
    forall n | n in w'.live
      ensures Placeable(cfg, w'.live[n].task.service, w'.live[n].host)
    {
      if n in w.live {
        OldInstance(cfg, w, e, n);
      } else {
        NewInstance(cfg, w, e.event, e.accepted, n);
        OfferStep(cfg, w.sched, e.event);
        LaunchPlace(cfg, w.sched, w.past, e.event.offer, e.event.ticks, w'.live[n].task);
      }
    }
  }

  lemma FreshPlaces(cfg: Config, p: Persistent)
    ensures PlaceInv(cfg, FreshWorld(p))
  {
  }

  /**
   * When nothing comes unasked, every task that is ever live, from an empty cluster on and across restarts, is on an
   * allowed host; on a host whose name has a dash only probers are; and no client is live anywhere.
   */
  lemma {:induction false} PlacesAlways(cfg: Config, p: Persistent, es: seq<WorldEvent>)
    requires IsWarrantedRun(cfg, FreshWorld(p), es)
    ensures PlaceInv(cfg, After(cfg, FreshWorld(p), es))
  {
    hide PlaceInv, Apply, Warranted;
    if es == [] {
      FreshPlaces(cfg, p);
    } else {
      PlacesAlways(cfg, p, es[..|es| - 1]);
      PlaceInvStep(cfg, After(cfg, FreshWorld(p), es[..|es| - 1]), es[|es| - 1]);
    }
  }

  /** A host whose name contains a dash is never probed and never gets any task but a prober. */
  lemma DashedHostOnlyProbers(cfg: Config, p: Persistent, es: seq<WorldEvent>, o: Offer, t: Ticks)
    requires IsWarrantedRun(cfg, FreshWorld(p), es) && '-' in o.hostname
    requires Warranted(After(cfg, FreshWorld(p), es).past, OfferArrives(o, t))
    ensures var calls := HandleOffer(cfg, After(cfg, FreshWorld(p), es).sched, o, t).calls;
            !Probes(calls) && forall task | task in LaunchedTasks(calls) :: task.service == Prober
  {
    hide After, HandleOffer, LaunchedTasks, DashInv, ClientInv, HostRestricted, LiveOk, Warranted;
    PlacesAlways(cfg, p, es);
    var w := After(cfg, FreshWorld(p), es);
    forall task | task in LaunchedTasks(HandleOffer(cfg, w.sched, o, t).calls)
      ensures task.service == Prober
    {
      LaunchPlace(cfg, w.sched, w.past, o, t, task);
    }
    ProbedOnlyIfRunning(cfg, w.sched, o, t);
    if Probes(HandleOffer(cfg, w.sched, o, t).calls) {
      NotDashed(cfg, w.sched, w.past, o.hostname);
    }
  }

  // ------------------------------------------------------------ healing and shutdown from an empty cluster

  /**
   * Self-healing with no proviso on hosts: wherever a warranted run from an empty cluster, restarts included, has led
   * to, if in the honest run from there, without a restart, every task that is excess now is reported RUNNING at some
   * point and what the scheduler kills ends, none is excess and at most one is live in the end.
   */
  lemma HealingFromStart(cfg: Config, p: Persistent, soFar: seq<WorldEvent>, es: seq<WorldEvent>, svc: Service)
    requires IsSingleton(svc) && IsRun(cfg, FreshWorld(p), soFar) && IsWarrantedRun(cfg, FreshWorld(p), soFar)
    requires var w := After(cfg, FreshWorld(p), soFar);
             && IsHonestRun(cfg, w, es) && Restarts(es) == 0 && KillsCarriedOut(cfg, w, es)
             && forall n | n in Excess(w, svc) :: exists k | 0 <= k < |es| :: ReportedRunning(es, k, w.live[n].task.id)
    ensures var w' := After(cfg, After(cfg, FreshWorld(p), soFar), es);
            && Excess(w', svc) == {}
            && forall n, m | n in LiveOf(w', svc) && m in LiveOf(w', svc) :: n == m
  {
    hide PortInv, IdInv, After, IsHonestRun, Restarts, KillsCarriedOut, DashInv, ClientInv, HostRestricted;
    PlacesAlways(cfg, p, soFar);
    ReachableInvariants(cfg, p, soFar);
    HealingRun(cfg, After(cfg, FreshWorld(p), soFar), es, svc);
  }

  /** Shutdown completes, with no proviso on hosts, wherever a warranted run from an empty cluster has led to. */
  lemma ShutdownFromStart(cfg: Config, p: Persistent, soFar: seq<WorldEvent>, es: seq<WorldEvent>)
    requires IsWarrantedRun(cfg, FreshWorld(p), soFar)
    requires var w := After(cfg, FreshWorld(p), soFar);
             && w.sched.persistent.targetVersion == "" && (forall e | e in es :: KeepsShutdown(e))
             && KillsCarriedOut(cfg, w, es)
             && forall n | n in NonProbers(w) :: exists k | 0 <= k < |es| :: ReportedAlive(es, k, w.live[n].task.id)
    ensures NonProbers(After(cfg, After(cfg, FreshWorld(p), soFar), es)) == {}
  {
    hide After, KillsCarriedOut, DashInv, ClientInv, HostRestricted, LiveOk, KeepsShutdown;
    PlacesAlways(cfg, p, soFar);
    ShutdownRun(cfg, After(cfg, FreshWorld(p), soFar), es);
  }
}
