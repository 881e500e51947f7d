/**
 * What each callback answers, exactly, spelled out over recorded fields and literal constants. The conditions here
 * are written independently of the functions the reactions are made of.
 */
module ExactAnswers {
  import opened Types
  import opened Text
  import opened TaskIds
  import opened ResourcePlans
  import opened Policy
  import opened Launching
  import opened Reactions
  import opened GreedyLaunch
  import opened Slots
  import opened History
  import opened HostLists
  import Health

  // ------------------------------------------------------------ which branch an offer takes

  ghost predicate Allowed(cfg: Config, host: string) {
    cfg.restrictHosts == "" || Occurs(cfg.restrictHosts, host)
  }

  /** A prober is to be launched and fits the offer. */
  predicate ProberTurn(cfg: Config, s: SchedState, o: Offer, t: Ticks)
    requires o.hostname in s.nodes
  {
    var p := s.nodes[o.hostname].prober;
    && (p.state == UNKNOWN || p.state == NOT_RUNNING)
    && t.keepAliveAt - p.lastSeen > cfg.keepAliveInterval
    && Contains(o.resources, cfg.proberResources)
  }

  /** The agent is to be asked for its devices. */
  predicate ProbeTurn(cfg: Config, s: SchedState, o: Offer, t: Ticks)
    requires o.hostname in s.nodes
  {
    var n := s.nodes[o.hostname];
    n.prober.state == RUNNING && t.probeTestAt - n.lastProbe > cfg.probeInterval
  }

  /** The offer gets past the prober and the probe. */
  ghost predicate Serves(cfg: Config, s: SchedState, o: Offer, t: Ticks) {
    && Allowed(cfg, o.hostname) && o.hostname in s.nodes
    && !ProberTurn(cfg, s, o, t) && !ProbeTurn(cfg, s, o, t)
  }

  lemma AllowedMeans(cfg: Config, host: string)
    ensures HostRestricted(cfg, host) <==> !Allowed(cfg, host)
  {
  }

  lemma TurnsMean(cfg: Config, s: SchedState, o: Offer, t: Ticks)
    requires o.hostname in s.nodes
    ensures var n := s.nodes[o.hostname].(lastOffer := t.offerAt);
            && (ProberDue(cfg, n, t) && Contains(o.resources, Plan(cfg, Prober)) <==> ProberTurn(cfg, s, o, t))
            && (ProbeDue(cfg, n, t) <==> ProbeTurn(cfg, s, o, t))
  {
  }

  // ------------------------------------------------------------ kills, requests, reconciliation

  /** The services an offer's host may be told to stop. */
  predicate Stoppable(svc: Service) {
    svc != Prober && svc != Client
  }

  lemma KilledOnHost(s: SchedState, n: NodeState, host: string, id: string)
    requires host in s.nodes && n == s.nodes[host].(lastOffer := n.lastOffer)
    ensures KillTask(id) in ShutdownCalls(s, n, host) <==>
              exists svc: Service | Stoppable(svc) :: SlotOf(s, svc, host).state == RUNNING && id == TaskId(svc, host)
  {
    hide TaskId;
    if svc: Service :| Stoppable(svc) && SlotOf(s, svc, host).state == RUNNING && id == TaskId(svc, host) {
      KilledOne(s, n, host, svc);
    }
    if KillTask(id) in ShutdownCalls(s, n, host) {
      KilledBy(s, n, host, id);
    }
  }

  lemma KilledOne(s: SchedState, n: NodeState, host: string, svc: Service)
    requires host in s.nodes && n == s.nodes[host].(lastOffer := n.lastOffer)
    requires Stoppable(svc) && SlotOf(s, svc, host).state == RUNNING
    ensures KillTask(TaskId(svc, host)) in ShutdownCalls(s, n, host)
  {
    hide TaskId;
    assert KillTask(TaskId(svc, host)) in KillIfRunning(svc, host, ServiceAt(s, svc, host));
  }

  lemma KnownService(s: SchedState, host: string, svc: Service)
    requires host in s.nodes
    ensures SlotOf(s, svc, host).state == ServiceAt(s, svc, host).state
  {
  }

  lemma KilledBy(s: SchedState, n: NodeState, host: string, id: string)
    requires host in s.nodes && n == s.nodes[host].(lastOffer := n.lastOffer)
    requires KillTask(id) in ShutdownCalls(s, n, host)
    ensures exists svc: Service | Stoppable(svc) :: SlotOf(s, svc, host).state == RUNNING && id == TaskId(svc, host)
  {
    hide TaskId, SlotOf;
    var c := KillTask(id);
    KnownService(s, host, Registry);
    KnownService(s, host, Data);
    KnownService(s, host, Metadata);
    KnownService(s, host, Api);
    KnownService(s, host, S3);
    KnownService(s, host, Webconsole);
    var svc := if c in KillIfRunning(Registry, host, n.registry) then Registry
               else if c in KillIfRunning(Data, host, n.data) then Data
               else if c in KillIfRunning(Metadata, host, n.metadata) then Metadata
               else if c in KillIfRunning(Api, host, s.api) then Api
               else if c in KillIfRunning(S3, host, s.s3) then S3
               else Webconsole;
    assert Stoppable(svc) && SlotOf(s, svc, host).state == RUNNING && id == TaskId(svc, host);
  }

  /**
   * An offer makes a kill exactly when its host is allowed and known, neither a prober launch that fits nor a probe is
   * due and no version is set; and then for the offer's host's id of each registry, metadata, data service or singleton
   * that is recorded RUNNING.
   */
  lemma OfferKillsIff(cfg: Config, s: SchedState, o: Offer, t: Ticks, id: string)
    ensures KillTask(id) in HandleOffer(cfg, s, o, t).calls <==>
              && Serves(cfg, s, o, t) && s.persistent.targetVersion == ""
              && exists svc: Service | Stoppable(svc) ::
                   SlotOf(s, svc, o.hostname).state == RUNNING && id == TaskId(svc, o.hostname)
  {
    hide TaskId, Plan, ServiceStage, HostTaskIds, ShutdownCalls, HostRestricted, ProberDue, ProbeDue, SlotOf, ProberTask,
         ProberTurn, ProbeTurn, Allowed;
    AllowedMeans(cfg, o.hostname);
    if o.hostname in s.nodes {
      TurnsMean(cfg, s, o, t);
      KilledOnHost(s, s.nodes[o.hostname].(lastOffer := t.offerAt), o.hostname, id);
    }
  }

  /** A probe request goes out exactly when a probe is due on an allowed, known host, to the offering agent. */
  lemma OfferAsksIff(cfg: Config, s: SchedState, o: Offer, t: Ticks, slaveId: string, clientDirectory: string)
    ensures SendProbeRequest(slaveId, clientDirectory) in HandleOffer(cfg, s, o, t).calls <==>
              && Allowed(cfg, o.hostname) && o.hostname in s.nodes && ProbeTurn(cfg, s, o, t)
              && slaveId == o.slaveId && clientDirectory == cfg.clientMountPoint
  {
    hide TaskId, Plan, ServiceStage, HostTaskIds, ShutdownCalls, HostRestricted, ProbeDue, ProberTask, Allowed;
    AllowedMeans(cfg, o.hostname);
    if o.hostname in s.nodes {
      TurnsMean(cfg, s, o, t);
      ShutdownOnlyKills(s, s.nodes[o.hostname].(lastOffer := t.offerAt), o.hostname);
    }
  }

  /** The tasks of a host are asked about exactly when the host is new or probed: seven ids, the client's not among them. */
  lemma OfferReconcilesIff(cfg: Config, s: SchedState, o: Offer, t: Ticks, ids: seq<string>)
    ensures ReconcileTasks(ids) in HandleOffer(cfg, s, o, t).calls <==>
              && Allowed(cfg, o.hostname) && (o.hostname in s.nodes ==> ProbeTurn(cfg, s, o, t))
              && ids == ["quobyte-device-prober-" + o.hostname, "quobyte-registry-" + o.hostname,
                         "quobyte-metadata-" + o.hostname, "quobyte-data-" + o.hostname,
                         "quobyte-webconsole-" + o.hostname, "quobyte-api-" + o.hostname, "quobyte-s3-" + o.hostname]
  {
    hide TaskId, Plan, ServiceStage, ShutdownCalls, HostRestricted, ProbeDue, ProberTask, Allowed;
    AllowedMeans(cfg, o.hostname);
    IdsAsWritten(o.hostname);
    if o.hostname in s.nodes {
      TurnsMean(cfg, s, o, t);
      ShutdownOnlyKills(s, s.nodes[o.hostname].(lastOffer := t.offerAt), o.hostname);
    }
  }

  /** The ids of tasks, as they appear in the cluster. */
  lemma IdsAsWritten(host: string)
    ensures TaskId(Prober, host) == "quobyte-device-prober-" + host
    ensures TaskId(Registry, host) == "quobyte-registry-" + host
    ensures TaskId(Metadata, host) == "quobyte-metadata-" + host
    ensures TaskId(Data, host) == "quobyte-data-" + host
    ensures TaskId(Api, host) == "quobyte-api-" + host
    ensures TaskId(S3, host) == "quobyte-s3-" + host
    ensures TaskId(Webconsole, host) == "quobyte-webconsole-" + host
    ensures TaskId(Client, host) == "quobyte-client-" + host
  {
    assert forall a: string :: a + "-" + host == a + ("-" + host);
  }

  // ------------------------------------------------------------ launched tasks

  /** Every task of every launch goes to the offering agent and asks for what its service is configured to use. */
  lemma LaunchedTaskFields(cfg: Config, s: SchedState, o: Offer, t: Ticks, task: TaskInfo)
    requires task in LaunchedTasks(HandleOffer(cfg, s, o, t).calls)
    ensures task.slaveId == o.slaveId && task.id == TaskId(task.service, o.hostname)
    ensures task.resources == (if task.service == Client then NO_RESOURCES
                               else if task.service == Prober then cfg.proberResources
                               else Plan(cfg, task.service))
    ensures task.version == if task.service == Client || task.service == Prober then None else Some(s.persistent.targetVersion)
  {
    hide HandleOffer, LaunchedTasks, TaskId;
    LaunchedTask(cfg, s, o, t, task);
  }

  // ------------------------------------------------------------ status updates

  /** A task that is not to run: a second instance of a singleton, or one the host's devices do not call for. */
  predicate Superfluous(s: SchedState, svc: Service, host: string, id: string) {
    || ((svc == Api || svc == S3 || svc == Webconsole)
        && SlotOf(s, svc, host).state == RUNNING && SlotOf(s, svc, host).taskId != id)
    || (host in s.nodes && s.nodes[host].deviceTypesValid
        && var n := s.nodes[host];
           || (svc == Registry && REGISTRY !in n.deviceTypes)
           || (svc == Metadata && METADATA !in n.deviceTypes)
           || (svc == Data && DATA !in n.deviceTypes)
           || (svc == Client && !n.clientMountPoint))
  }

  /** The recorded task is this one, or none. */
  predicate Mine(s: SchedState, svc: Service, host: string, id: string) {
    SlotOf(s, svc, host).taskId == id || SlotOf(s, svc, host).taskId == ""
  }

  /** What is recorded for the service; nothing yet on a host that is not known. */
  function Recorded(s: SchedState, svc: Service, host: string): ServiceState {
    if IsSingleton(svc) || host in s.nodes then ServiceAt(s, svc, host) else ServiceState(UNKNOWN, 0, 0, "", "")
  }

  /** The service after the update. */
  function AfterUpdate(s: SchedState, svc: Service, host: string, st: TaskStatus, at: int): ServiceState {
    var ss := Recorded(s, svc, host);
    if st.state in {TASK_RUNNING, TASK_FINISHED} && !Superfluous(s, svc, host, st.id) && Mine(s, svc, host, st.id) then
      ServiceState(RUNNING, at, at, st.message, st.id)
    else if st.state in {TASK_FAILED, TASK_KILLED, TASK_LOST, TASK_ERROR} && Mine(s, svc, host, st.id) then
      ServiceState(NOT_RUNNING, at, ss.lastSeen, st.message, "")
    else ss
  }

  /** The service, its host and the calls after an update for (svc, host), by Mesos state and recorded fields. */
  lemma UpdateOutcome(s: SchedState, st: TaskStatus, at: int, svc: Service, host: string)
    requires st.id == TaskId(svc, host) && '-' !in host
    ensures var r := HandleUpdate(s, st, at);
            && host in r.sched.nodes && ServiceAt(r.sched, svc, host) == AfterUpdate(s, svc, host, st, at)
            && r.calls == (if st.state in {TASK_RUNNING, TASK_FINISHED} && Superfluous(s, svc, host, st.id)
                           then [KillTask(st.id)] else [])
                        + (if st.state in {TASK_STAGING, TASK_STARTING, TASK_RUNNING} && svc != Prober
                              && s.persistent.targetVersion == ""
                           then [KillTask(st.id)] else [])
  {
    hide TaskId, HandleUpdate, WithServiceAt, UpdatedService, UpdateCalls, Superfluous, AfterUpdate;
    RoutedUpdate(s, st, at, svc, host);
    var s1 := CreateHost(s, host, st.slaveId);
    ServiceWritten(s1, svc, host, UpdatedService(s1.nodes[host], svc, ServiceAt(s1, svc, host), st, at));
    SuperfluousMeans(s, st, svc, host);
    ServiceOutcome(s, st, at, svc, host);
    CallsOutcome(s, st, svc, host);
  }

  lemma ServiceWritten(s: SchedState, svc: Service, host: string, ss: ServiceState)
    requires host in s.nodes
    ensures host in WithServiceAt(s, svc, host, ss).nodes && ServiceAt(WithServiceAt(s, svc, host, ss), svc, host) == ss
  {
  }

  lemma SuperfluousMeans(s: SchedState, st: TaskStatus, svc: Service, host: string)
    ensures host in CreateHost(s, host, st.slaveId).nodes
    ensures var s1 := CreateHost(s, host, st.slaveId);
            && ServiceShouldRun(s1.nodes[host], svc, ServiceAt(s1, svc, host), st.id) == !Superfluous(s, svc, host, st.id)
            && ServiceAt(s1, svc, host) == Recorded(s, svc, host)
  {
  }

  lemma ServiceOutcome(s: SchedState, st: TaskStatus, at: int, svc: Service, host: string)
    requires host in CreateHost(s, host, st.slaveId).nodes
    ensures var s1 := CreateHost(s, host, st.slaveId);
            UpdatedService(s1.nodes[host], svc, ServiceAt(s1, svc, host), st, at) == AfterUpdate(s, svc, host, st, at)
  {
    hide ServiceShouldRun, Superfluous, ServiceAt, CreateHost, Recorded, SlotOf;
    SuperfluousMeans(s, st, svc, host);
    RecordedSlot(s, svc, host);
  }

  lemma RecordedSlot(s: SchedState, svc: Service, host: string)
    ensures SlotOf(s, svc, host) == Slot(Recorded(s, svc, host).state, Recorded(s, svc, host).taskId)
  {
  }

  lemma CallsOutcome(s: SchedState, st: TaskStatus, svc: Service, host: string)
    requires host in CreateHost(s, host, st.slaveId).nodes
    ensures var s1 := CreateHost(s, host, st.slaveId);
            UpdateCalls(s1, s1.nodes[host], svc, ServiceAt(s1, svc, host), st)
            == (if st.state in {TASK_RUNNING, TASK_FINISHED} && Superfluous(s, svc, host, st.id) then [KillTask(st.id)] else [])
             + (if st.state in {TASK_STAGING, TASK_STARTING, TASK_RUNNING} && svc != Prober && s.persistent.targetVersion == ""
                then [KillTask(st.id)] else [])
  {
    hide ServiceShouldRun, Superfluous, ServiceAt;
    SuperfluousMeans(s, st, svc, host);
  }

  /**
   * With a version set, a RUNNING or FINISHED report gets its task killed exactly when the task is superfluous; in every
   * other case the service is RUNNING under that id iff no other id was recorded.
   */
  lemma RunningReportIff(s: SchedState, st: TaskStatus, at: int, svc: Service, host: string)
    requires st.id == TaskId(svc, host) && '-' !in host
    requires st.state in {TASK_RUNNING, TASK_FINISHED} && s.persistent.targetVersion != ""
    requires SlotOf(s, svc, host).state == RUNNING <==> SlotOf(s, svc, host).taskId != ""
    ensures var r := HandleUpdate(s, st, at);
            && (KillTask(st.id) in r.calls <==> Superfluous(s, svc, host, st.id))
            && (!Superfluous(s, svc, host, st.id) ==>
                  (SlotOf(r.sched, svc, host) == Slot(RUNNING, st.id)
                   <==> SlotOf(s, svc, host).taskId == "" || SlotOf(s, svc, host).taskId == st.id))
            && (Superfluous(s, svc, host, st.id) ==> SlotOf(r.sched, svc, host) == SlotOf(s, svc, host))
  {
    hide TaskId, HandleUpdate, Superfluous;
    UpdateOutcome(s, st, at, svc, host);
  }

  /** An id that is not routed gets no call and changes no service; what follows its last dash becomes a known host. */
  lemma UnroutedOutcome(s: SchedState, st: TaskStatus, at: int)
    requires Route(st.id).None?
    ensures var r := HandleUpdate(s, st, at);
            && r.calls == [] && r.sched.persistent == s.persistent
            && (forall svc, host :: SlotOf(r.sched, svc, host) == SlotOf(s, svc, host))
            && (forall host | host in s.nodes :: host in r.sched.nodes && r.sched.nodes[host] == s.nodes[host])
            && (forall host :: host in r.sched.nodes <==>
                  host in s.nodes || ('-' !in host && exists head :: st.id == WithHost(head, host)))
  {
    hide ServiceNamed, TaskId;
    var r := HandleUpdate(s, st, at);
    forall svc, host
      ensures SlotOf(r.sched, svc, host) == SlotOf(s, svc, host)
    {
      UpdateSlot(s, st, at, svc, host);
    }
    forall host
      ensures ('-' !in host && exists head :: st.id == WithHost(head, host))
              <==> SplitTaskId(st.id).Some? && SplitTaskId(st.id).value.host == host
    {
      HostPart(st.id, host);
    }
  }

  function WithHost(head: string, host: string): string {
    head + "-" + host
  }

  lemma HostPart(id: string, host: string)
    ensures ('-' !in host && exists head :: id == WithHost(head, host))
            <==> SplitTaskId(id).Some? && SplitTaskId(id).value.host == host
  {
    if '-' !in host {
      if head :| id == WithHost(head, host) {
        SplitAtSeparator(head, host);
      }
    }
    var pos := LastIndexOf(id, '-');
    if pos != -1 {
      assert id == WithHost(id[..pos], id[pos + 1..]);
    }
  }

  /** Updates leave the services of other pairs alone: only what is routed changes, and no known node is renamed. */
  lemma UpdateElsewhere(s: SchedState, st: TaskStatus, at: int, svc: Service, host: string, other: Service, elsewhere: string)
    requires st.id == TaskId(svc, host) && '-' !in host
    requires other != svc || (!IsSingleton(svc) && elsewhere != host)
    ensures Recorded(HandleUpdate(s, st, at).sched, other, elsewhere) == Recorded(s, other, elsewhere)
    ensures HandleUpdate(s, st, at).sched.persistent == s.persistent
  {
    hide TaskId, HandleUpdate, UpdatedService;
    RoutedUpdate(s, st, at, svc, host);
  }

  /** A host first heard of in an update is recorded under the update's slave id; what is known of a host stays. */
  lemma UpdateNodeOutcome(s: SchedState, st: TaskStatus, at: int, host: string)
    requires host in HandleUpdate(s, st, at).sched.nodes
    ensures var now := HandleUpdate(s, st, at).sched.nodes[host];
            if host in s.nodes then
              var was := s.nodes[host];
              && now.hostname == was.hostname && now.slaveId == was.slaveId && FactsOf(now) == FactsOf(was)
              && now.lastOffer == was.lastOffer && now.lastProbe == was.lastProbe
            else
              && now.hostname == host && now.slaveId == st.slaveId && FactsOf(now) == DeviceFacts(false, [], false)
              && now.lastOffer == 0 && now.lastProbe == 0
  {
    hide TaskId, ServiceNamed, UpdatedService, WithServiceAt, ServiceAt, FactsOf, LastIndexOf;
    match SplitTaskId(st.id)
    case None =>
    case Some(parts) =>
      var s1 := CreateHost(s, parts.host, st.slaveId);
      BlankFacts(host, st.slaveId);
      match ServiceNamed(parts.name)
      case None =>
      case Some(svc) =>
        var ss := UpdatedService(s1.nodes[parts.host], svc, ServiceAt(s1, svc, parts.host), st, at);
        WriteKeepsNode(s1, svc, parts.host, ss, host);
  }

  lemma BlankFacts(host: string, slaveId: string)
    ensures FactsOf(FreshNode(host, slaveId)) == DeviceFacts(false, [], false)
  {
  }

  lemma WriteKeepsNode(s: SchedState, svc: Service, at: string, ss: ServiceState, host: string)
    requires at in s.nodes && host in WithServiceAt(s, svc, at, ss).nodes
    ensures host in s.nodes
    ensures var was, now := s.nodes[host], WithServiceAt(s, svc, at, ss).nodes[host];
            && now.hostname == was.hostname && now.slaveId == was.slaveId && FactsOf(now) == FactsOf(was)
            && now.lastOffer == was.lastOffer && now.lastProbe == was.lastProbe
  {
  }

  // ------------------------------------------------------------ which services an offer starts

  /** The core services recorded RUNNING on a host. */
  function RunningCore(s: SchedState, host: string): set<Service> {
    set svc: Service | svc in {Registry, Metadata, Data} && SlotOf(s, svc, host).state == RUNNING
  }

  /** The service is down where it is called for, and nothing but resources can keep it from being started. */
  predicate Due(cfg: Config, s: SchedState, o: Offer, svc: Service) {
    && o.hostname in s.nodes && s.nodes[o.hostname].deviceTypesValid
    && SlotOf(s, svc, o.hostname).state == NOT_RUNNING
    && var n, role := s.nodes[o.hostname], cfg.publicSlaveRole;
       var othersMay := |RunningCore(s, o.hostname)| == |n.deviceTypes|;
       match svc
       case Registry => REGISTRY in n.deviceTypes
       case Metadata => METADATA in n.deviceTypes
       case Data => DATA in n.deviceTypes
       case Api => othersMay && (role == "" || o.reservedForApi)
       case S3 => othersMay && (role == "" || o.reservedForS3) && cfg.s3Hostname != ""
       case Webconsole => othersMay && (role == "" || o.reservedForConsole)
       case Client => othersMay && n.clientMountPoint
       case Prober => false
  }

  function DueSet(cfg: Config, s: SchedState, o: Offer): set<Service> {
    set svc: Service | Due(cfg, s, o, svc)
  }

  lemma RunningCoreSize(s: SchedState, host: string)
    requires host in s.nodes
    ensures |RunningCore(s, host)| == CoreServicesRunning(s.nodes[host])
  {
    hide SlotOf, RunningCore;
    var n := s.nodes[host];
    RunningCoreParts(s, host);
    Health.DisjointSize(Health.Just(Registry, n.registry.state == RUNNING), Health.Just(Metadata, n.metadata.state == RUNNING),
                        Health.Just(Data, n.data.state == RUNNING));
  }

  lemma RunningCoreParts(s: SchedState, host: string)
    requires host in s.nodes
    ensures var n := s.nodes[host];
            RunningCore(s, host)
            == Health.Just(Registry, n.registry.state == RUNNING) + Health.Just(Metadata, n.metadata.state == RUNNING)
               + Health.Just(Data, n.data.state == RUNNING)
  {
  }

  lemma DueMeans(cfg: Config, s: SchedState, o: Offer, svc: Service)
    requires o.hostname in s.nodes
    ensures Due(cfg, s, o, svc) <==>
              Wanted(cfg, o, StartStage(s, s.nodes[o.hostname], o), svc) && svc in Agenda(s.nodes[o.hostname].deviceTypes)
  {
    hide RunningCore;
    RunningCoreSize(s, o.hostname);
    ListedDevices(s.nodes[o.hostname].deviceTypes, svc);
  }

  lemma DueIsWanted(cfg: Config, s: SchedState, o: Offer)
    requires o.hostname in s.nodes
    ensures WantedFor(cfg, s, o) == DueSet(cfg, s, o)
  {
    hide Due, Wanted, Agenda;
    forall svc: Service
      ensures svc in WantedFor(cfg, s, o) <==> svc in DueSet(cfg, s, o)
    {
      DueMeans(cfg, s, o, svc);
    }
  }

  lemma ServesMeans(cfg: Config, s: SchedState, o: Offer, t: Ticks)
    requires Serves(cfg, s, o, t) && s.persistent.targetVersion != ""
    ensures ReachesServices(cfg, s, o, t)
  {
    hide HostRestricted, ProberDue, ProbeDue, Plan, Allowed, ProberTurn, ProbeTurn;
    AllowedMeans(cfg, o.hostname);
    TurnsMean(cfg, s, o, t);
    TurnsIgnoreOffer(cfg, s, o, t);
  }

  lemma TurnsIgnoreOffer(cfg: Config, s: SchedState, o: Offer, t: Ticks)
    requires o.hostname in s.nodes
    ensures var n := s.nodes[o.hostname];
            && ProberDue(cfg, n, t) == ProberDue(cfg, n.(lastOffer := t.offerAt), t)
            && ProbeDue(cfg, n, t) == ProbeDue(cfg, n.(lastOffer := t.offerAt), t)
  {
  }

  /**
   * An offer that gets past the prober and the probe, and holds the plans of all services that are due, starts exactly
   * these; and it starts exactly these only if it holds their plans (for pairwise disjoint port plans).
   */
  lemma StartsAllDueIff(cfg: Config, s: SchedState, o: Offer, t: Ticks)
    requires Serves(cfg, s, o, t) && s.persistent.targetVersion != "" && DisjointPlans(cfg, DueSet(cfg, s, o))
    ensures LaunchedSet(LaunchedTasks(HandleOffer(cfg, s, o, t).calls)) == DueSet(cfg, s, o)
            <==> Contains(o.resources, Total(cfg, DueSet(cfg, s, o)))
  {
    hide HandleOffer, LaunchedTasks, LaunchedSet, Total, Plan, ReachesServices, WantedFor, DueSet, Serves;
    ServesMeans(cfg, s, o, t);
    ServesKnown(cfg, s, o, t);
    DueIsWanted(cfg, s, o);
    OfferStartsAllWanted(cfg, s, o, t);
  }

  lemma ServesKnown(cfg: Config, s: SchedState, o: Offer, t: Ticks)
    requires Serves(cfg, s, o, t)
    ensures o.hostname in s.nodes
  {
  }

  /** x is considered before svc: the singletons and the client in a fixed order, then the devices in list order. */
  predicate Precedes(ds: seq<DeviceType>, x: Service, svc: Service) {
    match svc
    case Api => false
    case S3 => x == Api
    case Webconsole => x == Api || x == S3
    case Client => x == Api || x == S3 || x == Webconsole
    case Registry => x in {Api, S3, Webconsole, Client} || ListedBefore(ds, x, REGISTRY)
    case Metadata => x in {Api, S3, Webconsole, Client} || ListedBefore(ds, x, METADATA)
    case Data => x in {Api, S3, Webconsole, Client} || ListedBefore(ds, x, DATA)
    case Prober => false
  }

  /** The device of x is listed before the first entry d. */
  predicate ListedBefore(ds: seq<DeviceType>, x: Service, d: DeviceType) {
    IsCore(x) && exists i | 0 <= i < |ds| :: ds[i] == CoreDevice(x) && d !in ds[..i + 1]
  }

  function Ahead(ds: seq<DeviceType>, svc: Service): set<Service> {
    set x: Service | Precedes(ds, x, svc)
  }

  lemma {:induction false} DeviceServicesConcat(a: seq<DeviceType>, b: seq<DeviceType>)
    ensures DeviceServices(a + b) == DeviceServices(a) + DeviceServices(b)
  {
    if b == [] {
      assert a + b == a;
    } else {
      assert (a + b)[..|a + b| - 1] == a + b[..|b| - 1];
      DeviceServicesConcat(a, b[..|b| - 1]);
    }
  }

  lemma {:induction false} FirstEntry(ds: seq<DeviceType>, d: DeviceType) returns (i: nat)
    requires d in ds
    ensures i < |ds| && ds[i] == d && d !in ds[..i]
  {
    var last := |ds| - 1;
    if d in ds[..last] {
      i := FirstEntry(ds[..last], d);
      assert ds[..last][..i] == ds[..i];
    } else {
      i := last;
      assert ds == ds[..last] + [ds[last]];
    }
  }

  /** The agenda, split at a service on it. */
  lemma AgendaSplit(ds: seq<DeviceType>, svc: Service) returns (front: seq<Service>, rest: seq<Service>)
    requires svc in Agenda(ds)
    ensures Agenda(ds) == front + [svc] + rest && svc !in front && Elements(front) == Ahead(ds, svc)
    ensures !IsCore(svc) || NoRepeats(ds) ==> svc !in rest
  {
    hide DeviceServices;
    var fixed := [Api, S3, Webconsole, Client];
    ListedDevices(ds, svc);
    if svc in fixed {
      var k := if svc == Api then 0 else if svc == S3 then 1 else if svc == Webconsole then 2 else 3;
      front, rest := fixed[..k], fixed[k + 1..] + DeviceServices(ds);
      assert fixed == fixed[..k] + [fixed[k]] + fixed[k + 1..];
      FixedAhead(ds, svc, k);
      FixedOnce(svc, k);
    } else {
      var d := CoreDevice(svc);
      var i := FirstEntry(ds, d);
      front, rest := fixed + DeviceServices(ds[..i]), DeviceServices(ds[i + 1..]);
      assert ds == ds[..i] + ([d] + ds[i + 1..]);
      DeviceServicesConcat(ds[..i], [d] + ds[i + 1..]);
      DeviceServicesConcat([d], ds[i + 1..]);
      OneDevice(svc);
      CoreAhead(ds, svc, i);
      ListedDevices(ds[i + 1..], svc);
    }
  }

  lemma FixedOnce(svc: Service, k: nat)
    requires k < 4 && [Api, S3, Webconsole, Client][k] == svc
    ensures !IsCore(svc) && svc !in [Api, S3, Webconsole, Client][k + 1..]
  {
    var fixed := [Api, S3, Webconsole, Client];
    assert fixed[1..] == [S3, Webconsole, Client] && fixed[2..] == [Webconsole, Client] && fixed[3..] == [Client];
  }

  lemma OneDevice(svc: Service)
    requires IsCore(svc)
    ensures DeviceServices([CoreDevice(svc)]) == [svc]
  {
    assert [CoreDevice(svc)][..0] == [];
  }

  lemma FixedAhead(ds: seq<DeviceType>, svc: Service, k: nat)
    requires k < 4 && [Api, S3, Webconsole, Client][k] == svc
    ensures svc !in [Api, S3, Webconsole, Client][..k] && Elements([Api, S3, Webconsole, Client][..k]) == Ahead(ds, svc)
  {
    var fixed := [Api, S3, Webconsole, Client];
    assert fixed[..0] == [] && fixed[..1] == [Api] && fixed[..2] == [Api, S3] && fixed[..3] == [Api, S3, Webconsole];
    assert svc == fixed[k];
    forall x: Service
      ensures x in fixed[..k] <==> Precedes(ds, x, svc)
    {
    }
  }

  lemma CoreAhead(ds: seq<DeviceType>, svc: Service, i: nat)
    requires IsCore(svc) && i < |ds| && ds[i] == CoreDevice(svc) && CoreDevice(svc) !in ds[..i]
    ensures svc !in [Api, S3, Webconsole, Client] + DeviceServices(ds[..i])
    ensures Elements([Api, S3, Webconsole, Client] + DeviceServices(ds[..i])) == Ahead(ds, svc)
  {
    hide ListedBefore;
    ListedDevices(ds[..i], svc);
    forall x: Service
      ensures x in DeviceServices(ds[..i]) <==> ListedBefore(ds, x, CoreDevice(svc))
    {
      ListedFront(ds, svc, i, x);
    }
  }

  lemma ListedFront(ds: seq<DeviceType>, svc: Service, i: nat, x: Service)
    requires IsCore(svc) && i < |ds| && ds[i] == CoreDevice(svc) && CoreDevice(svc) !in ds[..i]
    ensures x in DeviceServices(ds[..i]) <==> ListedBefore(ds, x, CoreDevice(svc))
  {
    ListedDevices(ds[..i], x);
    if IsCore(x) && CoreDevice(x) in ds[..i] {
      var j :| 0 <= j < i && ds[j] == CoreDevice(x);
      assert forall d | d in ds[..j + 1] :: d in ds[..i];
    }
    if ListedBefore(ds, x, CoreDevice(svc)) {
      var j :| 0 <= j < |ds| && ds[j] == CoreDevice(x) && CoreDevice(svc) !in ds[..j + 1];
      assert forall k | 0 <= k <= j :: ds[..j + 1][k] == ds[k] && ds[k] in ds[..j + 1];
      assert ds[..i][j] == CoreDevice(x);
    }
  }

  /**
   * Which services an offer starts, whatever it holds and however the plans overlap: one is started exactly if it is
   * due and its plan fits beside the plans of those started that come before it.
   */
  lemma StartedIff(cfg: Config, s: SchedState, o: Offer, t: Ticks, svc: Service)
    requires Serves(cfg, s, o, t) && s.persistent.targetVersion != "" && svc != Prober
    ensures var all := LaunchedSet(LaunchedTasks(HandleOffer(cfg, s, o, t).calls));
            svc in all <==>
              && Due(cfg, s, o, svc)
              && FitsBeside(o.resources, Total(cfg, all * Ahead(s.nodes[o.hostname].deviceTypes, svc)), Plan(cfg, svc))
  {
    hide HandleOffer, LaunchedTasks, LaunchedSet, Total, Plan, ReachesServices, Serves, Due, Wanted, Agenda, Ahead, FitsBeside,
         ServiceStage;
    ServesMeans(cfg, s, o, t);
    ServesKnown(cfg, s, o, t);
    StageCalls(cfg, s, o, t);
    DueMeans(cfg, s, o, svc);
    var g := OfferStage(s, o, t);
    WantedIgnoresOffer(cfg, s, o, t, svc);
    if svc in Agenda(g.node.deviceTypes) {
      var front, rest := AgendaSplit(g.node.deviceTypes, svc);
      StartedInTurn(cfg, o, s.persistent.targetVersion, g, front, svc, rest);
    } else {
      NotOnAgenda(cfg, o, s.persistent.targetVersion, g, svc);
    }
  }

  lemma WantedIgnoresOffer(cfg: Config, s: SchedState, o: Offer, t: Ticks, svc: Service)
    requires o.hostname in s.nodes
    ensures Wanted(cfg, o, StartStage(s, s.nodes[o.hostname], o), svc) == Wanted(cfg, o, OfferStage(s, o, t), svc)
  {
  }

  lemma NotOnAgenda(cfg: Config, o: Offer, version: string, g: Stage, svc: Service)
    requires StartsEmpty(o, g) && svc !in Agenda(g.node.deviceTypes)
    ensures svc !in LaunchedSet(ServiceStage(cfg, o, version, g).tasks)
  {
    hide Plan, AttemptAll, Agenda;
    OnlyAttempted(cfg, o, version, g, Agenda(g.node.deviceTypes));
  }

  /** The prober is started exactly when it is its turn, and then alone; and no task at all without a version. */
  lemma ProberStartedIff(cfg: Config, s: SchedState, o: Offer, t: Ticks)
    ensures Starts(HandleOffer(cfg, s, o, t).calls, Prober) <==>
              Allowed(cfg, o.hostname) && o.hostname in s.nodes && ProberTurn(cfg, s, o, t)
    ensures Starts(HandleOffer(cfg, s, o, t).calls, Prober) ==> |LaunchedTasks(HandleOffer(cfg, s, o, t).calls)| == 1
    ensures !(Serves(cfg, s, o, t) && s.persistent.targetVersion != "") ==>
              forall task | task in LaunchedTasks(HandleOffer(cfg, s, o, t).calls) :: task.service == Prober
  {
    hide TaskId, Plan, ServiceStage, HostTaskIds, ShutdownCalls, HostRestricted, ProberDue, ProbeDue, ProberTurn, ProbeTurn,
         Allowed, LaunchedTasks, ProberTask;
    AllowedMeans(cfg, o.hostname);
    ProberLaunchedIffDue(cfg, s, o, t);
    LaunchedByOffer(cfg, s, o, t);
    ProberTaskService(cfg, o);
    if o.hostname in s.nodes {
      TurnsMean(cfg, s, o, t);
      TurnsIgnoreOffer(cfg, s, o, t);
      OneCall(LaunchTasks(o.id, [ProberTask(cfg, o)]));
    }
    LaunchOnlyFrom(cfg, s, o, t);
  }

  lemma LaunchOnlyFrom(cfg: Config, s: SchedState, o: Offer, t: Ticks)
    ensures !(Serves(cfg, s, o, t) && s.persistent.targetVersion != "") ==>
              forall task | task in LaunchedTasks(HandleOffer(cfg, s, o, t).calls) :: task.service == Prober
  {
    hide TaskId, Plan, ServiceStage, HostTaskIds, ShutdownCalls, HostRestricted, ProberDue, ProbeDue, ProberTurn, ProbeTurn,
         Allowed, ProberTask;
    AllowedMeans(cfg, o.hostname);
    OfferAnswered(cfg, s, o, t);
    ProberTaskService(cfg, o);
    if o.hostname in s.nodes {
      TurnsMean(cfg, s, o, t);
      OneCall(LaunchTasks(o.id, [ProberTask(cfg, o)]));
    }
  }

  // ------------------------------------------------------------ what an offer records

  lemma {:induction false} Untouched(cfg: Config, o: Offer, version: string, g: Stage, svcs: seq<Service>, svc: Service)
    requires svc !in svcs
    ensures StageService(AttemptAll(cfg, o, version, g, svcs), svc) == StageService(g, svc)
  {
    hide Attempt, StageService;
    if svcs != [] {
      var front := svcs[..|svcs| - 1];
      Untouched(cfg, o, version, g, front, svc);
      AttemptRecords(cfg, o, version, AttemptAll(cfg, o, version, g, front), svcs[|svcs| - 1], svc);
    }
  }

  lemma AttemptRecords(cfg: Config, o: Offer, version: string, g: Stage, svc: Service, x: Service)
    ensures var was, now := StageService(g, x), StageService(Attempt(cfg, o, version, g, svc), x);
            now == if x != svc || !Wanted(cfg, o, g, svc) then was
                   else if Contains(g.remaining, Plan(cfg, svc)) then
                     if IsCore(svc) then was else was.(state := RUNNING, taskId := TaskId(svc, o.hostname))
                   else if IsCore(svc) then was.(lastMessage := ShortageMessage(svc)) else was
  {
    hide Plan, TaskId, Wanted, ShortageMessage, StageService;
    StageServiceUpdate(g, svc, StageService(g, svc).(state := RUNNING, taskId := TaskId(svc, o.hostname)), x);
    StageServiceUpdate(g, svc, StageService(g, svc).(lastMessage := ShortageMessage(svc)), x);
    StageTasksApart(MarkLaunched(g, svc, o.hostname), g.remaining, g.tasks, x);
    if Contains(g.remaining, Plan(cfg, svc)) {
      StageTasksApart(MarkLaunched(g, svc, o.hostname), Minus(g.remaining, Plan(cfg, svc)),
                      g.tasks + [TaskFor(cfg, version, svc, o)], x);
    }
  }

  lemma StageTasksApart(g: Stage, r: Resources, tasks: seq<TaskInfo>, x: Service)
    ensures StageService(g.(remaining := r, tasks := tasks), x) == StageService(g, x)
  {
  }

  /** What the service stage records for a service that is considered at most once. */
  lemma StageRecords(cfg: Config, o: Offer, version: string, g: Stage, svc: Service)
    requires StartsEmpty(o, g) && (!IsCore(svc) || NoRepeats(g.node.deviceTypes))
    ensures var was, now := StageService(g, svc), StageService(ServiceStage(cfg, o, version, g), svc);
            var started := svc in LaunchedSet(ServiceStage(cfg, o, version, g).tasks);
            now == if IsCore(svc) then
                     if Wanted(cfg, o, g, svc) && svc in Agenda(g.node.deviceTypes) && !started
                     then was.(lastMessage := ShortageMessage(svc)) else was
                   else if started then was.(state := RUNNING, taskId := TaskId(svc, o.hostname)) else was
  {
    hide Plan, TaskId, Wanted, ShortageMessage, StageService, Attempt, AttemptAll, Agenda, LaunchedSet, LaunchEffect, Ahead;
    var ds := g.node.deviceTypes;
    if svc in Agenda(ds) {
      var front, rest := AgendaSplit(ds, svc);
      var h := AttemptAll(cfg, o, version, g, front);
      AttemptAllInv(cfg, o, version, g, front);
      OnlyAttempted(cfg, o, version, g, front);
      NotLaunched(h.tasks, svc);
      WantedStable(cfg, o, version, g, h, svc);
      Untouched(cfg, o, version, g, front, svc);
      AttemptRecords(cfg, o, version, h, svc, svc);
      AttemptSet(cfg, o, version, h, svc);
      NextAttempt(cfg, o, version, g, front, svc);
      AttemptAllConcat(cfg, o, version, g, front + [svc], rest);
      Untouched(cfg, o, version, AttemptAll(cfg, o, version, g, front + [svc]), rest, svc);
      LaunchedGrows(cfg, o, version, g, front + [svc], rest);
      if svc !in LaunchedSet(AttemptAll(cfg, o, version, g, front + [svc]).tasks) {
        StaysOut(cfg, o, version, g, front + [svc], rest, svc);
      }
    } else {
      Untouched(cfg, o, version, g, Agenda(ds), svc);
      NotOnAgenda(cfg, o, version, g, svc);
    }
  }

  lemma NextAttempt(cfg: Config, o: Offer, version: string, g: Stage, front: seq<Service>, svc: Service)
    ensures AttemptAll(cfg, o, version, g, front + [svc]) == Attempt(cfg, o, version, AttemptAll(cfg, o, version, g, front), svc)
  {
    hide Attempt;
    assert (front + [svc])[..|front + [svc]| - 1] == front;
  }

  /** The message left on a core service that is due but does not fit. */
  function Shortage(svc: Service): string {
    if svc == Registry then "Could not start registry: insufficient resources"
    else if svc == Metadata then "Could not start metadata: insufficient resources"
    else "Could not start data: insufficient resources"
  }

  lemma ShortageAsWritten(svc: Service)
    requires IsCore(svc)
    ensures ShortageMessage(svc) == Shortage(svc)
  {
  }

  /**
   * What an offer records on its own host, and for the singletons: a started singleton or client is RUNNING under its
   * new id; a core service keeps everything, and one that is due but was not started gets a message; a started prober
   * is STARTING. (A device list that repeats a type may leave the message on a core service that was started.)
   */
  lemma OfferRecords(cfg: Config, s: SchedState, o: Offer, t: Ticks, svc: Service)
    requires IsCore(svc) && o.hostname in s.nodes ==> NoRepeats(s.nodes[o.hostname].deviceTypes)
    ensures var r := HandleOffer(cfg, s, o, t);
            var was, now := Recorded(s, svc, o.hostname), Recorded(r.sched, svc, o.hostname);
            now == if Starts(r.calls, svc) && svc == Prober then was.(state := STARTING, lastUpdate := t.proberAt)
                   else if Starts(r.calls, svc) && !IsCore(svc) then was.(state := RUNNING, taskId := TaskId(svc, o.hostname))
                   else if IsCore(svc) && Serves(cfg, s, o, t) && s.persistent.targetVersion != "" && Due(cfg, s, o, svc)
                           && !Starts(r.calls, svc) then was.(lastMessage := Shortage(svc))
                   else was
  {
    hide HandleOffer, LaunchedTasks, Plan, TaskId, Due, ServiceStage, Wanted, Agenda, Serves, StageService, ReachesServices,
         Shortage, ShortageMessage, Recorded;
    if Serves(cfg, s, o, t) && s.persistent.targetVersion != "" {
      ServedRecords(cfg, s, o, t, svc);
    } else {
      UnservedRecords(cfg, s, o, t, svc);
    }
  }

  lemma ServedRecords(cfg: Config, s: SchedState, o: Offer, t: Ticks, svc: Service)
    requires Serves(cfg, s, o, t) && s.persistent.targetVersion != ""
    requires IsCore(svc) && o.hostname in s.nodes ==> NoRepeats(s.nodes[o.hostname].deviceTypes)
    ensures var r := HandleOffer(cfg, s, o, t);
            var was, now := Recorded(s, svc, o.hostname), Recorded(r.sched, svc, o.hostname);
            now == if Starts(r.calls, svc) && !IsCore(svc) then was.(state := RUNNING, taskId := TaskId(svc, o.hostname))
                   else if IsCore(svc) && Due(cfg, s, o, svc) && !Starts(r.calls, svc) then was.(lastMessage := Shortage(svc))
                   else was
    ensures !Starts(HandleOffer(cfg, s, o, t).calls, Prober)
  {
    hide HandleOffer, LaunchedTasks, Plan, TaskId, Due, ServiceStage, Wanted, Agenda, Serves, StageService, ReachesServices,
         Shortage, ShortageMessage, Recorded, WithStage;
    ServesMeans(cfg, s, o, t);
    ServesKnown(cfg, s, o, t);
    StageCalls(cfg, s, o, t);
    StageState(cfg, s, o, t);
    DueMeans(cfg, s, o, svc);
    WantedIgnoresOffer(cfg, s, o, t, svc);
    var g := OfferStage(s, o, t);
    StageRecords(cfg, o, s.persistent.targetVersion, g, svc);
    NotLaunched(ServiceStage(cfg, o, s.persistent.targetVersion, g).tasks, svc);
    StageRecorded(s, o, t, ServiceStage(cfg, o, s.persistent.targetVersion, g), svc);
    if IsCore(svc) {
      ShortageAsWritten(svc);
    }
    forall task | task in ServiceStage(cfg, o, s.persistent.targetVersion, g).tasks
      ensures task.service != Prober
    {
      ProberNotInStage(cfg, o, s.persistent.targetVersion, g, task);
    }
  }

  lemma StageState(cfg: Config, s: SchedState, o: Offer, t: Ticks)
    requires ReachesServices(cfg, s, o, t)
    ensures HandleOffer(cfg, s, o, t).sched
         == WithStage(s, o.hostname, ServiceStage(cfg, o, s.persistent.targetVersion, OfferStage(s, o, t)))
  {
    hide Plan, TaskId, ServiceStage, HostRestricted, HostTaskIds, WithStage;
  }

  lemma StageRecorded(s: SchedState, o: Offer, t: Ticks, g: Stage, svc: Service)
    requires o.hostname in s.nodes
    ensures Recorded(WithStage(s, o.hostname, g), svc, o.hostname) == StageService(g, svc)
    ensures StageService(OfferStage(s, o, t), svc) == Recorded(s, svc, o.hostname)
  {
  }

  lemma UnservedRecords(cfg: Config, s: SchedState, o: Offer, t: Ticks, svc: Service)
    requires !(Serves(cfg, s, o, t) && s.persistent.targetVersion != "")
    ensures var r := HandleOffer(cfg, s, o, t);
            Recorded(r.sched, svc, o.hostname)
            == if Starts(r.calls, svc) then Recorded(s, svc, o.hostname).(state := STARTING, lastUpdate := t.proberAt)
               else Recorded(s, svc, o.hostname)
    ensures Starts(HandleOffer(cfg, s, o, t).calls, svc) ==> svc == Prober
  {
    hide TaskId, Plan, ServiceStage, HostTaskIds, ShutdownCalls, HostRestricted, ProberDue, ProbeDue, ProberTurn, ProbeTurn,
         Allowed, ProberTask, LaunchedTasks;
    AllowedMeans(cfg, o.hostname);
    ProberStartedIff(cfg, s, o, t);
    if o.hostname in s.nodes {
      TurnsMean(cfg, s, o, t);
    }
  }

  /** An offer leaves other hosts alone, and of its own host's facts changes only when it was last offered and probed. */
  lemma OfferLeaves(cfg: Config, s: SchedState, o: Offer, t: Ticks)
    ensures var r := HandleOffer(cfg, s, o, t).sched;
            && r.persistent == s.persistent
            && (forall h | h in s.nodes && h != o.hostname :: h in r.nodes && r.nodes[h] == s.nodes[h])
            && r.nodes.Keys == s.nodes.Keys + (if Allowed(cfg, o.hostname) then {o.hostname} else {})
    ensures Allowed(cfg, o.hostname) && o.hostname in s.nodes ==>
              var was, now := s.nodes[o.hostname], HandleOffer(cfg, s, o, t).sched.nodes[o.hostname];
              && now.hostname == was.hostname && now.slaveId == was.slaveId && FactsOf(now) == FactsOf(was)
              && now.lastOffer == t.offerAt
              && now.lastProbe == if ProbeTurn(cfg, s, o, t) then t.probeAt else was.lastProbe
  {
    hide TaskId, Plan, ServiceStage, HostTaskIds, ShutdownCalls, HostRestricted, ProberDue, ProbeDue, ProberTurn, ProbeTurn,
         Allowed, ProberTask, LaunchedTasks, Agenda;
    AllowedMeans(cfg, o.hostname);
    if o.hostname in s.nodes {
      TurnsMean(cfg, s, o, t);
      TurnsExclude(cfg, s, o, t);
      var g := OfferStage(s, o, t);
      AttemptAllInv(cfg, o, s.persistent.targetVersion, g, Agenda(g.node.deviceTypes));
      StageIsAttempts(cfg, o, s.persistent.targetVersion, g);
    }
  }

  /** A host first heard of in an offer is recorded under the offer's slave id, with nothing known of it. */
  lemma OfferIntroduces(cfg: Config, s: SchedState, o: Offer, t: Ticks)
    requires Allowed(cfg, o.hostname) && o.hostname !in s.nodes
    ensures var r := HandleOffer(cfg, s, o, t).sched;
            && o.hostname in r.nodes
            && var n := r.nodes[o.hostname];
               && n.hostname == o.hostname && n.slaveId == o.slaveId && FactsOf(n) == DeviceFacts(false, [], false)
               && n.lastOffer == 0 && n.lastProbe == 0
  {
    hide HostTaskIds, HandleKnownHost, Allowed, HostRestricted;
    AllowedMeans(cfg, o.hostname);
  }

  lemma TurnsExclude(cfg: Config, s: SchedState, o: Offer, t: Ticks)
    requires o.hostname in s.nodes
    ensures !(ProberTurn(cfg, s, o, t) && ProbeTurn(cfg, s, o, t))
  {
  }

  // ------------------------------------------------------------ the other events

  /** A well-formed reply is taken in by every node under its slave id and by no other; a malformed one by none. */
  lemma ReplyOutcome(cfg: Config, s: SchedState, slaveId: string, response: Option<ProbeResponse>, at: int, host: string)
    ensures var r := Step(cfg, s, ProbeReply(slaveId, response, at));
            && r.calls == [] && r.sched.persistent == s.persistent && r.sched.nodes.Keys == s.nodes.Keys
            && (host in s.nodes ==>
                  var was, now := s.nodes[host], r.sched.nodes[host];
                  if response.Some? && was.slaveId == slaveId then
                    && FactsOf(now) == DeviceFacts(true, response.value.deviceTypes, response.value.clientMountPoint)
                    && now.prober == was.prober.(lastSeen := at)
                    && now.slaveId == slaveId && now.lastProbe == was.lastProbe && now.lastOffer == was.lastOffer
                    && forall svc: Service | svc != Prober && !IsSingleton(svc) :: NodeService(now, svc) == NodeService(was, svc)
                  else now == was)
            && forall svc: Service | IsSingleton(svc) :: Recorded(r.sched, svc, host) == Recorded(s, svc, host)
  {
  }

  /** Registration asks the master for all tasks; setting a version and restarting call nothing. */
  lemma OtherEvents(cfg: Config, s: SchedState, e: Event)
    ensures e.Registered? || e.Reregistered? ==> Step(cfg, s, e).calls == [ReconcileTasks([])]
    ensures e.VersionPost? || e.Restart? ==> Step(cfg, s, e).calls == []
    ensures e.VersionPost? ==> Step(cfg, s, e).sched == s.(persistent := s.persistent.(targetVersion := e.version))
    ensures e.Registered? ==> Step(cfg, s, e).sched == s.(persistent := s.persistent.(frameworkId := e.frameworkId))
    ensures e.Reregistered? ==> Step(cfg, s, e).sched == s
    ensures e.Restart? ==> forall svc, host :: Recorded(Step(cfg, s, e).sched, svc, host) == ServiceState(UNKNOWN, 0, 0, "", "")
  {
    hide HandleOffer, HandleUpdate, HandleMessage;
  }
}
