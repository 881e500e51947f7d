/**
 * The (state, task id) pair of each service, and the only ways an event can change it. All history
 * properties are proved on this abstraction.
 */
module Slots {
  import opened Types
  import opened TaskIds
  import opened ResourcePlans
  import opened Policy
  import opened Launching
  import opened Reactions

  datatype Slot = Slot(state: TaskState, taskId: string)

  /** The recorded slot; a host that is not known yet has a fresh one. */
  function SlotOf(s: SchedState, svc: Service, host: string): Slot {
    if IsSingleton(svc) || host in s.nodes then
      var ss := ServiceAt(s, svc, host);
      Slot(ss.state, ss.taskId)
    else
      Slot(UNKNOWN, "")
  }

  /** Whether an event at host `at` is about the slot of (svc, host). */
  predicate Addresses(at: string, svc: Service, host: string) {
    IsSingleton(svc) || at == host
  }

  predicate RoutesTo(id: string, svc: Service, host: string) {
    Route(id).Some? && Route(id).value.service == svc && Addresses(Route(id).value.host, svc, host)
  }

  // ---------------------------------------------------------------- offers

  /** A slot just before and just after its service is launched on host `at`. */
  predicate LaunchChange(svc: Service, at: string, a: Slot, b: Slot) {
    if svc == Prober then a.state != RUNNING && a.state != STARTING && b == Slot(STARTING, a.taskId)
    else if IsCore(svc) then a.state == NOT_RUNNING && b == a
    else a.state == NOT_RUNNING && b == Slot(RUNNING, TaskId(svc, at))
  }

  predicate OfferChange(o: Offer, calls: seq<DriverCall>, svc: Service, host: string, a: Slot, b: Slot) {
    if Starts(calls, svc) && Addresses(o.hostname, svc, host) then LaunchChange(svc, o.hostname, a, b) else b == a
  }

  function NodeSlot(n: NodeState, svc: Service): Slot
    requires !IsSingleton(svc)
  {
    Slot(NodeService(n, svc).state, NodeService(n, svc).taskId)
  }

  lemma NodeWriteSlot(s: SchedState, at: string, n: NodeState, svc: Service, host: string)
    ensures var b := SlotOf(s.(nodes := s.nodes[at := n]), svc, host);
            b == if !IsSingleton(svc) && host == at then NodeSlot(n, svc) else SlotOf(s, svc, host)
  {
  }

  lemma StageWriteSlot(s: SchedState, at: string, g: Stage, svc: Service, host: string)
    ensures var b := SlotOf(WithStage(s, at, g), svc, host);
            b == if Addresses(at, svc, host) then Slot(StageService(g, svc).state, StageService(g, svc).taskId)
                 else SlotOf(s, svc, host)
  {
  }

  lemma ServeSlot(cfg: Config, s: SchedState, n: NodeState, o: Offer, svc: Service, host: string)
    requires o.hostname in s.nodes
    requires n == s.nodes[o.hostname].(lastOffer := n.lastOffer)
    ensures var r := ServeOffer(cfg, s, n, o);
            OfferChange(o, r.calls, svc, host, SlotOf(s, svc, host), SlotOf(r.sched, svc, host))
  {
    hide TaskId, ServiceStage, ShutdownCalls, SlotOf, OfferChange, LaunchedTasks;
    if s.persistent.targetVersion != "" {
      ServeLaunchSlot(cfg, s, n, o, svc, host);
    } else {
      ServeKillSlot(cfg, s, n, o, svc, host);
    }
  }

  lemma ServeLaunchSlot(cfg: Config, s: SchedState, n: NodeState, o: Offer, svc: Service, host: string)
    requires o.hostname in s.nodes && s.persistent.targetVersion != ""
    requires n == s.nodes[o.hostname].(lastOffer := n.lastOffer)
    ensures var r := ServeOffer(cfg, s, n, o);
            OfferChange(o, r.calls, svc, host, SlotOf(s, svc, host), SlotOf(r.sched, svc, host))
  {
    hide TaskId, ServiceStage, WithStage, SlotOf, LaunchedTasks, StageService, SameCore;
    var g0 := StartStage(s, n, o);
    var g := ServiceStage(cfg, o, s.persistent.targetVersion, g0);
    StageFinal(cfg, o, s.persistent.targetVersion, g0, svc);
    OneCall(ServeOffer(cfg, s, n, o).calls[0]);
    StageWriteSlot(s, o.hostname, g, svc, host);
    StartStageSlot(s, n, o, svc, host);
  }

  lemma StartStageSlot(s: SchedState, n: NodeState, o: Offer, svc: Service, host: string)
    requires o.hostname in s.nodes
    requires n == s.nodes[o.hostname].(lastOffer := n.lastOffer)
    ensures Addresses(o.hostname, svc, host) ==>
              var ss := StageService(StartStage(s, n, o), svc); SlotOf(s, svc, host) == Slot(ss.state, ss.taskId)
  {
  }

  lemma ServeKillSlot(cfg: Config, s: SchedState, n: NodeState, o: Offer, svc: Service, host: string)
    requires o.hostname in s.nodes && s.persistent.targetVersion == ""
    requires n == s.nodes[o.hostname].(lastOffer := n.lastOffer)
    ensures var r := ServeOffer(cfg, s, n, o);
            OfferChange(o, r.calls, svc, host, SlotOf(s, svc, host), SlotOf(r.sched, svc, host))
  {
    hide TaskId, ServiceStage, ShutdownCalls, SlotOf, LaunchedTasks;
    ShutdownOnlyKills(s, n, o.hostname);
    KillsAnswerNothing(ShutdownCalls(s, n, o.hostname));
    OneCall(DeclineOffer(o.id));
    LaunchedTasksConcat(ShutdownCalls(s, n, o.hostname), [DeclineOffer(o.id)]);
    NodeWriteSlot(s, o.hostname, n, svc, host);
    KnownSlot(s, o.hostname, svc);
    NoTasks(ShutdownCalls(s, n, o.hostname) + [DeclineOffer(o.id)], svc);
  }

  lemma NoTasks(calls: seq<DriverCall>, svc: Service)
    requires LaunchedTasks(calls) == []
    ensures !Starts(calls, svc)
  {
    hide LaunchedTasks;
  }

  lemma StageFinal(cfg: Config, o: Offer, version: string, g: Stage, svc: Service)
    requires StartsEmpty(o, g)
    ensures LaunchEffect(g, ServiceStage(cfg, o, version, g), svc, o.hostname)
  {
    AttemptAllInv(cfg, o, version, g, Agenda(g.node.deviceTypes));
  }

  lemma KnownSlot(s: SchedState, host: string, svc: Service)
    requires host in s.nodes
    ensures !IsSingleton(svc) ==> SlotOf(s, svc, host) == NodeSlot(s.nodes[host], svc)
  {
  }

  lemma ProberLaunchSlot(cfg: Config, s: SchedState, o: Offer, t: Ticks, svc: Service, host: string)
    requires o.hostname in s.nodes
    requires var n := s.nodes[o.hostname].(lastOffer := t.offerAt);
             ProberDue(cfg, n, t) && Contains(o.resources, Plan(cfg, Prober))
    ensures var r := HandleKnownHost(cfg, s, o, t);
            OfferChange(o, r.calls, svc, host, SlotOf(s, svc, host), SlotOf(r.sched, svc, host))
  {
    hide TaskId, Plan, ServeOffer, HostTaskIds, SlotOf, LaunchedTasks, ProberTask, Contains;
    var n := s.nodes[o.hostname].(lastOffer := t.offerAt);
    NodeWriteSlot(s, o.hostname, n.(prober := n.prober.(state := STARTING, lastUpdate := t.proberAt)), svc, host);
    KnownSlot(s, o.hostname, svc);
    OneCall(LaunchTasks(o.id, [ProberTask(cfg, o)]));
    ProberTaskService(cfg, o);
  }

  lemma KnownHostSlot(cfg: Config, s: SchedState, o: Offer, t: Ticks, svc: Service, host: string)
    requires o.hostname in s.nodes
    ensures var r := HandleKnownHost(cfg, s, o, t);
            OfferChange(o, r.calls, svc, host, SlotOf(s, svc, host), SlotOf(r.sched, svc, host))
  {
    hide TaskId, Plan, ServeOffer, HostTaskIds, SlotOf, LaunchedTasks, ProberTask, Contains;
    var n := s.nodes[o.hostname].(lastOffer := t.offerAt);
    if ProberDue(cfg, n, t) && Contains(o.resources, Plan(cfg, Prober)) {
      ProberLaunchSlot(cfg, s, o, t, svc, host);
    } else if ProbeDue(cfg, n, t) {
      NodeWriteSlot(s, o.hostname, n.(lastProbe := t.probeAt), svc, host);
      KnownSlot(s, o.hostname, svc);
      ProbeLaunchesNothing(o.id, SendProbeRequest(o.slaveId, cfg.clientMountPoint), ReconcileTasks(HostTaskIds(o.hostname)));
    } else {
      ServeSlot(cfg, s, n, o, svc, host);
    }
  }

  lemma ProberTaskService(cfg: Config, o: Offer)
    ensures ProberTask(cfg, o).service == Prober
  {
    hide TaskId, Plan;
  }

  lemma ProbeLaunchesNothing(id: string, probe: DriverCall, reconcile: DriverCall)
    requires probe.SendProbeRequest? && reconcile.ReconcileTasks?
    ensures LaunchedTasks([probe, reconcile, DeclineOffer(id)]) == []
  {
    OneCall(probe);
    OneCall(reconcile);
    OneCall(DeclineOffer(id));
    LaunchedTasksConcat([probe], [reconcile]);
    LaunchedTasksConcat([probe] + [reconcile], [DeclineOffer(id)]);
    assert [probe, reconcile, DeclineOffer(id)] == [probe] + [reconcile] + [DeclineOffer(id)];
  }

  /** An offer changes a slot only by launching its service there. */
  lemma OfferSlot(cfg: Config, s: SchedState, o: Offer, t: Ticks, svc: Service, host: string)
    ensures var r := HandleOffer(cfg, s, o, t);
            OfferChange(o, r.calls, svc, host, SlotOf(s, svc, host), SlotOf(r.sched, svc, host))
  {
    hide TaskId, HandleKnownHost, HostTaskIds, SlotOf, HostRestricted, LaunchedTasks;
    OneCall(DeclineOffer(o.id));
    if !HostRestricted(cfg, o.hostname) {
      if o.hostname in s.nodes {
        KnownHostSlot(cfg, s, o, t, svc, host);
      } else {
        var ids := ReconcileTasks(HostTaskIds(o.hostname));
        OneCall(ids);
        LaunchedTasksConcat([ids], [DeclineOffer(o.id)]);
        assert [ids, DeclineOffer(o.id)] == [ids] + [DeclineOffer(o.id)];
        CreateHostSlot(s, o.hostname, o.slaveId, svc, host);
      }
    }
  }

  /** Every launched task is a prober, or was built for the current, non-empty target version and was wanted. */
  lemma LaunchedTask(cfg: Config, s: SchedState, o: Offer, t: Ticks, task: TaskInfo)
    requires task in LaunchedTasks(HandleOffer(cfg, s, o, t).calls)
    ensures task.service == Prober ==> task == ProberTask(cfg, o)
    ensures task.service != Prober ==>
              s.persistent.targetVersion != "" && task == TaskFor(cfg, s.persistent.targetVersion, task.service, o)
    ensures task.id == TaskId(task.service, o.hostname)
  {
    hide TaskId, Plan, HandleOffer, LaunchedTasks, ServiceStage, Wanted, Agenda, HostRestricted, LaunchEffect;
    LaunchedByOffer(cfg, s, o, t);
    if task != ProberTask(cfg, o) {
      var g := OfferStage(s, o, t);
      AttemptAllInv(cfg, o, s.persistent.targetVersion, g, Agenda(g.node.deviceTypes));
      StageIsAttempts(cfg, o, s.persistent.targetVersion, g);
      ProberNotInStage(cfg, o, s.persistent.targetVersion, g, task);
    }
  }

  lemma StageIsAttempts(cfg: Config, o: Offer, version: string, g: Stage)
    ensures ServiceStage(cfg, o, version, g) == AttemptAll(cfg, o, version, g, Agenda(g.node.deviceTypes))
  {
  }

  lemma ProberNotInStage(cfg: Config, o: Offer, version: string, g: Stage, task: TaskInfo)
    requires StartsEmpty(o, g)
    ensures task in ServiceStage(cfg, o, version, g).tasks ==> task.service != Prober
  {
    AttemptAllInv(cfg, o, version, g, Agenda(g.node.deviceTypes));
  }

  // ---------------------------------------------------------------- updates

  /** How an update for `id` may change the slot it is routed to. */
  predicate UpdateChange(st: TaskStatus, a: Slot, b: Slot) {
    if IsReleaseState(st.state) && (a.taskId == st.id || a.taskId == "") then b == Slot(NOT_RUNNING, "")
    else b == a || (ReportsRunning(st.state) && (a.taskId == st.id || a.taskId == "") && b == Slot(RUNNING, st.id))
  }

  lemma ServiceWriteSlot(s: SchedState, svc: Service, at: string, ss: ServiceState, other: Service, host: string)
    requires at in s.nodes
    ensures var b := SlotOf(WithServiceAt(s, svc, at, ss), other, host);
            b == if other == svc && Addresses(at, svc, host) then Slot(ss.state, ss.taskId) else SlotOf(s, other, host)
  {
  }

  lemma CreateHostSlot(s: SchedState, at: string, slaveId: string, svc: Service, host: string)
    ensures SlotOf(CreateHost(s, at, slaveId), svc, host) == SlotOf(s, svc, host)
  {
  }

  /** A status update changes only the slot its id is routed to. */
  lemma UpdateSlot(s: SchedState, st: TaskStatus, at: int, svc: Service, host: string)
    ensures var a, b := SlotOf(s, svc, host), SlotOf(HandleUpdate(s, st, at).sched, svc, host);
            if RoutesTo(st.id, svc, host) then UpdateChange(st, a, b) else b == a
  {
    hide WithServiceAt, ServiceNamed, CreateHost, ServiceShouldRun, SlotOf, ServiceAt, UpdateCalls;
    match SplitTaskId(st.id)
    case None =>
    case Some(parts) =>
      var s1 := CreateHost(s, parts.host, st.slaveId);
      CreateHostSlot(s, parts.host, st.slaveId, svc, host);
      match ServiceNamed(parts.name)
      case None =>
      case Some(found) =>
        HostCreated(s, parts.host, st.slaveId);
        var n, ss := s1.nodes[parts.host], ServiceAt(s1, found, parts.host);
        SlotIsService(s1, svc, parts.host, host);
        ServiceWriteSlot(s1, found, parts.host, UpdatedService(n, found, ss, st, at), svc, host);
  }

  lemma SlotIsService(s: SchedState, svc: Service, at: string, host: string)
    requires at in s.nodes
    ensures Addresses(at, svc, host) ==>
              SlotOf(s, svc, host) == Slot(ServiceAt(s, svc, at).state, ServiceAt(s, svc, at).taskId)
  {
  }

  lemma HostCreated(s: SchedState, host: string, slaveId: string)
    ensures host in CreateHost(s, host, slaveId).nodes
  {
  }

  lemma MessageSlot(s: SchedState, slaveId: string, r: Option<ProbeResponse>, at: int, svc: Service, host: string)
    ensures SlotOf(HandleMessage(s, slaveId, r, at), svc, host) == SlotOf(s, svc, host)
  {
  }

  // ---------------------------------------------------------------- one step

  /** The only ways an event other than a restart can change a slot. */
  predicate SlotStep(e: Event, calls: seq<DriverCall>, svc: Service, host: string, a: Slot, b: Slot) {
    match e
    case OfferArrives(o, _) => OfferChange(o, calls, svc, host, a, b)
    case UpdateArrives(st, _) => if RoutesTo(st.id, svc, host) then UpdateChange(st, a, b) else b == a
    case Restart => b == Slot(UNKNOWN, "")
    case _ => b == a
  }

  lemma StepSlot(cfg: Config, s: SchedState, e: Event, svc: Service, host: string)
    ensures var r := Step(cfg, s, e);
            SlotStep(e, r.calls, svc, host, SlotOf(s, svc, host), SlotOf(r.sched, svc, host))
  {
    hide HandleOffer, HandleUpdate, HandleMessage, OfferChange, UpdateChange;
    match e
    case OfferArrives(o, t) => OfferSlot(cfg, s, o, t, svc, host);
    case UpdateArrives(st, at) => UpdateSlot(s, st, at, svc, host);
    case ProbeReply(slaveId, r, at) => MessageSlot(s, slaveId, r, at, svc, host);
    case _ =>
  }

  // ------------------------------------------------------------ state/id invariant

  predicate IsIdOf(svc: Service, id: string) {
    Name(svc) + "-" <= id
  }

  predicate SlotOk(svc: Service, host: string, sl: Slot) {
    && (sl.state == RUNNING <==> sl.taskId != "")
    && (sl.taskId != "" ==> if IsSingleton(svc) then IsIdOf(svc, sl.taskId) else sl.taskId == TaskId(svc, host))
  }

  /** RUNNING exactly when a task id is recorded, and every recorded id is the service's own. */
  ghost predicate IdInv(s: SchedState) {
    forall svc, host :: SlotOk(svc, host, SlotOf(s, svc, host))
  }

  lemma BuiltIdOk(svc: Service, host: string)
    ensures TaskId(svc, host) != "" && IsIdOf(svc, TaskId(svc, host))
  {
  }

  lemma SlotStepOk(e: Event, calls: seq<DriverCall>, svc: Service, host: string, a: Slot, b: Slot)
    requires SlotOk(svc, host, a)
    requires SlotStep(e, calls, svc, host, a, b)
    ensures SlotOk(svc, host, b)
  {
    hide Starts, TaskId, IsIdOf, Route;
    match e
    case OfferArrives(o, _) =>
      BuiltIdOk(svc, o.hostname);
    case UpdateArrives(st, _) =>
      if RoutesTo(st.id, svc, host) {
        RoutedIdIsBuilt(st.id);
        BuiltIdOk(svc, Route(st.id).value.host);
      }
    case _ =>
  }

  lemma IdInvInitially(p: Persistent)
    ensures IdInv(FreshSched(p))
  {
  }

  lemma IdInvStep(cfg: Config, s: SchedState, e: Event)
    requires IdInv(s)
    ensures IdInv(Step(cfg, s, e).sched)
  {
    hide SlotOk, SlotStep, SlotOf, Step;
    forall svc, host
      ensures SlotOk(svc, host, SlotOf(Step(cfg, s, e).sched, svc, host))
    {
      StepSlot(cfg, s, e, svc, host);
      SlotStepOk(e, Step(cfg, s, e).calls, svc, host, SlotOf(s, svc, host), SlotOf(Step(cfg, s, e).sched, svc, host));
    }
  }

  /** The state/id invariant holds after every history, restarts included. */
  lemma {:induction false} IdInvAlways(cfg: Config, s: SchedState, es: seq<Event>)
    requires IdInv(s)
    ensures IdInv(Run(cfg, s, es))
  {
    hide IdInv, Step;
    if es != [] {
      IdInvAlways(cfg, s, es[..|es| - 1]);
      IdInvStep(cfg, Run(cfg, s, es[..|es| - 1]), es[|es| - 1]);
    }
  }

  // ------------------------------------------------------------ kills for an offer

  lemma ShutdownCallIsOf(s: SchedState, n: NodeState, host: string, c: DriverCall)
    requires c in ShutdownCalls(s, n, host)
    ensures exists svc: Service :: svc !in {Prober, Client} && c == KillTask(TaskId(svc, host))
  {
    hide TaskId;
    var svc := if c in KillIfRunning(Registry, host, n.registry) then Registry
               else if c in KillIfRunning(Data, host, n.data) then Data
               else if c in KillIfRunning(Metadata, host, n.metadata) then Metadata
               else if c in KillIfRunning(Api, host, s.api) then Api
               else if c in KillIfRunning(S3, host, s.s3) then S3
               else Webconsole;
    assert svc !in {Prober, Client} && c == KillTask(TaskId(svc, host));
  }

  lemma OwnId(svc: Service, id: string) returns (host: string)
    requires IsIdOf(svc, id)
    ensures id == TaskId(svc, host)
  {
    host := id[|Name(svc)| + 1..];
  }

  /**
   * With no version set, an offer has a recorded task killed exactly when the service is neither the client nor the
   * prober and the task was started on the offer's own host: a singleton recorded elsewhere is not reached, because
   * the kill is addressed to its id on the offer's host.
   */
  lemma ShutdownReaches(s: SchedState, host: string, svc: Service)
    requires IdInv(s) && host in s.nodes && SlotOf(s, svc, host).taskId != ""
    ensures var id := SlotOf(s, svc, host).taskId;
            KillTask(id) in ShutdownCalls(s, s.nodes[host], host)
            <==> svc !in {Prober, Client} && id == TaskId(svc, host)
  {
    hide TaskId, IsIdOf, Name, IdInv;
    var id := SlotOf(s, svc, host).taskId;
    RecordedSlotOk(s, svc, host);
    BuiltIdOk(svc, host);
    var h := OwnId(svc, id);
    if KillTask(id) in ShutdownCalls(s, s.nodes[host], host) {
      ShutdownCallIsOf(s, s.nodes[host], host, KillTask(id));
      var x: Service :| x !in {Prober, Client} && id == TaskId(x, host);
      TaskIdInjective(x, host, svc, h);
    }
  }

  lemma RecordedSlotOk(s: SchedState, svc: Service, host: string)
    requires IdInv(s)
    ensures SlotOk(svc, host, SlotOf(s, svc, host))
  {
  }
}
