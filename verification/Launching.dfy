/** The part of resourceOffers that fills one offer with tasks while a target version is set. */
module Launching {
  import opened Types
  import opened TaskIds
  import opened ResourcePlans
  import opened Policy

  /**
   * An offer. Roles are not modelled: each reserved* field is the outcome of the reserved-role test on
   * the resources remaining when that service is considered.
   */
  datatype Offer = Offer(
    id: string,
    hostname: string,
    slaveId: string,
    resources: Resources,
    reservedForApi: bool,
    reservedForS3: bool,
    reservedForConsole: bool)

  /** A launched task. Only tasks built by makeTask carry a version. */
  datatype TaskInfo = TaskInfo(
    service: Service,
    id: string,
    slaveId: string,
    resources: Resources,
    version: Option<string>)

  function MakeTask(cfg: Config, version: string, svc: Service, o: Offer): TaskInfo {
    TaskInfo(svc, TaskId(svc, o.hostname), o.slaveId, Plan(cfg, svc), Some(version))
  }

  /** createClientTaskInfo sets neither resources nor a version. */
  function ClientTask(o: Offer): TaskInfo {
    TaskInfo(Client, TaskId(Client, o.hostname), o.slaveId, NO_RESOURCES, None)
  }

  function ProberTask(cfg: Config, o: Offer): TaskInfo {
    TaskInfo(Prober, TaskId(Prober, o.hostname), o.slaveId, Plan(cfg, Prober), None)
  }

  function TaskFor(cfg: Config, version: string, svc: Service, o: Offer): TaskInfo {
    if svc == Client then ClientTask(o) else MakeTask(cfg, version, svc, o)
  }

  /** The variables the launch code updates while it works on one offer. */
  datatype Stage = Stage(
    api: ServiceState,
    s3: ServiceState,
    console: ServiceState,
    node: NodeState,
    remaining: Resources,
    tasks: seq<TaskInfo>)

  function StageService(g: Stage, svc: Service): ServiceState {
    match svc
    case Api => g.api
    case S3 => g.s3
    case Webconsole => g.console
    case _ => NodeService(g.node, svc)
  }

  function WithStageService(g: Stage, svc: Service, ss: ServiceState): Stage {
    match svc
    case Api => g.(api := ss)
    case S3 => g.(s3 := ss)
    case Webconsole => g.(console := ss)
    case _ => g.(node := WithNodeService(g.node, svc, ss))
  }

  predicate RoleAllows(cfg: Config, o: Offer, svc: Service) {
    || cfg.publicSlaveRole == ""
    || (svc == Api && o.reservedForApi)
    || (svc == S3 && o.reservedForS3)
    || (svc == Webconsole && o.reservedForConsole)
  }

  /** Everything but resources speaks for starting the service. */
  predicate Wanted(cfg: Config, o: Offer, g: Stage, svc: Service) {
    && DoStartService(svc, g.node, StageService(g, svc).state)
    && (IsSingleton(svc) ==> RoleAllows(cfg, o, svc))
    && (svc == S3 ==> cfg.s3Hostname != "")
    && (svc == Client ==> g.node.clientMountPoint)
    && svc != Prober
  }

  /** The message left on a core service that does not fit. */
  function ShortageMessage(svc: Service): string {
    match svc
    case Registry => "Could not start registry: insufficient resources"
    case Metadata => "Could not start metadata: insufficient resources"
    case _ => "Could not start data: insufficient resources"
  }

  /** Launching a core service leaves its state as it was; the others are marked RUNNING at once. */
  function MarkLaunched(g: Stage, svc: Service, host: string): Stage {
    if IsCore(svc) then g
    else WithStageService(g, svc, StageService(g, svc).(state := RUNNING, taskId := TaskId(svc, host)))
  }

  /** One attempt to start a service on the offer. */
  function Attempt(cfg: Config, o: Offer, version: string, g: Stage, svc: Service): Stage {
    if !Wanted(cfg, o, g, svc) then g
    else if !Contains(g.remaining, Plan(cfg, svc)) then
      if IsCore(svc) then WithStageService(g, svc, StageService(g, svc).(lastMessage := ShortageMessage(svc)))
      else g
    else
      MarkLaunched(g, svc, o.hostname).(
        remaining := Minus(g.remaining, Plan(cfg, svc)),
        tasks := g.tasks + [TaskFor(cfg, version, svc, o)])
  }

  /** The core services called for by a device list, in list order, repeats kept. */
  function DeviceServices(ds: seq<DeviceType>): seq<Service> {
    if ds == [] then []
    else
      DeviceServices(ds[..|ds| - 1])
      + match DeviceService(ds[|ds| - 1])
        case None => []
        case Some(svc) => [svc]
  }

  /** The services considered for one offer, in order. */
  function Agenda(ds: seq<DeviceType>): seq<Service> {
    [Api, S3, Webconsole, Client] + DeviceServices(ds)
  }

  function AttemptAll(cfg: Config, o: Offer, version: string, g: Stage, svcs: seq<Service>): Stage {
    if svcs == [] then g
    else Attempt(cfg, o, version, AttemptAll(cfg, o, version, g, svcs[..|svcs| - 1]), svcs[|svcs| - 1])
  }

  function ServiceStage(cfg: Config, o: Offer, version: string, g: Stage): Stage {
    AttemptAll(cfg, o, version, g, Agenda(g.node.deviceTypes))
  }

  /** Stage at the start of the service stage for an offer. */
  predicate StartsEmpty(o: Offer, g: Stage) {
    g.remaining == o.resources && g.tasks == []
  }

  // ---------------------------------------------------------------- ledger

  /** What the launch code has subtracted from the offer for the given tasks. */
  function Debited(cfg: Config, tasks: seq<TaskInfo>): Resources {
    if tasks == [] then NO_RESOURCES
    else Plus(Debited(cfg, tasks[..|tasks| - 1]), Plan(cfg, tasks[|tasks| - 1].service))
  }

  /** What the tasks themselves ask the master for. */
  function Carried(tasks: seq<TaskInfo>): Resources {
    if tasks == [] then NO_RESOURCES
    else Plus(Carried(tasks[..|tasks| - 1]), tasks[|tasks| - 1].resources)
  }

  predicate DisjointPorts(tasks: seq<TaskInfo>) {
    forall i, j | 0 <= i < j < |tasks| :: tasks[i].resources.ports !! tasks[j].resources.ports
  }

  /** Remaining plus debited is the offer, in every resource; ports are split without overlap. */
  predicate Balanced(cfg: Config, offered: Resources, g: Stage) {
    && Plus(g.remaining, Debited(cfg, g.tasks)) == offered
    && g.remaining.ports !! Debited(cfg, g.tasks).ports
    && Contains(Debited(cfg, g.tasks), Carried(g.tasks))
    && DisjointPorts(g.tasks)
  }

  lemma AppendTask(cfg: Config, tasks: seq<TaskInfo>, t: TaskInfo)
    ensures Debited(cfg, tasks + [t]) == Plus(Debited(cfg, tasks), Plan(cfg, t.service))
    ensures Carried(tasks + [t]) == Plus(Carried(tasks), t.resources)
  {
    assert (tasks + [t])[..|tasks|] == tasks;
  }

  lemma CarriedPorts(tasks: seq<TaskInfo>, i: nat)
    requires i < |tasks|
    ensures tasks[i].resources.ports <= Carried(tasks).ports
  {
    if i < |tasks| - 1 {
      CarriedPorts(tasks[..|tasks| - 1], i);
    }
  }

  lemma LaunchBalanced(cfg: Config, offered: Resources, g: Stage, g': Stage, t: TaskInfo)
    requires Balanced(cfg, offered, g)
    requires var plan := Plan(cfg, t.service);
             Contains(g.remaining, plan) && g'.remaining == Minus(g.remaining, plan) && Contains(plan, t.resources)
    requires g'.tasks == g.tasks + [t]
    ensures Balanced(cfg, offered, g')
  {
    hide Plan;
    AppendTask(cfg, g.tasks, t);
    forall i | 0 <= i < |g.tasks|
      ensures g.tasks[i].resources.ports !! t.resources.ports
    {
      CarriedPorts(g.tasks, i);
    }
  }

  lemma AttemptBalanced(cfg: Config, o: Offer, version: string, offered: Resources, g: Stage, svc: Service)
    requires Balanced(cfg, offered, g)
    ensures Balanced(cfg, offered, Attempt(cfg, o, version, g, svc))
  {
    hide Plan, TaskId, ShortageMessage, Balanced;
    var g' := Attempt(cfg, o, version, g, svc);
    if Wanted(cfg, o, g, svc) && Contains(g.remaining, Plan(cfg, svc)) {
      LaunchBalanced(cfg, offered, g, g', TaskFor(cfg, version, svc, o));
    } else {
      UnchangedBalanced(cfg, offered, g, g');
    }
  }

  lemma UnchangedBalanced(cfg: Config, offered: Resources, g: Stage, g': Stage)
    requires Balanced(cfg, offered, g)
    requires g'.remaining == g.remaining && g'.tasks == g.tasks
    ensures Balanced(cfg, offered, g')
  {
  }

  /**
   * Offer ledger: after every attempt, for every configuration and offer, remaining plus debited resources
   * equal the offered ones, no scalar has gone negative, and the launched tasks' port sets are disjoint.
   */
  lemma {:induction false} OfferLedger(cfg: Config, o: Offer, version: string, g: Stage, svcs: seq<Service>)
    requires StartsEmpty(o, g)
    ensures Balanced(cfg, o.resources, AttemptAll(cfg, o, version, g, svcs))
  {
    if svcs == [] {
      assert Debited(cfg, []) == NO_RESOURCES;
    } else {
      var front := svcs[..|svcs| - 1];
      OfferLedger(cfg, o, version, g, front);
      AttemptBalanced(cfg, o, version, o.resources, AttemptAll(cfg, o, version, g, front), svcs[|svcs| - 1]);
    }
  }

  /** The resources carried by the tasks launched from one offer sum to at most that offer. */
  lemma LaunchWithinOffer(cfg: Config, o: Offer, version: string, g: Stage)
    requires StartsEmpty(o, g)
    ensures Contains(o.resources, Carried(ServiceStage(cfg, o, version, g).tasks))
    ensures DisjointPorts(ServiceStage(cfg, o, version, g).tasks)
  {
    OfferLedger(cfg, o, version, g, Agenda(g.node.deviceTypes));
  }

  // ------------------------------------------------- what attempts leave alone

  /** Same node except for messages and the client's state. */
  predicate SameCore(n: NodeState, m: NodeState) {
    && n.hostname == m.hostname && n.slaveId == m.slaveId
    && n.prober == m.prober
    && n.registry.state == m.registry.state && n.registry.taskId == m.registry.taskId
    && n.metadata.state == m.metadata.state && n.metadata.taskId == m.metadata.taskId
    && n.data.state == m.data.state && n.data.taskId == m.data.taskId
    && n.deviceTypes == m.deviceTypes && n.deviceTypesValid == m.deviceTypesValid
    && n.clientMountPoint == m.clientMountPoint
    && n.lastProbe == m.lastProbe && n.lastOffer == m.lastOffer
  }

  predicate Launched(tasks: seq<TaskInfo>, svc: Service) {
    exists t | t in tasks :: t.service == svc
  }

  /** A launched service was wanted and NOT_RUNNING; singletons and the client are now RUNNING under the new id. */
  predicate LaunchEffect(g0: Stage, g: Stage, svc: Service, host: string) {
    var a, b := StageService(g0, svc), StageService(g, svc);
    if Launched(g.tasks, svc) then
      && a.state == NOT_RUNNING && svc != Prober
      && (!IsCore(svc) ==> b.state == RUNNING && b.taskId == TaskId(svc, host))
      && (IsCore(svc) ==> b.state == a.state && b.taskId == a.taskId)
    else
      b.state == a.state && b.taskId == a.taskId
  }

  /** The invariant of the launch code between the initial stage g0 and a later one. */
  ghost predicate StageInv(cfg: Config, o: Offer, version: string, g0: Stage, g: Stage) {
    && SameCore(g0.node, g.node)
    && (forall t | t in g.tasks :: t == TaskFor(cfg, version, t.service, o) && Wanted(cfg, o, g0, t.service))
    && (forall svc :: LaunchEffect(g0, g, svc, o.hostname))
    && (forall t | t in g.tasks && t.service != Client :: Plan(cfg, t.service).ports !! g.remaining.ports)
    && (forall i, j | 0 <= i < j < |g.tasks| :: g.tasks[i].service != g.tasks[j].service)
  }

  lemma WantedStable(cfg: Config, o: Offer, version: string, g0: Stage, g: Stage, svc: Service)
    requires StageInv(cfg, o, version, g0, g)
    ensures Wanted(cfg, o, g, svc) ==> Wanted(cfg, o, g0, svc)
    ensures !Launched(g.tasks, svc) || IsCore(svc) ==> Wanted(cfg, o, g, svc) == Wanted(cfg, o, g0, svc)
  {
    assert LaunchEffect(g0, g, svc, o.hostname);
    assert CoreServicesRunning(g.node) == CoreServicesRunning(g0.node);
  }

  /** A service already launched from this offer is not launched again. */
  lemma NoRelaunch(cfg: Config, o: Offer, version: string, g0: Stage, g: Stage, svc: Service)
    requires StageInv(cfg, o, version, g0, g)
    requires Launched(g.tasks, svc)
    ensures !(Wanted(cfg, o, g, svc) && Contains(g.remaining, Plan(cfg, svc)))
  {
    assert LaunchEffect(g0, g, svc, o.hostname);
    if IsCore(svc) {
      PlanHasPorts(cfg, svc);
      var p := Port(cfg.portRangeBase + PortOffset(svc));
      assert p in Plan(cfg, svc).ports;
    }
  }

  lemma StageServiceUpdate(g: Stage, svc: Service, ss: ServiceState, other: Service)
    ensures StageService(WithStageService(g, svc, ss), other) == if other == svc then ss else StageService(g, other)
  {
  }

  /** A launch of svc, seen from any service. */
  lemma LaunchSlot(g: Stage, svc: Service, host: string, other: Service)
    ensures var a, b := StageService(g, other), StageService(MarkLaunched(g, svc, host), other);
            if other == svc && !IsCore(svc) then b.state == RUNNING && b.taskId == TaskId(svc, host) else b == a
  {
    if !IsCore(svc) {
      StageServiceUpdate(g, svc, StageService(g, svc).(state := RUNNING, taskId := TaskId(svc, host)), other);
    }
  }

  lemma LaunchKeepsEffect(g0: Stage, g: Stage, g': Stage, svc: Service, host: string, t: TaskInfo, other: Service)
    requires LaunchEffect(g0, g, other, host)
    requires StageService(g0, svc).state == NOT_RUNNING && svc != Prober && t.service == svc
    requires StageService(g', other) == StageService(MarkLaunched(g, svc, host), other)
    requires g'.tasks == g.tasks + [t]
    ensures LaunchEffect(g0, g', other, host)
  {
    LaunchSlot(g, svc, host, other);
    LaunchedAppend(g.tasks, t, other);
  }

  /** Attempting svc has the prescribed effect on every service. */
  lemma AttemptEffect(cfg: Config, o: Offer, version: string, g0: Stage, g: Stage, svc: Service, other: Service)
    requires LaunchEffect(g0, g, other, o.hostname)
    requires Wanted(cfg, o, g, svc) ==> Wanted(cfg, o, g0, svc)
    ensures LaunchEffect(g0, Attempt(cfg, o, version, g, svc), other, o.hostname)
  {
    hide TaskId, ShortageMessage, Plan, RoleAllows;
    var g' := Attempt(cfg, o, version, g, svc);
    if Wanted(cfg, o, g, svc) {
      if Contains(g.remaining, Plan(cfg, svc)) {
        LaunchKeepsEffect(g0, g, g', svc, o.hostname, TaskFor(cfg, version, svc, o), other);
      } else if IsCore(svc) {
        StageServiceUpdate(g, svc, StageService(g, svc).(lastMessage := ShortageMessage(svc)), other);
      }
    }
  }

  lemma LaunchedAppend(tasks: seq<TaskInfo>, t: TaskInfo, svc: Service)
    ensures Launched(tasks + [t], svc) <==> Launched(tasks, svc) || t.service == svc
  {
    assert t in tasks + [t];
    assert forall x | x in tasks :: x in tasks + [t];
  }

  lemma AttemptKeepsInv(cfg: Config, o: Offer, version: string, g0: Stage, g: Stage, svc: Service)
    requires StageInv(cfg, o, version, g0, g)
    ensures StageInv(cfg, o, version, g0, Attempt(cfg, o, version, g, svc))
  {
    hide TaskId, ShortageMessage, LaunchEffect, Plan, RoleAllows, DoStartService;
    var g' := Attempt(cfg, o, version, g, svc);
    WantedStable(cfg, o, version, g0, g, svc);
    forall other
      ensures LaunchEffect(g0, g', other, o.hostname)
    {
      assert LaunchEffect(g0, g, other, o.hostname);
      AttemptEffect(cfg, o, version, g0, g, svc, other);
    }
    if Wanted(cfg, o, g, svc) && Contains(g.remaining, Plan(cfg, svc)) {
      WantedStable(cfg, o, version, g0, g, svc);
      if Launched(g.tasks, svc) {
        NoRelaunch(cfg, o, version, g0, g, svc);
      }
      assert forall t | t in g.tasks :: t.service != svc;
    }
  }

  lemma {:induction false} AttemptAllInv(cfg: Config, o: Offer, version: string, g: Stage, svcs: seq<Service>)
    requires StartsEmpty(o, g)
    ensures StageInv(cfg, o, version, g, AttemptAll(cfg, o, version, g, svcs))
  {
    if svcs != [] {
      var front := svcs[..|svcs| - 1];
      AttemptAllInv(cfg, o, version, g, front);
      AttemptKeepsInv(cfg, o, version, g, AttemptAll(cfg, o, version, g, front), svcs[|svcs| - 1]);
    }
  }

  /** No duplicate ids in a launch, however often the device list repeats a type. */
  lemma NoDuplicateIds(cfg: Config, o: Offer, version: string, g: Stage)
    requires StartsEmpty(o, g)
    ensures var tasks := ServiceStage(cfg, o, version, g).tasks;
            forall i, j | 0 <= i < j < |tasks| :: tasks[i].id != tasks[j].id
  {
    AttemptAllInv(cfg, o, version, g, Agenda(g.node.deviceTypes));
    var tasks := ServiceStage(cfg, o, version, g).tasks;
    forall i, j | 0 <= i < j < |tasks|
      ensures tasks[i].id != tasks[j].id
    {
      assert tasks[i] in tasks && tasks[j] in tasks;
      if tasks[i].id == tasks[j].id {
        TaskIdInjective(tasks[i].service, o.hostname, tasks[j].service, o.hostname);
      }
    }
  }

  /**
   * Launch-gate cardinality: with a duplicate-free device list that covers the running core services,
   * one offer's launch list never mixes core and non-core services.
   */
  lemma NoMixedLaunch(cfg: Config, o: Offer, version: string, g: Stage, a: TaskInfo, b: TaskInfo)
    requires StartsEmpty(o, g)
    requires NoRepeats(g.node.deviceTypes)
    requires RunningDevices(g.node) <= Elements(g.node.deviceTypes)
    requires a in ServiceStage(cfg, o, version, g).tasks && b in ServiceStage(cfg, o, version, g).tasks
    ensures IsCore(a.service) == IsCore(b.service)
  {
    LaunchedWasWanted(cfg, o, version, g, a);
    LaunchedWasWanted(cfg, o, version, g, b);
    if IsCore(a.service) {
      WantedCoreClosesGate(cfg, o, g, a.service, b.service);
    } else if IsCore(b.service) {
      WantedCoreClosesGate(cfg, o, g, b.service, a.service);
    }
  }

  lemma WantedCoreClosesGate(cfg: Config, o: Offer, g: Stage, core: Service, other: Service)
    requires NoRepeats(g.node.deviceTypes)
    requires RunningDevices(g.node) <= Elements(g.node.deviceTypes)
    requires IsCore(core) && CoreDevice(core) in g.node.deviceTypes && Wanted(cfg, o, g, core)
    ensures Wanted(cfg, o, g, other) ==> IsCore(other)
  {
    CoreGateMeansAllRunning(g.node);
    assert CoreDevice(core) in Elements(g.node.deviceTypes);
    assert CoreDevice(core) !in RunningDevices(g.node);
  }

  /** A launched task was wanted when the offer came in; a core one is listed among the devices. */
  lemma LaunchedWasWanted(cfg: Config, o: Offer, version: string, g: Stage, t: TaskInfo)
    requires StartsEmpty(o, g)
    requires t in ServiceStage(cfg, o, version, g).tasks
    ensures Wanted(cfg, o, g, t.service)
    ensures IsCore(t.service) ==> CoreDevice(t.service) in g.node.deviceTypes
  {
    hide TaskId, Wanted;
    AttemptAllInv(cfg, o, version, g, Agenda(g.node.deviceTypes));
    OnlyListedLaunched(cfg, o, version, g, Agenda(g.node.deviceTypes), t);
    ListedDevices(g.node.deviceTypes, t.service);
  }

  lemma {:induction false} OnlyListedLaunched(cfg: Config, o: Offer, version: string, g: Stage, svcs: seq<Service>, t: TaskInfo)
    requires StartsEmpty(o, g)
    requires t in AttemptAll(cfg, o, version, g, svcs).tasks
    ensures t.service in svcs
  {
    hide TaskId, ShortageMessage;
    if svcs != [] {
      var front := svcs[..|svcs| - 1];
      if t in AttemptAll(cfg, o, version, g, front).tasks {
        OnlyListedLaunched(cfg, o, version, g, front, t);
      }
    }
  }

  lemma {:induction false} ListedDevices(ds: seq<DeviceType>, svc: Service)
    ensures svc in DeviceServices(ds) <==> IsCore(svc) && CoreDevice(svc) in ds
  {
    if ds != [] {
      ListedDevices(ds[..|ds| - 1], svc);
      assert ds == ds[..|ds| - 1] + [ds[|ds| - 1]];
    }
  }
}
