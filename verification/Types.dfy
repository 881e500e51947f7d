/** State and message types of the scheduler (common/quobyte.proto, scheduler/scheduler.hpp). */
module Types {

  datatype Option<+T> = None | Some(value: T)

  /** The services the scheduler manages; a task's name is the service it belongs to. */
  datatype Service = Prober | Registry | Metadata | Data | Api | S3 | Webconsole | Client

  datatype DeviceType = BOOTSTRAP | REGISTRY | METADATA | DATA | CLIENT

  /** ServiceState.TaskState */
  datatype TaskState = UNKNOWN | NOT_RUNNING | STARTING | RUNNING

  /** mesos::TaskState */
  datatype MesosState =
    | TASK_STAGING | TASK_STARTING | TASK_RUNNING
    | TASK_FINISHED | TASK_FAILED | TASK_KILLED | TASK_LOST | TASK_ERROR

  datatype ServiceState = ServiceState(
    state: TaskState,
    lastUpdate: int,
    lastSeen: int,
    lastMessage: string,
    taskId: string)

  /** A default-constructed ServiceState: UNKNOWN, every optional field unset. */
  const FRESH_SERVICE := ServiceState(UNKNOWN, 0, 0, "", "")

  datatype NodeState = NodeState(
    hostname: string,
    slaveId: string,
    prober: ServiceState,
    registry: ServiceState,
    metadata: ServiceState,
    data: ServiceState,
    client: ServiceState,
    deviceTypes: seq<DeviceType>,
    clientMountPoint: bool,
    deviceTypesValid: bool,
    lastProbe: int,
    lastOffer: int)

  function FreshNode(hostname: string, slaveId: string): NodeState {
    NodeState(hostname, slaveId, FRESH_SERVICE, FRESH_SERVICE, FRESH_SERVICE, FRESH_SERVICE, FRESH_SERVICE,
              [], false, false, 0, 0)
  }

  /** SchedulerState, the part kept in ZooKeeper. */
  datatype Persistent = Persistent(frameworkId: string, targetVersion: string)

  /** Everything a QuobyteScheduler knows. */
  datatype SchedState = SchedState(
    api: ServiceState,
    s3: ServiceState,
    console: ServiceState,
    nodes: map<string, NodeState>,
    persistent: Persistent)

  /** The scheduler right after a (re)start: only the persistent part is known. */
  function FreshSched(p: Persistent): SchedState {
    SchedState(FRESH_SERVICE, FRESH_SERVICE, FRESH_SERVICE, map[], p)
  }

  datatype TaskStatus = TaskStatus(id: string, state: MesosState, message: string, slaveId: string)

  datatype ProbeResponse = ProbeResponse(deviceTypes: seq<DeviceType>, clientMountPoint: bool)

  predicate IsSingleton(svc: Service) {
    svc == Api || svc == S3 || svc == Webconsole
  }

  predicate IsCore(svc: Service) {
    svc == Registry || svc == Metadata || svc == Data
  }

  /** Releases a service: every terminal state except TASK_FINISHED. */
  predicate IsReleaseState(m: MesosState) {
    m == TASK_FAILED || m == TASK_KILLED || m == TASK_LOST || m == TASK_ERROR
  }

  predicate IsTerminal(m: MesosState) {
    match m
    case TASK_STAGING | TASK_STARTING | TASK_RUNNING => false
    case _ => true
  }

  function NodeService(n: NodeState, svc: Service): ServiceState
    requires !IsSingleton(svc)
  {
    match svc
    case Prober => n.prober
    case Registry => n.registry
    case Metadata => n.metadata
    case Data => n.data
    case _ => n.client
  }

  function WithNodeService(n: NodeState, svc: Service, ss: ServiceState): NodeState
    requires !IsSingleton(svc)
  {
    match svc
    case Prober => n.(prober := ss)
    case Registry => n.(registry := ss)
    case Metadata => n.(metadata := ss)
    case Data => n.(data := ss)
    case _ => n.(client := ss)
  }

  /** The service state a (service, host) pair denotes: one per cluster for the singletons, one per node otherwise. */
  function ServiceAt(s: SchedState, svc: Service, host: string): ServiceState
    requires IsSingleton(svc) || host in s.nodes
  {
    match svc
    case Api => s.api
    case S3 => s.s3
    case Webconsole => s.console
    case _ => NodeService(s.nodes[host], svc)
  }

  function WithServiceAt(s: SchedState, svc: Service, host: string, ss: ServiceState): SchedState
    requires IsSingleton(svc) || host in s.nodes
  {
    match svc
    case Api => s.(api := ss)
    case S3 => s.(s3 := ss)
    case Webconsole => s.(console := ss)
    case _ => s.(nodes := s.nodes[host := WithNodeService(s.nodes[host], svc, ss)])
  }
}
