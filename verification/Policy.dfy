/** The predicates that decide whether a service may be started. */
module Policy {
  import opened Types

  predicate ShouldServiceBeStarted(state: TaskState) {
    match state
    case STARTING | RUNNING | UNKNOWN => false
    case NOT_RUNNING => true
  }

  function CoreServicesRunning(n: NodeState): nat {
    (if n.registry.state == RUNNING then 1 else 0)
    + (if n.metadata.state == RUNNING then 1 else 0)
    + (if n.data.state == RUNNING then 1 else 0)
  }

  /** The counting test that holds back non-core services. */
  predicate CoreGateOpen(n: NodeState) {
    CoreServicesRunning(n) == |n.deviceTypes|
  }

  predicate DoStartService(svc: Service, n: NodeState, state: TaskState) {
    n.deviceTypesValid
    && (CoreGateOpen(n) || IsCore(svc))
    && ShouldServiceBeStarted(state)
  }

  /** The core service a device type calls for; BOOTSTRAP and CLIENT call for none. */
  function DeviceService(d: DeviceType): Option<Service> {
    match d
    case REGISTRY => Some(Registry)
    case METADATA => Some(Metadata)
    case DATA => Some(Data)
    case _ => None
  }

  function CoreDevice(svc: Service): DeviceType
    requires IsCore(svc)
  {
    match svc
    case Registry => REGISTRY
    case Metadata => METADATA
    case _ => DATA
  }

  /** The device types whose core service is recorded as RUNNING on the node. */
  function RunningDevices(n: NodeState): set<DeviceType> {
    (if n.registry.state == RUNNING then {REGISTRY} else {})
    + (if n.metadata.state == RUNNING then {METADATA} else {})
    + (if n.data.state == RUNNING then {DATA} else {})
  }

  function Elements<T>(s: seq<T>): set<T> {
    set x | x in s
  }

  predicate NoRepeats<T(==)>(s: seq<T>) {
    forall i, j | 0 <= i < j < |s| :: s[i] != s[j]
  }

  lemma {:induction false} NoRepeatsSize<T>(s: seq<T>)
    requires NoRepeats(s)
    ensures |Elements(s)| == |s|
  {
    if s != [] {
      var front, last := s[..|s| - 1], s[|s| - 1];
      NoRepeatsSize(front);
      assert last !in front;
      assert s == front + [last];
      assert Elements(s) == Elements(front) + {last};
    }
  }

  lemma RunningDevicesSize(n: NodeState)
    ensures |RunningDevices(n)| == CoreServicesRunning(n)
  {
    var r := if n.registry.state == RUNNING then {REGISTRY} else {};
    var m := if n.metadata.state == RUNNING then {METADATA} else {};
    var d := if n.data.state == RUNNING then {DATA} else {};
    assert |r + m| == |r| + |m|;
    assert |r + m + d| == |r + m| + |d|;
  }

  lemma SplitSize<T>(a: set<T>, b: set<T>)
    ensures |a| == |a - b| + |a * b|
  {
    assert a == (a - b) + (a * b);
  }

  /**
   * The gate for a duplicate-free device list, exactly: it opens iff as many core services run without
   * being listed as listed devices have no running core service. A CLIENT or BOOTSTRAP entry is always
   * of the second kind.
   */
  lemma CoreGateExact(n: NodeState)
    requires NoRepeats(n.deviceTypes)
    ensures var listed, running := Elements(n.deviceTypes), RunningDevices(n);
            CoreGateOpen(n) <==> |running - listed| == |listed - running|
  {
    var listed, running := Elements(n.deviceTypes), RunningDevices(n);
    NoRepeatsSize(n.deviceTypes);
    RunningDevicesSize(n);
    SplitSize(running, listed);
    SplitSize(listed, running);
    assert running * listed == listed * running;
  }

  /** With every running core service listed, the gate opens iff every listed device's service runs. */
  lemma CoreGateMeansAllRunning(n: NodeState)
    requires NoRepeats(n.deviceTypes)
    requires RunningDevices(n) <= Elements(n.deviceTypes)
    ensures CoreGateOpen(n) <==> Elements(n.deviceTypes) <= RunningDevices(n)
  {
    CoreGateExact(n);
    var listed, running := Elements(n.deviceTypes), RunningDevices(n);
    assert running - listed == {};
    assert |listed - running| == 0 <==> listed - running == {};
    assert listed <= running <==> listed - running == {};
  }
}
