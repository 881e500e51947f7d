/** The prober: which device types a host's mounts and marker files call for. */
module Executors {
  import opened Types
  import opened Policy

  /** A line of the mount table; Unparsable has fewer than three fields. */
  datatype MountLine = Unparsable | Mount(mountPoint: string, fsType: string)

  /** What the prober can see: the mount table, the files with their lines, and the directories. */
  datatype HostView = HostView(mounts: seq<MountLine>, files: map<string, seq<string>>, directories: set<string>)

  /** stat succeeds. */
  predicate Exists(v: HostView, path: string) {
    path in v.files || path in v.directories
  }

  function Lines(v: HostView, path: string): seq<string> {
    if path in v.files then v.files[path] else []
  }

  predicate DeviceFileSystem(m: MountLine) {
    m.Mount? && (m.fsType == "ext4" || m.fsType == "xfs")
  }

  const MARKERS := ["dir", "metadata", "data"]

  function MarkerPath(m: MountLine, name: string): string
    requires m.Mount?
  {
    m.mountPoint + "/quobyte-" + name
  }

  function SetupPath(m: MountLine): string
    requires m.Mount?
  {
    m.mountPoint + "/QUOBYTE_DEV_SETUP"
  }

  function MarkerName(d: DeviceType): string {
    match d
    case REGISTRY => "dir"
    case METADATA => "metadata"
    case DATA => "data"
    case _ => ""
  }

  function SetupLine(d: DeviceType): string {
    match d
    case REGISTRY => "device.type=DIR_DEVICE"
    case METADATA => "device.type=METADATA_DEVICE"
    case DATA => "device.type=DATA_DEVICE"
    case _ => ""
  }

  predicate IsCoreDevice(d: DeviceType) {
    d == REGISTRY || d == METADATA || d == DATA
  }

  /** A mounted ext4 or xfs file system marks the type, by a marker file or in its setup file. */
  predicate Marks(v: HostView, m: MountLine, d: DeviceType) {
    && DeviceFileSystem(m)
    && IsCoreDevice(d)
    && (Exists(v, MarkerPath(m, MarkerName(d))) || SetupLine(d) in Lines(v, SetupPath(m)))
  }

  /** The device types the host is marked for. */
  ghost predicate Marked(v: HostView, mounts: seq<MountLine>, d: DeviceType) {
    exists m | m in mounts :: Marks(v, m, d)
  }

  /** What marks a type, file by file. */
  lemma MarksByFiles(v: HostView, mountPoint: string, fsType: string)
    ensures var m, setup := Mount(mountPoint, fsType), Lines(v, mountPoint + "/QUOBYTE_DEV_SETUP");
            var mounted := fsType == "ext4" || fsType == "xfs";
            && (Marks(v, m, REGISTRY) <==>
                  mounted && (Exists(v, mountPoint + "/quobyte-dir") || "device.type=DIR_DEVICE" in setup))
            && (Marks(v, m, METADATA) <==>
                  mounted && (Exists(v, mountPoint + "/quobyte-metadata") || "device.type=METADATA_DEVICE" in setup))
            && (Marks(v, m, DATA) <==>
                  mounted && (Exists(v, mountPoint + "/quobyte-data") || "device.type=DATA_DEVICE" in setup))
            && !Marks(v, m, CLIENT) && !Marks(v, m, BOOTSTRAP)
  {
    assert "/quobyte-" + "dir" == "/quobyte-dir" && "/quobyte-" + "metadata" == "/quobyte-metadata";
    assert "/quobyte-" + "data" == "/quobyte-data";
    assert forall name: string :: mountPoint + "/quobyte-" + name == mountPoint + ("/quobyte-" + name);
  }

  /** Types added by the lines of a setup file. */
  method ReadSetup(lines: seq<string>, found0: set<DeviceType>) returns (found: set<DeviceType>)
    ensures forall d :: d in found <==> d in found0 || (IsCoreDevice(d) && SetupLine(d) in lines)
  {
    hide SetupLine;
    found := found0;
    for i := 0 to |lines|
      invariant forall d :: d in found <==> d in found0 || (IsCoreDevice(d) && SetupLine(d) in lines[..i])
    {
      assert lines[..i + 1] == lines[..i] + [lines[i]];
      SetupLineDevice(lines[i]);
      if lines[i] == "device.type=DIR_DEVICE" {
        found := found + {REGISTRY};
      } else if lines[i] == "device.type=METADATA_DEVICE" {
        found := found + {METADATA};
      } else if lines[i] == "device.type=DATA_DEVICE" {
        found := found + {DATA};
      }
    }
    assert lines[..|lines|] == lines;
  }

  lemma SetupLineDevice(line: string)
    ensures SetupLine(REGISTRY) == line <==> line == "device.type=DIR_DEVICE"
    ensures SetupLine(METADATA) == line <==> line == "device.type=METADATA_DEVICE"
    ensures SetupLine(DATA) == line <==> line == "device.type=DATA_DEVICE"
  {
  }

  /** Types added by one mount of a device file system. */
  method InspectMount(v: HostView, m: MountLine, found0: set<DeviceType>) returns (found: set<DeviceType>)
    requires DeviceFileSystem(m)
    ensures forall d :: d in found <==> d in found0 || Marks(v, m, d)
  {
    hide SetupLine, MarkerPath, SetupPath;
    found := found0;
    for i := 0 to |MARKERS|
      invariant forall d :: d in found <==>
                  || d in found0
                  || (IsCoreDevice(d) && MarkerName(d) in MARKERS[..i] && Exists(v, MarkerPath(m, MarkerName(d))))
                  || (i > 0 && IsCoreDevice(d) && SetupLine(d) in Lines(v, SetupPath(m)))
    {
      var name := MARKERS[i];
      assert MARKERS[..i + 1] == MARKERS[..i] + [name];
      if Exists(v, MarkerPath(m, name)) {
        if name == "dir" {
          found := found + {REGISTRY};
        } else if name == "metadata" {
          found := found + {METADATA};
        } else if name == "data" {
          found := found + {DATA};
        }
      }
      if Exists(v, SetupPath(m)) {
        found := ReadSetup(Lines(v, SetupPath(m)), found);
      }
    }
    AllMarkers();
  }

  lemma AllMarkers()
    ensures MARKERS[..|MARKERS|] == MARKERS
    ensures forall d | IsCoreDevice(d) :: MarkerName(d) in MARKERS
  {
    assert MARKERS[0] == "dir" && MARKERS[1] == "metadata" && MARKERS[2] == "data";
  }

  const ENUM_ORDER := [BOOTSTRAP, REGISTRY, METADATA, DATA, CLIENT]

  function Filter(order: seq<DeviceType>, found: set<DeviceType>): seq<DeviceType> {
    if order == [] then []
    else Filter(order[..|order| - 1], found) + if order[|order| - 1] in found then [order[|order| - 1]] else []
  }

  /** std::set iterates in enum order. */
  function InEnumOrder(found: set<DeviceType>): seq<DeviceType> {
    Filter(ENUM_ORDER, found)
  }

  /** The configured client directory exists, which the prober reports as CLIENT. */
  predicate ClientReported(v: HostView, clientDirectory: string) {
    clientDirectory != "" && Exists(v, clientDirectory)
  }

  /** The reply's device list: CLIENT first when the client directory exists, then the marked types in order. */
  ghost predicate IsProbeList(v: HostView, clientDirectory: string, ds: seq<DeviceType>) {
    && NoRepeats(ds)
    && (forall d :: d in ds <==>
          || Marked(v, v.mounts, d)
          || (d == CLIENT && ClientReported(v, clientDirectory)))
  }

  /** The marked types in the order registry, metadata, data. */
  ghost function MarkedList(v: HostView): seq<DeviceType> {
    (if Marked(v, v.mounts, REGISTRY) then [REGISTRY] else [])
    + (if Marked(v, v.mounts, METADATA) then [METADATA] else [])
    + (if Marked(v, v.mounts, DATA) then [DATA] else [])
  }

  lemma InOrder(v: HostView, found: set<DeviceType>)
    requires forall d :: d in found <==> Marked(v, v.mounts, d)
    ensures InEnumOrder(found) == MarkedList(v)
  {
    hide Marked, Filter;
    MarkedIsCore(v, v.mounts);
    FilterNone(found);
    FilterNext([], BOOTSTRAP, found);
    FilterNext([BOOTSTRAP], REGISTRY, found);
    FilterNext([BOOTSTRAP, REGISTRY], METADATA, found);
    FilterNext([BOOTSTRAP, REGISTRY, METADATA], DATA, found);
    FilterNext([BOOTSTRAP, REGISTRY, METADATA, DATA], CLIENT, found);
    assert [] + [BOOTSTRAP] == [BOOTSTRAP];
    assert [BOOTSTRAP] + [REGISTRY] == [BOOTSTRAP, REGISTRY];
    assert [BOOTSTRAP, REGISTRY] + [METADATA] == [BOOTSTRAP, REGISTRY, METADATA];
    assert [BOOTSTRAP, REGISTRY, METADATA] + [DATA] == [BOOTSTRAP, REGISTRY, METADATA, DATA];
    assert [BOOTSTRAP, REGISTRY, METADATA, DATA] + [CLIENT] == ENUM_ORDER;
  }

  lemma FilterNone(found: set<DeviceType>)
    ensures Filter([], found) == []
  {
  }

  lemma FilterNext(order: seq<DeviceType>, d: DeviceType, found: set<DeviceType>)
    ensures Filter(order + [d], found) == Filter(order, found) + if d in found then [d] else []
  {
    assert (order + [d])[..|order + [d]| - 1] == order;
  }

  lemma ReplyList(v: HostView, clientDirectory: string, found: set<DeviceType>)
    requires forall d :: d in found <==> Marked(v, v.mounts, d)
    ensures var ds := (if ClientReported(v, clientDirectory) then [CLIENT] else []) + InEnumOrder(found);
            && IsProbeList(v, clientDirectory, ds)
            && ds == (if ClientReported(v, clientDirectory) then [CLIENT] else []) + MarkedList(v)
  {
    hide Marked, MarkedList, InEnumOrder, ClientReported;
    MarkedIsCore(v, v.mounts);
    EnumOrder(found);
    InOrder(v, found);
    assert CLIENT !in InEnumOrder(found);
    FirstAlone(CLIENT, InEnumOrder(found));
    assert [] + InEnumOrder(found) == InEnumOrder(found);
  }

  lemma FirstAlone(d: DeviceType, ds: seq<DeviceType>)
    requires NoRepeats(ds) && d !in ds
    ensures NoRepeats([d] + ds) && forall x :: x in [d] + ds <==> x == d || x in ds
  {
  }

  /** frameworkMessage for a request without an initialize_path. */
  method Probe(v: HostView, clientDirectory: string) returns (response: ProbeResponse)
    ensures IsProbeList(v, clientDirectory, response.deviceTypes)
    ensures response.deviceTypes == (if ClientReported(v, clientDirectory) then [CLIENT] else []) + MarkedList(v)
    ensures response.clientMountPoint <==> "/quobyte" in v.directories
  {
    hide Marks, MarkedList, InEnumOrder, IsProbeList;
    var found: set<DeviceType> := {};
    for i := 0 to |v.mounts|
      invariant forall d :: d in found <==> Marked(v, v.mounts[..i], d)
    {
      var line := v.mounts[i];
      assert v.mounts[..i + 1] == v.mounts[..i] + [line];
      MarkedNext(v, v.mounts[..i], line);
      if line.Unparsable? {
        NotDeviceMount(v, line);
        continue;
      }
      if line.fsType == "ext4" || line.fsType == "xfs" {
        found := InspectMount(v, line, found);
      } else {
        NotDeviceMount(v, line);
      }
    }
    assert v.mounts[..|v.mounts|] == v.mounts;

    var deviceTypes: seq<DeviceType> := [];
    if clientDirectory != "" && Exists(v, clientDirectory) {
      deviceTypes := deviceTypes + [CLIENT];
    }
    assert deviceTypes == if ClientReported(v, clientDirectory) then [CLIENT] else [];
    deviceTypes := deviceTypes + InEnumOrder(found);
    ReplyList(v, clientDirectory, found);
    response := ProbeResponse(deviceTypes, "/quobyte" in v.directories);
  }

  lemma MarkedNext(v: HostView, mounts: seq<MountLine>, m: MountLine)
    ensures forall d :: Marked(v, mounts + [m], d) <==> Marked(v, mounts, d) || Marks(v, m, d)
  {
    hide Marks;
    forall d
      ensures Marked(v, mounts + [m], d) <==> Marked(v, mounts, d) || Marks(v, m, d)
    {
      assert m in mounts + [m];
      assert forall x | x in mounts :: x in mounts + [m];
    }
  }

  lemma NotDeviceMount(v: HostView, m: MountLine)
    requires !DeviceFileSystem(m)
    ensures forall d :: !Marks(v, m, d)
  {
  }

  lemma MarkedIsCore(v: HostView, mounts: seq<MountLine>)
    ensures forall d | Marked(v, mounts, d) :: IsCoreDevice(d)
  {
  }

  lemma {:induction false} FilterKeeps(order: seq<DeviceType>, found: set<DeviceType>)
    requires NoRepeats(order)
    ensures NoRepeats(Filter(order, found))
    ensures forall d :: d in Filter(order, found) <==> d in order && d in found
  {
    if order != [] {
      var front, last := order[..|order| - 1], order[|order| - 1];
      assert order == front + [last];
      FilterKeeps(front, found);
      assert last !in front;
    }
  }

  lemma EnumOrder(found: set<DeviceType>)
    ensures NoRepeats(InEnumOrder(found))
    ensures forall d :: d in InEnumOrder(found) <==> d in found
  {
    FilterKeeps(ENUM_ORDER, found);
    forall d
      ensures d in ENUM_ORDER
    {
      EnumComplete(d);
    }
  }

  lemma EnumComplete(d: DeviceType)
    ensures d in ENUM_ORDER
  {
    assert ENUM_ORDER[0] == BOOTSTRAP && ENUM_ORDER[1] == REGISTRY && ENUM_ORDER[2] == METADATA;
    assert ENUM_ORDER[3] == DATA && ENUM_ORDER[4] == CLIENT;
  }

  /** The marked types, as a set. */
  ghost function MarkedTypes(v: HostView): set<DeviceType> {
    set d: DeviceType | Marked(v, v.mounts, d)
  }

  /**
   * The gate on a host whose list comes from the prober, exactly: it opens iff the core services running there
   * without being marked any more are as many as the marked types without a running service, plus one when CLIENT
   * is listed too.
   */
  lemma ProbedGate(v: HostView, clientDirectory: string, n: NodeState)
    requires IsProbeList(v, clientDirectory, n.deviceTypes)
    ensures var marked, running := MarkedTypes(v), RunningDevices(n);
            CoreGateOpen(n) <==>
              |running - marked| == |marked - running| + if ClientReported(v, clientDirectory) then 1 else 0
  {
    hide Marked, RunningDevices, CoreGateOpen, ClientReported, IsProbeList;
    ListedTypes(v, clientDirectory, n.deviceTypes);
    CoreGateExact(n);
    ClientNeverRuns(n);
    if ClientReported(v, clientDirectory) {
      OneMoreListed(MarkedTypes(v), RunningDevices(n), CLIENT);
    }
  }

  lemma ListedTypes(v: HostView, clientDirectory: string, ds: seq<DeviceType>)
    requires IsProbeList(v, clientDirectory, ds)
    ensures NoRepeats(ds) && CLIENT !in MarkedTypes(v)
    ensures Elements(ds) == MarkedTypes(v) + if ClientReported(v, clientDirectory) then {CLIENT} else {}
  {
    hide Marked;
    MarkedIsCore(v, v.mounts);
  }

  lemma ClientNeverRuns(n: NodeState)
    ensures CLIENT !in RunningDevices(n)
  {
  }

  lemma OneMoreListed<T>(marked: set<T>, running: set<T>, x: T)
    requires x !in marked && x !in running
    ensures |running - (marked + {x})| == |running - marked|
    ensures |marked + {x} - running| == |marked - running| + 1
  {
    assert running - (marked + {x}) == running - marked;
    assert marked + {x} - running == (marked - running) + {x};
  }

  /**
   * While every running core service is marked, the gate of a host with a CLIENT entry stays shut, so nothing but
   * core services is started; without the entry it opens iff every marked type's service runs.
   */
  lemma ProbedGateWhenMarked(v: HostView, clientDirectory: string, n: NodeState, svc: Service, state: TaskState)
    requires IsProbeList(v, clientDirectory, n.deviceTypes) && RunningDevices(n) <= MarkedTypes(v)
    ensures CoreGateOpen(n) <==> !ClientReported(v, clientDirectory) && MarkedTypes(v) == RunningDevices(n)
    ensures ClientReported(v, clientDirectory) && DoStartService(svc, n, state) ==> IsCore(svc)
  {
    hide Marked;
    ProbedGate(v, clientDirectory, n);
    var marked, running := MarkedTypes(v), RunningDevices(n);
    assert running - marked == {};
    assert marked - running == {} <==> marked == running;
  }
}
