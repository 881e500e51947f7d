/** Resources of offers and tasks, and the per-service plan computed from the command-line flags. */
module ResourcePlans {
  import opened Types

  /** Scalars in fixed point with three decimals, plus a set of port numbers. */
  datatype Resources = Resources(cpus: nat, mem: nat, disk: nat, ports: set<int>)

  /** One megabyte, in units of `mem`. */
  const MEGABYTE := 1000

  const NO_RESOURCES := Resources(0, 0, 0, {})

  predicate Contains(a: Resources, b: Resources) {
    b.cpus <= a.cpus && b.mem <= a.mem && b.disk <= a.disk && b.ports <= a.ports
  }

  function Plus(a: Resources, b: Resources): Resources {
    Resources(a.cpus + b.cpus, a.mem + b.mem, a.disk + b.disk, a.ports + b.ports)
  }

  function Minus(a: Resources, b: Resources): Resources
    requires Contains(a, b)
  {
    Resources(a.cpus - b.cpus, a.mem - b.mem, a.disk - b.disk, a.ports - b.ports)
  }

  /** The flags that matter; the *Resources fields are the parsed --*_resources strings. */
  datatype Config = Config(
    restrictHosts: string,
    keepAliveInterval: int,
    probeInterval: int,
    publicSlaveRole: string,
    s3Hostname: string,
    clientMountPoint: string,
    portRangeBase: int,
    apiPort: int,
    s3Port: int,
    webconsolePort: int,
    registryResources: Resources,
    metadataResources: Resources,
    dataResources: Resources,
    apiResources: Resources,
    webconsoleResources: Resources,
    proberResources: Resources,
    clientResources: Resources)

  /** Conversion of an int32 flag to a uint16_t parameter. */
  function Port(n: int): int {
    n % 0x1_0000
  }

  /** buildResourceString: the ports denoted by its text; an extra port of 0 is left out. */
  function PortSet(rpcPort: int, httpPort: int, extraPort: int): set<int> {
    {Port(rpcPort), Port(httpPort)} + if Port(extraPort) != 0 then {Port(extraPort)} else {}
  }

  /** First port of a service's pair, relative to --port_range_base. */
  function PortOffset(svc: Service): int {
    match svc
    case Registry => 0
    case Metadata => 2
    case Data => 4
    case Api => 6
    case Webconsole => 8
    case _ => 10
  }

  /** The scalar part a service asks for; S3 is given the webconsole's. */
  function SystemResources(cfg: Config, svc: Service): Resources {
    match svc
    case Prober => cfg.proberResources
    case Client => cfg.clientResources
    case Registry => cfg.registryResources
    case Metadata => cfg.metadataResources
    case Data => cfg.dataResources
    case Api => cfg.apiResources
    case Webconsole => cfg.webconsoleResources
    case S3 => cfg.webconsoleResources
  }

  function ExtraPort(cfg: Config, svc: Service): int {
    match svc
    case Api => cfg.apiPort
    case Webconsole => cfg.webconsolePort
    case S3 => cfg.s3Port
    case _ => 0
  }

  /** prepareServiceResources: the flag's resources with the service's ports added. */
  function ServiceResources(cfg: Config, svc: Service, rpcPort: int, httpPort: int, system: Resources): Resources {
    system.(ports := system.ports + PortSet(rpcPort, httpPort, ExtraPort(cfg, svc)))
  }

  /** resources_[svc] */
  function Plan(cfg: Config, svc: Service): Resources {
    if svc == Prober || svc == Client then SystemResources(cfg, svc)
    else
      var base := cfg.portRangeBase + PortOffset(svc);
      ServiceResources(cfg, svc, base, base + 1, SystemResources(cfg, svc))
  }

  /** Every service started through makeTask holds its own RPC port. */
  lemma PlanHasPorts(cfg: Config, svc: Service)
    requires svc != Prober && svc != Client
    ensures Port(cfg.portRangeBase + PortOffset(svc)) in Plan(cfg, svc).ports
    ensures Plan(cfg, svc).ports != {}
  {
  }

  lemma PortsApart(base: int, i: int, j: int)
    requires 0 <= i < 12 && 0 <= j < 12 && i != j
    ensures Port(base + i) != Port(base + j)
  {
    var q := base / 0x1_0000;
    assert base == q * 0x1_0000 + Port(base);
  }

  /**
   * When the flags themselves name no ports, the registry, metadata and data plans never share a port, wherever
   * the port range starts and even where it wraps around.
   */
  lemma CorePlansDisjoint(cfg: Config, a: Service, b: Service)
    requires a in {Registry, Metadata, Data} && b in {Registry, Metadata, Data} && a != b
    requires SystemResources(cfg, a).ports == {} && SystemResources(cfg, b).ports == {}
    ensures Plan(cfg, a).ports !! Plan(cfg, b).ports
  {
    var base, x, y := cfg.portRangeBase, PortOffset(a), PortOffset(b);
    PortsApart(base, x, y);
    PortsApart(base, x, y + 1);
    PortsApart(base, x + 1, y);
    PortsApart(base, x + 1, y + 1);
    assert Plan(cfg, a).ports == {Port(base + x), Port(base + (x + 1))};
    assert Plan(cfg, b).ports == {Port(base + y), Port(base + (y + 1))};
  }

  // ------------------------------------------------- when port plans are disjoint

  predicate DisjointPlans(cfg: Config, wanted: set<Service>) {
    forall a, b | a in wanted && b in wanted && a != b :: Plan(cfg, a).ports !! Plan(cfg, b).ports
  }

  const ALL_SERVICES := {Prober, Registry, Metadata, Data, Api, S3, Webconsole, Client}

  /** The resource flags themselves name no ports. */
  predicate NoFlagPorts(cfg: Config) {
    forall svc: Service :: SystemResources(cfg, svc).ports == {}
  }

  /** The extra port a service gets, if any. */
  function ExtraPorts(cfg: Config, svc: Service): set<int> {
    if Port(ExtraPort(cfg, svc)) != 0 then {Port(ExtraPort(cfg, svc))} else {}
  }

  /** The ports a service gets from the port range. */
  function RangePorts(cfg: Config, svc: Service): set<int> {
    if svc == Prober || svc == Client then {}
    else
      var base := cfg.portRangeBase + PortOffset(svc);
      {Port(base), Port(base + 1)}
  }

  /** The extra port of a collides neither with a range port nor with the extra port of b. */
  predicate ExtraPortApart(cfg: Config, a: Service, b: Service) {
    ExtraPorts(cfg, a) !! RangePorts(cfg, b) && ExtraPorts(cfg, a) !! ExtraPorts(cfg, b)
  }

  predicate ExtraPortsApart(cfg: Config) {
    forall a: Service, b: Service | a != b :: ExtraPortApart(cfg, a, b)
  }

  lemma PlanSplit(cfg: Config, svc: Service)
    requires NoFlagPorts(cfg)
    ensures Plan(cfg, svc).ports == RangePorts(cfg, svc) + ExtraPorts(cfg, svc)
  {
    assert SystemResources(cfg, svc).ports == {};
  }

  lemma RangesApart(cfg: Config, a: Service, b: Service)
    requires a != b
    ensures RangePorts(cfg, a) !! RangePorts(cfg, b)
  {
    if a !in {Prober, Client} && b !in {Prober, Client} {
      var base, i, j := cfg.portRangeBase, PortOffset(a), PortOffset(b);
      PortsApart(base, i, j);
      PortsApart(base, i, j + 1);
      PortsApart(base, i + 1, j);
      PortsApart(base, i + 1, j + 1);
    }
  }

  lemma PlansApartIff(cfg: Config, a: Service, b: Service)
    requires NoFlagPorts(cfg) && a != b
    ensures Plan(cfg, a).ports !! Plan(cfg, b).ports <==> ExtraPortApart(cfg, a, b) && ExtraPortApart(cfg, b, a)
  {
    hide Plan, RangePorts, ExtraPorts, NoFlagPorts;
    PlanSplit(cfg, a);
    PlanSplit(cfg, b);
    RangesApart(cfg, a, b);
  }

  /**
   * With no ports in the resource flags, the plans of all services are pairwise disjoint exactly when the extra
   * port flags (modulo 0x1_0000, 0 meaning none) differ from each other and from the other services' range ports.
   */
  lemma PlansDisjointIff(cfg: Config)
    requires NoFlagPorts(cfg)
    ensures DisjointPlans(cfg, ALL_SERVICES) <==> ExtraPortsApart(cfg)
    ensures ExtraPortsApart(cfg) ==> forall wanted: set<Service> :: DisjointPlans(cfg, wanted)
  {
    hide Plan, ExtraPortApart, NoFlagPorts, ALL_SERVICES;
    forall a: Service, b: Service | a != b
      ensures a in ALL_SERVICES && b in ALL_SERVICES
      ensures Plan(cfg, a).ports !! Plan(cfg, b).ports <==> ExtraPortApart(cfg, a, b) && ExtraPortApart(cfg, b, a)
    {
      EveryService(a);
      EveryService(b);
      PlansApartIff(cfg, a, b);
    }
  }

  lemma EveryService(svc: Service)
    ensures svc in ALL_SERVICES
  {
  }

  /** The default port flags keep all plans disjoint. */
  lemma DefaultPlansDisjoint(cfg: Config)
    requires NoFlagPorts(cfg)
    requires cfg.portRangeBase == 21000 && cfg.apiPort == 8889 && cfg.s3Port == 80 && cfg.webconsolePort == 8888
    ensures DisjointPlans(cfg, ALL_SERVICES)
  {
    hide NoFlagPorts, ALL_SERVICES, DisjointPlans;
    forall a: Service, b: Service | a != b
      ensures ExtraPortApart(cfg, a, b)
    {
      assert forall p | p in ExtraPorts(cfg, a) :: p < 21000;
      assert forall p | p in RangePorts(cfg, b) :: 21000 <= p;
    }
    PlansDisjointIff(cfg);
  }

  /** The i-th port of the range. */
  function PortAt(base: int, i: nat): int {
    Port(base + i)
  }

  function PortsFrom(base: int, k: nat): set<int> {
    set i: nat | i < k :: PortAt(base, i)
  }

  lemma {:induction false} PortsFromSize(base: int, k: nat)
    requires k <= 12
    ensures |PortsFrom(base, k)| == k
  {
    hide Port;
    if k > 0 {
      PortsFromSize(base, k - 1);
      assert PortsFrom(base, k) == PortsFrom(base, k - 1) + {PortAt(base, k - 1)};
      forall i: nat | i < k - 1
        ensures PortAt(base, i) != PortAt(base, k - 1)
      {
        PortsApart(base, i, k - 1);
      }
    }
  }

  /** The services together take twelve different ports from the range, wherever it starts. */
  lemma TwelvePorts(cfg: Config)
    ensures (set svc, p | svc in ALL_SERVICES && p in RangePorts(cfg, svc) :: p) == PortsFrom(cfg.portRangeBase, 12)
    ensures |PortsFrom(cfg.portRangeBase, 12)| == 12
  {
    var base := cfg.portRangeBase;
    PortsFromSize(base, 12);
    forall i: nat | i < 12
      ensures exists svc | svc in ALL_SERVICES :: PortAt(base, i) in RangePorts(cfg, svc)
    {
      var svc := if i < 2 then Registry else if i < 4 then Metadata else if i < 6 then Data
                 else if i < 8 then Api else if i < 10 then Webconsole else S3;
      assert svc in ALL_SERVICES && PortAt(base, i) in RangePorts(cfg, svc);
    }
    forall svc, p | svc in ALL_SERVICES && p in RangePorts(cfg, svc)
      ensures p in PortsFrom(base, 12)
    {
      assert p == PortAt(base, PortOffset(svc)) || p == PortAt(base, PortOffset(svc) + 1);
    }
  }

  /** The two ports of a service, `first` and the next, modulo 0x1_0000, and an extra one unless that is 0. */
  function PortsAndExtra(first: int, extra: int): set<int> {
    {first % 0x1_0000, (first + 1) % 0x1_0000} + if extra % 0x1_0000 == 0 then {} else {extra % 0x1_0000}
  }

  /** What each service's task asks for, flag by flag. */
  lemma PlanByFlags(cfg: Config)
    ensures Plan(cfg, Prober) == cfg.proberResources && Plan(cfg, Client) == cfg.clientResources
    ensures var r, p := cfg.registryResources, cfg.portRangeBase; Plan(cfg, Registry) == r.(ports := r.ports + PortsAndExtra(p, 0))
    ensures var r, p := cfg.metadataResources, cfg.portRangeBase; Plan(cfg, Metadata) == r.(ports := r.ports + PortsAndExtra(p + 2, 0))
    ensures var r, p := cfg.dataResources, cfg.portRangeBase; Plan(cfg, Data) == r.(ports := r.ports + PortsAndExtra(p + 4, 0))
    ensures var r, p := cfg.apiResources, cfg.portRangeBase;
            Plan(cfg, Api) == r.(ports := r.ports + PortsAndExtra(p + 6, cfg.apiPort))
    ensures var r, p := cfg.webconsoleResources, cfg.portRangeBase;
            Plan(cfg, Webconsole) == r.(ports := r.ports + PortsAndExtra(p + 8, cfg.webconsolePort))
    ensures var r, p := cfg.webconsoleResources, cfg.portRangeBase;
            Plan(cfg, S3) == r.(ports := r.ports + PortsAndExtra(p + 10, cfg.s3Port))
  {
  }
}
