/** QuobyteScheduler, written as the callbacks it is made of and proved against the reactions. */
module Schedulers {
  import opened Types
  import opened Text
  import opened TaskIds
  import opened ResourcePlans
  import opened Policy
  import opened Launching
  import opened Reactions
  import opened Slots
  import opened Health
  import opened MemoryString
  import opened StateProxies

  const VERSION_URL := "/v1/version"
  const HEALTH_URL := "/v1/health"

  /** `host` is known afterwards, with nothing known about it if it is new; no node known before has changed. */
  ghost predicate AddsHost(was: map<string, NodeState>, now: map<string, NodeState>, host: string, slaveId: string) {
    && now.Keys == was.Keys + {host}
    && (forall h | h in was :: now[h] == was[h])
    && (host !in was ==>
          var n := now[host];
          && n.hostname == host && n.slaveId == slaveId
          && !n.deviceTypesValid && n.deviceTypes == [] && !n.clientMountPoint && n.lastProbe == 0 && n.lastOffer == 0
          && forall svc: Service | !IsSingleton(svc) :: NodeService(n, svc) == FRESH_SERVICE)
  }

  /**
   * `svc` has an entry afterwards, and no earlier entry has changed. A new entry asks for the system scalars, the
   * system ports, the service's own ports, and the extra port unless that is 0.
   */
  ghost predicate AddsEntry(was: map<Service, Resources>, now: map<Service, Resources>, svc: Service, system: Resources,
                      own: set<int>, extraPort: int)
  {
    && now.Keys == was.Keys + {svc}
    && (forall other | other in was :: now[other] == was[other])
    && (svc !in was ==>
          && now[svc].cpus == system.cpus && now[svc].mem == system.mem && now[svc].disk == system.disk
          && forall p :: p in now[svc].ports <==>
               p in system.ports || (exists q | q in own :: p == Port(q)) || (p == Port(extraPort) && p != 0))
  }

  class QuobyteScheduler {
    const cfg: Config
    const state: SchedulerStateProxy
    var resources: map<Service, Resources>
    var api: ServiceState
    var console: ServiceState
    var s3: ServiceState
    var nodes: map<string, NodeState>

    ghost predicate Valid()
      reads this, state, state.cell
    {
      && state.Valid()
      && forall svc: Service :: svc in resources && resources[svc] == Plan(cfg, svc)
    }

    /** The scheduler's state as a value. */
    ghost function View(): SchedState
      reads this, state
    {
      SchedState(api, s3, console, nodes, state.data)
    }

    constructor (cfg: Config, state: SchedulerStateProxy)
      requires state.Valid()
      ensures Valid() && this.cfg == cfg && this.state == state
      ensures View() == FreshSched(state.data)
    {
      hide Plan, SystemResources;
      this.cfg := cfg;
      this.state := state;
      this.api, this.console, this.s3 := FRESH_SERVICE, FRESH_SERVICE, FRESH_SERVICE;
      this.nodes := map[];
      this.resources := map[];
      new;
      SystemByService(cfg);
      PreparePlan(Registry, cfg.portRangeBase, cfg.registryResources);
      PreparePlan(Metadata, cfg.portRangeBase + 2, cfg.metadataResources);
      PreparePlan(Data, cfg.portRangeBase + 4, cfg.dataResources);
      PreparePlan(Api, cfg.portRangeBase + 6, cfg.apiResources);
      PreparePlan(Webconsole, cfg.portRangeBase + 8, cfg.webconsoleResources);
      PreparePlan(S3, cfg.portRangeBase + 10, cfg.webconsoleResources);
      resources := resources[Prober := cfg.proberResources];
      resources := resources[Client := cfg.clientResources];
      forall svc: Service
        ensures svc in resources && resources[svc] == Plan(cfg, svc)
      {
        OneOf(svc);
      }
    }

    /** The constructor's calls: each service gets two ports starting at `first`. */
    method PreparePlan(svc: Service, first: int, system: Resources)
      requires svc !in resources && svc !in {Prober, Client}
      requires first == cfg.portRangeBase + PortOffset(svc) && system == SystemResources(cfg, svc)
      modifies this`resources
      ensures resources == old(resources)[svc := Plan(cfg, svc)]
    {
      hide Plan, SystemResources, AddsEntry;
      PrepareServiceResources(svc, first, first + 1, system);
      EntryIsPlan(cfg, old(resources), resources, svc);
    }

    /** Adds a service's entry to the table: its scalars, its own ports and its extra port unless that is 0. */
    method PrepareServiceResources(svc: Service, rpcPort: int, httpPort: int, system: Resources)
      modifies this`resources
      ensures AddsEntry(old(resources), resources, svc, system, {rpcPort, httpPort}, ExtraPort(cfg, svc))
    {
      var extraPort := 0;
      if svc == Api {
        extraPort := cfg.apiPort;
      } else if svc == Webconsole {
        extraPort := cfg.webconsolePort;
      } else if svc == S3 {
        extraPort := cfg.s3Port;
      }
      if svc !in resources {
        resources := resources[svc := system.(ports := system.ports + PortSet(rpcPort, httpPort, extraPort))];
      }
    }

    method OnRegistered(driver: SchedulerDriver, frameworkId: string)
      requires Valid()
      modifies state, state.cell, driver
      ensures Valid()
      ensures View() == Step(cfg, old(View()), Registered(frameworkId)).sched
      ensures driver.calls == old(driver.calls) + Step(cfg, old(View()), Registered(frameworkId)).calls
    {
      state.SetFrameworkId(frameworkId);
      driver.Reconcile([]);
    }

    method OnReregistered(driver: SchedulerDriver)
      requires Valid()
      modifies driver
      ensures driver.calls == old(driver.calls) + Step(cfg, View(), Reregistered).calls
    {
      driver.Reconcile([]);
    }

    // ---------------------------------------------------------------- offers

    /** createHost: afterwards the host is known; no node that was known before has changed. */
    method AddHost(hostname: string, slaveId: string)
      modifies this`nodes
      ensures AddsHost(old(nodes), nodes, hostname, slaveId)
    {
      if hostname !in nodes {
        nodes := nodes[hostname := FreshNode(hostname, slaveId)];
      }
    }

    method ReconcileHost(driver: SchedulerDriver, o: Offer)
      modifies this`nodes, driver
      ensures View() == CreateHost(old(View()), o.hostname, o.slaveId)
      ensures driver.calls == old(driver.calls) + [ReconcileTasks(HostTaskIds(o.hostname))]
    {
      hide TaskId;
      ghost var s := View();
      AddHost(o.hostname, o.slaveId);
      HostAdded(s, nodes, o.hostname, o.slaveId);
      var ids := [TaskId(Prober, o.hostname)];
      ids := ids + [TaskId(Registry, o.hostname)];
      ids := ids + [TaskId(Metadata, o.hostname)];
      ids := ids + [TaskId(Data, o.hostname)];
      ids := ids + [TaskId(Webconsole, o.hostname)];
      ids := ids + [TaskId(Api, o.hostname)];
      ids := ids + [TaskId(S3, o.hostname)];
      assert ids == HostTaskIds(o.hostname);
      driver.Reconcile(ids);
    }

    method KillServiceIfRunning(driver: SchedulerDriver, svc: Service, host: string, ss: ServiceState)
      modifies driver
      ensures driver.calls == old(driver.calls) + KillIfRunning(svc, host, ss)
    {
      if ss.state == RUNNING {
        driver.Kill(TaskId(svc, host));
      }
    }

    /** The six kills issued for an offer's host while no version is set. */
    method KillHostServices(driver: SchedulerDriver, host: string)
      requires host in nodes
      modifies driver
      ensures driver.calls == old(driver.calls) + ShutdownCalls(View(), nodes[host], host)
    {
      hide TaskId, KillIfRunning;
      var node := nodes[host];
      ghost var log := driver.calls;
      KillServiceIfRunning(driver, Registry, host, node.registry);
      KillServiceIfRunning(driver, Data, host, node.data);
      ghost var kills := KillIfRunning(Registry, host, node.registry) + KillIfRunning(Data, host, node.data);
      assert driver.calls == log + kills;
      KillServiceIfRunning(driver, Metadata, host, node.metadata);
      kills := kills + KillIfRunning(Metadata, host, node.metadata);
      assert driver.calls == log + kills;
      KillServiceIfRunning(driver, Api, host, api);
      kills := kills + KillIfRunning(Api, host, api);
      assert driver.calls == log + kills;
      KillServiceIfRunning(driver, S3, host, s3);
      kills := kills + KillIfRunning(S3, host, s3);
      assert driver.calls == log + kills;
      KillServiceIfRunning(driver, Webconsole, host, console);
      kills := kills + KillIfRunning(Webconsole, host, console);
      assert driver.calls == log + kills;
    }

    method StartApi(o: Offer, version: string, node: NodeState, remaining0: Resources, tasks0: seq<TaskInfo>)
      returns (remaining: Resources, tasks: seq<TaskInfo>)
      requires Valid()
      modifies this`api
      ensures Stage(api, s3, console, node, remaining, tasks)
           == Attempt(cfg, o, version, Stage(old(api), old(s3), old(console), node, remaining0, tasks0), Api)
    {
      hide TaskId, Plan, DoStartService, Attempt;
      remaining, tasks := remaining0, tasks0;
      AttemptApi(cfg, o, version, Stage(api, s3, console, node, remaining, tasks));
      if Contains(remaining, resources[Api])
         && DoStartService(Api, node, api.state)
         && (cfg.publicSlaveRole == "" || o.reservedForApi)
      {
        remaining := Minus(remaining, resources[Api]);
        tasks := tasks + [MakeServiceTask(Api, version, o)];
        api := api.(state := RUNNING, taskId := TaskId(Api, o.hostname));
      }
    }

    method StartS3(o: Offer, version: string, node: NodeState, remaining0: Resources, tasks0: seq<TaskInfo>)
      returns (remaining: Resources, tasks: seq<TaskInfo>)
      requires Valid()
      modifies this`s3
      ensures Stage(api, s3, console, node, remaining, tasks)
           == Attempt(cfg, o, version, Stage(old(api), old(s3), old(console), node, remaining0, tasks0), S3)
    {
      hide TaskId, Plan, DoStartService, Attempt;
      remaining, tasks := remaining0, tasks0;
      AttemptS3(cfg, o, version, Stage(api, s3, console, node, remaining, tasks));
      if cfg.s3Hostname != ""
         && Contains(remaining, resources[S3])
         && DoStartService(S3, node, s3.state)
         && (cfg.publicSlaveRole == "" || o.reservedForS3)
      {
        remaining := Minus(remaining, resources[S3]);
        tasks := tasks + [MakeServiceTask(S3, version, o)];
        s3 := s3.(state := RUNNING, taskId := TaskId(S3, o.hostname));
      }
    }

    method StartConsole(o: Offer, version: string, node: NodeState, remaining0: Resources, tasks0: seq<TaskInfo>)
      returns (remaining: Resources, tasks: seq<TaskInfo>)
      requires Valid()
      modifies this`console
      ensures Stage(api, s3, console, node, remaining, tasks)
           == Attempt(cfg, o, version, Stage(old(api), old(s3), old(console), node, remaining0, tasks0), Webconsole)
    {
      hide TaskId, Plan, DoStartService, Attempt;
      remaining, tasks := remaining0, tasks0;
      AttemptConsole(cfg, o, version, Stage(api, s3, console, node, remaining, tasks));
      if Contains(remaining, resources[Webconsole])
         && DoStartService(Webconsole, node, console.state)
         && (cfg.publicSlaveRole == "" || o.reservedForConsole)
      {
        remaining := Minus(remaining, resources[Webconsole]);
        tasks := tasks + [MakeServiceTask(Webconsole, version, o)];
        console := console.(state := RUNNING, taskId := TaskId(Webconsole, o.hostname));
      }
    }

    method StartClient(o: Offer, version: string, node0: NodeState, remaining0: Resources, tasks0: seq<TaskInfo>)
      returns (node: NodeState, remaining: Resources, tasks: seq<TaskInfo>)
      requires Valid()
      ensures Stage(api, s3, console, node, remaining, tasks)
           == Attempt(cfg, o, version, Stage(api, s3, console, node0, remaining0, tasks0), Client)
    {
      hide TaskId, Plan, DoStartService, Attempt;
      node, remaining, tasks := node0, remaining0, tasks0;
      AttemptClient(cfg, o, version, Stage(api, s3, console, node, remaining, tasks));
      if Contains(remaining, resources[Client])
         && DoStartService(Client, node, node.client.state)
         && node.clientMountPoint
      {
        remaining := Minus(remaining, resources[Client]);
        tasks := tasks + [ClientTask(o)];
        node := node.(client := node.client.(state := RUNNING, taskId := TaskId(Client, o.hostname)));
      }
    }

    /** Starts what fits and is wanted: the singletons, the client, then the device services in list order. */
    method LaunchServices(o: Offer) returns (tasks: seq<TaskInfo>)
      requires Valid() && o.hostname in nodes && state.data.targetVersion != ""
      modifies this`api, this`s3, this`console, this`nodes
      ensures var g := ServiceStage(cfg, o, state.data.targetVersion, StartStage(old(View()), old(nodes)[o.hostname], o));
              View() == WithStage(old(View()), o.hostname, g) && tasks == g.tasks
    {
      hide TaskId, Plan, DoStartService, Attempt, AttemptAll, Agenda;
      var version := state.data.targetVersion;
      var node, remaining := nodes[o.hostname], o.resources;
      ghost var g0 := StartStage(View(), node, o);
      remaining, tasks := StartApi(o, version, node, remaining, []);
      remaining, tasks := StartS3(o, version, node, remaining, tasks);
      remaining, tasks := StartConsole(o, version, node, remaining, tasks);
      node, remaining, tasks := StartClient(o, version, node, remaining, tasks);
      FirstFour(cfg, o, version, g0);
      node, remaining, tasks := LaunchDevices(o, version, nodes[o.hostname].deviceTypes, node, remaining, tasks, g0);
      nodes := nodes[o.hostname := node];
    }

    /** The loop over the reported devices; `g0` is the stage the offer started with. */
    method LaunchDevices(o: Offer, version: string, devices: seq<DeviceType>, node0: NodeState, remaining0: Resources,
                         tasks0: seq<TaskInfo>, ghost g0: Stage)
      returns (node: NodeState, remaining: Resources, tasks: seq<TaskInfo>)
      requires Valid()
      requires AttemptAll(cfg, o, version, g0, Agenda([])) == Stage(api, s3, console, node0, remaining0, tasks0)
      ensures AttemptAll(cfg, o, version, g0, Agenda(devices)) == Stage(api, s3, console, node, remaining, tasks)
    {
      hide TaskId, Plan, DoStartService, Attempt, Agenda;
      node, remaining, tasks := node0, remaining0, tasks0;
      assert devices[..0] == [];
      for i := 0 to |devices|
        invariant AttemptAll(cfg, o, version, g0, Agenda(devices[..i])) == Stage(api, s3, console, node, remaining, tasks)
      {
        ghost var g := AttemptAll(cfg, o, version, g0, Agenda(devices[..i]));
        NextDevice(cfg, o, version, g0, devices, i);
        AttemptCore(cfg, o, version, g, Registry);
        AttemptCore(cfg, o, version, g, Metadata);
        AttemptCore(cfg, o, version, g, Data);
        match devices[i] {
          case REGISTRY =>
            if DoStartService(Registry, node, node.registry.state) {
              if !Contains(remaining, resources[Registry]) {
                node := node.(registry := node.registry.(lastMessage := "Could not start registry: insufficient resources"));
                continue;
              }
              remaining := Minus(remaining, resources[Registry]);
              tasks := tasks + [MakeServiceTask(Registry, version, o)];
            }
          case METADATA =>
            if DoStartService(Metadata, node, node.metadata.state) {
              if !Contains(remaining, resources[Metadata]) {
                node := node.(metadata := node.metadata.(lastMessage := "Could not start metadata: insufficient resources"));
                continue;
              }
              remaining := Minus(remaining, resources[Metadata]);
              tasks := tasks + [MakeServiceTask(Metadata, version, o)];
            }
          case DATA =>
            if DoStartService(Data, node, node.data.state) {
              if !Contains(remaining, resources[Data]) {
                node := node.(data := node.data.(lastMessage := "Could not start data: insufficient resources"));
                continue;
              }
              remaining := Minus(remaining, resources[Data]);
              tasks := tasks + [MakeServiceTask(Data, version, o)];
            }
          case _ =>
        }
      }
      assert devices[..|devices|] == devices;
    }

    /** makeTask */
    function MakeServiceTask(svc: Service, version: string, o: Offer): TaskInfo
      requires svc in resources
      reads this
    {
      TaskInfo(svc, TaskId(svc, o.hostname), o.slaveId, resources[svc], Some(version))
    }

    /** One iteration of the resourceOffers loop; a return stands for its `continue`. */
    method ConsiderOffer(driver: SchedulerDriver, o: Offer, t: Ticks)
      requires Valid()
      modifies this`api, this`s3, this`console, this`nodes, driver
      ensures Valid()
      ensures View() == HandleOffer(cfg, old(View()), o, t).sched
      ensures driver.calls == old(driver.calls) + HandleOffer(cfg, old(View()), o, t).calls
    {
      hide TaskId, Plan, HostTaskIds, ServeOffer;
      if cfg.restrictHosts != "" && Find(cfg.restrictHosts, o.hostname) == -1 {
        driver.Decline(o.id);
        return;
      }
      if o.hostname !in nodes {
        ReconcileHost(driver, o);
        driver.Decline(o.id);
        return;
      }
      var node := nodes[o.hostname].(lastOffer := t.offerAt);
      nodes := nodes[o.hostname := node];

      if t.keepAliveAt - node.prober.lastSeen > cfg.keepAliveInterval
         && node.prober.state != RUNNING && node.prober.state != STARTING
         && Contains(o.resources, resources[Prober])
      {
        node := node.(prober := node.prober.(state := STARTING, lastUpdate := t.proberAt));
        nodes := nodes[o.hostname := node];
        driver.Launch(o.id, [TaskInfo(Prober, TaskId(Prober, o.hostname), o.slaveId, resources[Prober], None)]);
        return;
      }

      if node.prober.state == RUNNING && t.probeTestAt - node.lastProbe > cfg.probeInterval {
        nodes := nodes[o.hostname := node.(lastProbe := t.probeAt)];
        driver.SendFrameworkMessage(o.slaveId, cfg.clientMountPoint);
        ReconcileHost(driver, o);
        driver.Decline(o.id);
        assert driver.calls == old(driver.calls)
               + [SendProbeRequest(o.slaveId, cfg.clientMountPoint), ReconcileTasks(HostTaskIds(o.hostname)), DeclineOffer(o.id)];
        return;
      }

      ServeFromOriginal(cfg, old(View()), node, o);
      ServeKnownHost(driver, o);
    }

    /** The rest of the iteration once neither a prober launch nor a probe is due. */
    method ServeKnownHost(driver: SchedulerDriver, o: Offer)
      requires Valid() && o.hostname in nodes
      modifies this`api, this`s3, this`console, this`nodes, driver
      ensures Valid()
      ensures View() == ServeOffer(cfg, old(View()), old(nodes)[o.hostname], o).sched
      ensures driver.calls == old(driver.calls) + ServeOffer(cfg, old(View()), old(nodes)[o.hostname], o).calls
    {
      hide TaskId, Plan, ServiceStage, ShutdownCalls;
      if state.data.targetVersion != "" {
        var tasks := LaunchServices(o);
        if tasks != [] {
          driver.Launch(o.id, tasks);
          return;
        }
        driver.Decline(o.id);
      } else {
        ghost var log, kills := driver.calls, ShutdownCalls(View(), nodes[o.hostname], o.hostname);
        KillHostServices(driver, o.hostname);
        driver.Decline(o.id);
        assert driver.calls == log + (kills + [DeclineOffer(o.id)]);
      }
    }

    method ResourceOffers(driver: SchedulerDriver, offers: seq<Offer>, ticks: seq<Ticks>)
      requires Valid() && |ticks| == |offers|
      modifies this`api, this`s3, this`console, this`nodes, driver
      ensures Valid()
      ensures View() == HandleOffers(cfg, old(View()), offers, ticks).sched
      ensures driver.calls == old(driver.calls) + HandleOffers(cfg, old(View()), offers, ticks).calls
    {
      hide HandleOffer;
      ghost var s0, log := View(), driver.calls;
      for i := 0 to |offers|
        invariant Valid()
        invariant View() == HandleOffers(cfg, s0, offers[..i], ticks[..i]).sched
        invariant driver.calls == log + HandleOffers(cfg, s0, offers[..i], ticks[..i]).calls
      {
        ConsiderOffer(driver, offers[i], ticks[i]);
        assert offers[..i + 1][..i] == offers[..i] && ticks[..i + 1][..i] == ticks[..i];
      }
      assert offers[..|offers|] == offers && ticks[..|offers|] == ticks;
    }

    // ---------------------------------------------------------------- updates

    /** Writes the state a (service, host) pair denotes; getService returns a pointer to it. */
    method PutService(svc: Service, host: string, ss: ServiceState)
      requires host in nodes
      modifies this`api, this`s3, this`console, this`nodes
      ensures View() == WithServiceAt(old(View()), svc, host, ss)
    {
      match svc {
        case Api => api := ss;
        case S3 => s3 := ss;
        case Webconsole => console := ss;
        case Prober => nodes := nodes[host := nodes[host].(prober := ss)];
        case Registry => nodes := nodes[host := nodes[host].(registry := ss)];
        case Metadata => nodes := nodes[host := nodes[host].(metadata := ss)];
        case Data => nodes := nodes[host := nodes[host].(data := ss)];
        case Client => nodes := nodes[host := nodes[host].(client := ss)];
      }
    }

    /** The service_should_run flag of statusUpdate. */
    method StillNeeded(svc: Service, node: NodeState, ss: ServiceState, id: string) returns (shouldRun: bool)
      ensures shouldRun <==> ServiceShouldRun(node, svc, ss, id)
    {
      shouldRun := true;
      if IsSingleton(svc) && ss.state == RUNNING && ss.taskId != id {
        shouldRun := false;
      }
      if node.deviceTypesValid {
        if svc == Registry && REGISTRY !in node.deviceTypes {
          shouldRun := false;
        } else if svc == Metadata && METADATA !in node.deviceTypes {
          shouldRun := false;
        } else if svc == Data && DATA !in node.deviceTypes {
          shouldRun := false;
        } else if svc == Client && !node.clientMountPoint {
          shouldRun := false;
        }
      }
    }

    /** The part of statusUpdate that adopts, kills or releases the service the update is about. */
    method ApplyReport(driver: SchedulerDriver, svc: Service, host: string, st: TaskStatus, at: int)
      requires host in nodes
      modifies this`api, this`s3, this`console, this`nodes, driver
      ensures var s, ss := old(View()), ServiceAt(old(View()), svc, host);
              && View() == WithServiceAt(s, svc, host, UpdatedService(s.nodes[host], svc, ss, st, at))
              && driver.calls == old(driver.calls)
                 + if ReportsRunning(st.state) && !ServiceShouldRun(s.nodes[host], svc, ss, st.id) then [KillTask(st.id)] else []
    {
      hide WithServiceAt, ServiceAt, ServiceShouldRun;
      var node := nodes[host];
      var ss := ServiceAt(SchedState(api, s3, console, nodes, state.data), svc, host);
      PutBack(View(), svc, host);
      if st.state == TASK_RUNNING || st.state == TASK_FINISHED {
        var shouldRun := StillNeeded(svc, node, ss, st.id);
        if !shouldRun {
          driver.Kill(st.id);
        } else if st.id == ss.taskId || ss.taskId == "" {
          PutService(svc, host, ServiceState(RUNNING, at, at, st.message, st.id));
        }
      } else if IsTerminal(st.state) && (st.id == ss.taskId || ss.taskId == "") {
        PutService(svc, host, ss.(state := NOT_RUNNING, lastUpdate := at, lastMessage := st.message, taskId := ""));
      }
    }

    method StatusUpdate(driver: SchedulerDriver, st: TaskStatus, at: int)
      requires Valid()
      modifies this`api, this`s3, this`console, this`nodes, driver
      ensures Valid()
      ensures View() == HandleUpdate(old(View()), st, at).sched
      ensures driver.calls == old(driver.calls) + HandleUpdate(old(View()), st, at).calls
    {
      hide Plan, ServiceNamed, WithServiceAt, ServiceAt, ServiceShouldRun, UpdatedService, AddsHost, CreateHost, LastIndexOf;
      var pos := LastIndexOf(st.id, '-');
      if pos == -1 {
        return;
      }
      var host := st.id[pos + 1..];
      ghost var s := View();
      AddHost(host, st.slaveId);
      HostAdded(s, nodes, host, st.slaveId);
      var found := ServiceNamed(st.id[..pos]);
      if found.None? {
        return;
      }
      ApplyReport(driver, found.value, host, st, at);
      if found.value == Prober || IsTerminal(st.state) {
        return;
      }
      if state.data.targetVersion == "" {
        driver.Kill(st.id);
      }
    }

    // ---------------------------------------------------------------- probe replies

    method FrameworkMessage(slaveId: string, response: Option<ProbeResponse>, at: int)
      requires Valid()
      modifies this`nodes
      ensures Valid()
      ensures View() == HandleMessage(old(View()), slaveId, response, at)
    {
      ghost var before := nodes;
      ghost var s0 := View();
      var todo := nodes.Keys;
      while todo != {}
        invariant todo <= nodes.Keys == before.Keys
        invariant forall h | h in before ::
                    nodes[h] == if h !in todo && before[h].slaveId == slaveId && response.Some?
                                then ProbedNode(before[h], response.value, at) else before[h]
        decreases todo
      {
        var host :| host in todo;
        todo := todo - {host};
        if nodes[host].slaveId == slaveId {
          if response.None? {
            assert nodes == before;
            return;
          }
          var node := nodes[host];
          node := node.(deviceTypes := response.value.deviceTypes);
          node := node.(clientMountPoint := response.value.clientMountPoint);
          node := node.(prober := node.prober.(lastSeen := at));
          node := node.(deviceTypesValid := true);
          nodes := nodes[host := node];
        }
      }
      assert nodes == HandleMessage(s0, slaveId, response, at).nodes;
    }

    // ---------------------------------------------------------------- HTTP

    method CountRunningServices() returns (result: nat)
      ensures result == |RunningServices(View())|
    {
      hide RunningCore, RunningOn, RunningServices, RunningSingletons;
      result := 0;
      if api.state == RUNNING {
        result := result + 1;
      }
      if s3.state == RUNNING {
        result := result + 1;
      }
      if console.state == RUNNING {
        result := result + 1;
      }
      ghost var s := View();
      ghost var singles := result;
      SingletonCount(s);
      var todo := nodes.Keys;
      assert nodes.Keys - todo == {};
      NoHosts(s);
      while todo != {}
        invariant todo <= nodes.Keys
        invariant result == singles + |RunningCore(s, nodes.Keys - todo)|
        decreases todo
      {
        var host :| host in todo;
        CoreCount(s, nodes.Keys - todo, host);
        HostCount(s, host);
        assert nodes.Keys - (todo - {host}) == (nodes.Keys - todo) + {host};
        todo := todo - {host};
        var node := nodes[host];
        if node.registry.state == RUNNING {
          result := result + 1;
        }
        if node.metadata.state == RUNNING {
          result := result + 1;
        }
        if node.data.state == RUNNING {
          result := result + 1;
        }
      }
      assert nodes.Keys - todo == nodes.Keys;
      SingletonsApart(s);
    }

    /** The version and health pages of handleHTTP; None for every other page. */
    method HandleHttp(verb: string, path: string, data: string) returns (page: Option<string>)
      requires Valid()
      modifies state, state.cell
      ensures Valid()
      ensures var was := old(View());
              View() == if "/v1/version" <= path && verb == "POST"
                        then was.(persistent := was.persistent.(targetVersion := data)) else was
      ensures page == if "/v1/version" <= path then Some(View().persistent.targetVersion)
                      else if verb == "GET" && path == "/v1/health" then
                        Some("OK. Running services: " + Decimal(|RunningServices(View())|))
                      else None
    {
      FoundFirst(path, VERSION_URL);
      if Find(path, VERSION_URL) == 0 {
        if verb == "POST" {
          state.SetTargetVersion(data);
        }
        return Some(state.data.targetVersion);
      } else if verb == "GET" && path == HEALTH_URL {
        var running := CountRunningServices();
        return Some("OK. Running services: " + Decimal(running));
      } else {
        return None;
      }
    }
  }

  /** A scheduler process that starts on the durable cell of an earlier one is where that one is after a restart. */
  method Failover(before: QuobyteScheduler) returns (after: QuobyteScheduler)
    requires before.Valid()
    ensures fresh(after) && fresh(after.state) && after.state.cell == before.state.cell
    ensures after.Valid() && after.cfg == before.cfg
    ensures after.View() == Step(before.cfg, before.View(), Restart).sched
  {
    var state := new SchedulerStateProxy(before.state.cell);
    after := new QuobyteScheduler(before.cfg, state);
  }

  /** The map createHost leaves is the one the reaction computes. */
  lemma HostAdded(s: SchedState, nodes: map<string, NodeState>, host: string, slaveId: string)
    requires AddsHost(s.nodes, nodes, host, slaveId)
    ensures host in nodes && s.(nodes := nodes) == CreateHost(s, host, slaveId)
  {
    if host in s.nodes {
      assert nodes == s.nodes;
    } else {
      var n := nodes[host];
      assert NodeService(n, Prober) == NodeService(n, Registry) == NodeService(n, Metadata) == FRESH_SERVICE;
      assert NodeService(n, Data) == NodeService(n, Client) == FRESH_SERVICE;
      assert nodes == s.nodes[host := FreshNode(host, slaveId)];
    }
  }

  /** Serving an offer does not depend on the node stored so far, only on the one passed along. */
  lemma ServeFromOriginal(cfg: Config, s: SchedState, n: NodeState, o: Offer)
    ensures ServeOffer(cfg, s.(nodes := s.nodes[o.hostname := n]), n, o) == ServeOffer(cfg, s, n, o)
  {
    hide TaskId, Plan, ServiceStage;
    var s' := s.(nodes := s.nodes[o.hostname := n]);
    var g := ServiceStage(cfg, o, s.persistent.targetVersion, StartStage(s, n, o));
    assert StartStage(s', n, o) == StartStage(s, n, o);
    assert s'.nodes[o.hostname := g.node] == s.nodes[o.hostname := g.node];
    assert s'.nodes[o.hostname := n] == s.nodes[o.hostname := n];
  }

  lemma PutBack(s: SchedState, svc: Service, host: string)
    requires host in s.nodes
    ensures WithServiceAt(s, svc, host, ServiceAt(s, svc, host)) == s
  {
    if !IsSingleton(svc) {
      assert WithNodeService(s.nodes[host], svc, NodeService(s.nodes[host], svc)) == s.nodes[host];
      assert s.nodes[host := s.nodes[host]] == s.nodes;
    }
  }

  lemma OneOf(svc: Service)
    ensures || svc == Prober || svc == Registry || svc == Metadata || svc == Data
            || svc == Api || svc == S3 || svc == Webconsole || svc == Client
  {
  }

  lemma SystemByService(cfg: Config)
    ensures Plan(cfg, Prober) == cfg.proberResources && Plan(cfg, Client) == cfg.clientResources
    ensures SystemResources(cfg, Registry) == cfg.registryResources
    ensures SystemResources(cfg, Metadata) == cfg.metadataResources
    ensures SystemResources(cfg, Data) == cfg.dataResources
    ensures SystemResources(cfg, Api) == cfg.apiResources
    ensures SystemResources(cfg, Webconsole) == SystemResources(cfg, S3) == cfg.webconsoleResources
  {
  }

  /** A new entry with the service's pair of ports is its plan. */
  lemma EntryIsPlan(cfg: Config, was: map<Service, Resources>, now: map<Service, Resources>, svc: Service)
    requires svc !in was && svc !in {Prober, Client}
    requires var first := cfg.portRangeBase + PortOffset(svc);
             AddsEntry(was, now, svc, SystemResources(cfg, svc), {first, first + 1}, ExtraPort(cfg, svc))
    ensures now == was[svc := Plan(cfg, svc)]
  {
    hide SystemResources, ExtraPort, PortOffset, Port;
    var first := cfg.portRangeBase + PortOffset(svc);
    assert first in {first, first + 1} && first + 1 in {first, first + 1};
    forall p
      ensures p in now[svc].ports <==> p in Plan(cfg, svc).ports
    {
      assert (exists q | q in {first, first + 1} :: p == Port(q)) <==> p == Port(first) || p == Port(first + 1);
    }
    assert now[svc] == Plan(cfg, svc);
    assert now.Keys == was.Keys + {svc};
  }

  // ------------------------------------------------------ single attempts, as the code writes them

  lemma AttemptApi(cfg: Config, o: Offer, version: string, g: Stage)
    ensures Attempt(cfg, o, version, g, Api) ==
              if Contains(g.remaining, Plan(cfg, Api)) && DoStartService(Api, g.node, g.api.state)
                 && (cfg.publicSlaveRole == "" || o.reservedForApi)
              then g.(api := g.api.(state := RUNNING, taskId := TaskId(Api, o.hostname)),
                      remaining := Minus(g.remaining, Plan(cfg, Api)),
                      tasks := g.tasks + [MakeTask(cfg, version, Api, o)])
              else g
  {
    hide TaskId, Plan, DoStartService;
  }

  lemma AttemptS3(cfg: Config, o: Offer, version: string, g: Stage)
    ensures Attempt(cfg, o, version, g, S3) ==
              if cfg.s3Hostname != "" && Contains(g.remaining, Plan(cfg, S3)) && DoStartService(S3, g.node, g.s3.state)
                 && (cfg.publicSlaveRole == "" || o.reservedForS3)
              then g.(s3 := g.s3.(state := RUNNING, taskId := TaskId(S3, o.hostname)),
                      remaining := Minus(g.remaining, Plan(cfg, S3)),
                      tasks := g.tasks + [MakeTask(cfg, version, S3, o)])
              else g
  {
    hide TaskId, Plan, DoStartService;
  }

  lemma AttemptConsole(cfg: Config, o: Offer, version: string, g: Stage)
    ensures Attempt(cfg, o, version, g, Webconsole) ==
              if Contains(g.remaining, Plan(cfg, Webconsole)) && DoStartService(Webconsole, g.node, g.console.state)
                 && (cfg.publicSlaveRole == "" || o.reservedForConsole)
              then g.(console := g.console.(state := RUNNING, taskId := TaskId(Webconsole, o.hostname)),
                      remaining := Minus(g.remaining, Plan(cfg, Webconsole)),
                      tasks := g.tasks + [MakeTask(cfg, version, Webconsole, o)])
              else g
  {
    hide TaskId, Plan, DoStartService;
  }

  lemma AttemptClient(cfg: Config, o: Offer, version: string, g: Stage)
    ensures Attempt(cfg, o, version, g, Client) ==
              if Contains(g.remaining, Plan(cfg, Client)) && DoStartService(Client, g.node, g.node.client.state)
                 && g.node.clientMountPoint
              then g.(node := g.node.(client := g.node.client.(state := RUNNING, taskId := TaskId(Client, o.hostname))),
                      remaining := Minus(g.remaining, Plan(cfg, Client)),
                      tasks := g.tasks + [ClientTask(o)])
              else g
  {
    hide TaskId, Plan, DoStartService;
  }

  lemma AttemptCore(cfg: Config, o: Offer, version: string, g: Stage, svc: Service)
    requires IsCore(svc)
    ensures Attempt(cfg, o, version, g, svc) ==
              if !DoStartService(svc, g.node, NodeService(g.node, svc).state) then g
              else if !Contains(g.remaining, Plan(cfg, svc)) then
                g.(node := WithNodeService(g.node, svc, NodeService(g.node, svc).(lastMessage := ShortageMessage(svc))))
              else g.(remaining := Minus(g.remaining, Plan(cfg, svc)), tasks := g.tasks + [MakeTask(cfg, version, svc, o)])
  {
    hide TaskId, Plan, DoStartService, ShortageMessage;
  }

  lemma AttemptNext(cfg: Config, o: Offer, version: string, g: Stage, svcs: seq<Service>, svc: Service)
    ensures AttemptAll(cfg, o, version, g, svcs + [svc]) == Attempt(cfg, o, version, AttemptAll(cfg, o, version, g, svcs), svc)
  {
    hide Attempt;
    assert (svcs + [svc])[..|svcs|] == svcs;
  }

  lemma FirstFour(cfg: Config, o: Offer, version: string, g: Stage)
    ensures var g3 := Attempt(cfg, o, version, Attempt(cfg, o, version, Attempt(cfg, o, version, g, Api), S3), Webconsole);
            AttemptAll(cfg, o, version, g, Agenda([])) == Attempt(cfg, o, version, g3, Client)
  {
    hide Attempt;
    assert Agenda([]) == [Api, S3, Webconsole, Client];
    AttemptNext(cfg, o, version, g, [], Api);
    AttemptNext(cfg, o, version, g, [Api], S3);
    AttemptNext(cfg, o, version, g, [Api, S3], Webconsole);
    AttemptNext(cfg, o, version, g, [Api, S3, Webconsole], Client);
    assert [] + [Api] == [Api] && [Api] + [S3] == [Api, S3];
    assert [Api, S3] + [Webconsole] == [Api, S3, Webconsole];
    assert [Api, S3, Webconsole] + [Client] == [Api, S3, Webconsole, Client];
  }

  /** The agenda grows by the service of the next device, if it has one. */
  lemma NextDevice(cfg: Config, o: Offer, version: string, g: Stage, devices: seq<DeviceType>, i: nat)
    requires i < |devices|
    ensures var h := AttemptAll(cfg, o, version, g, Agenda(devices[..i]));
            AttemptAll(cfg, o, version, g, Agenda(devices[..i + 1])) ==
              match DeviceService(devices[i])
              case None => h
              case Some(svc) => Attempt(cfg, o, version, h, svc)
  {
    hide Attempt;
    var more := devices[..i + 1];
    assert more[..|more| - 1] == devices[..i];
    var a, b := Agenda(devices[..i]), Agenda(more);
    match DeviceService(devices[i])
    case None =>
      assert b == a;
    case Some(svc) =>
      assert b == a + [svc];
      assert b[..|b| - 1] == a;
  }
}
