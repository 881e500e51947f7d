/**
 * The scheduler composed with a small Mesos: live task instances, outstanding offers, and a master that
 * never offers a port that is in use or already on offer.
 */
module Cluster {
  import opened Types
  import opened TaskIds
  import opened ResourcePlans
  import opened Policy
  import opened Launching
  import opened Reactions
  import opened Slots
  import opened History

  /** A live instance; two instances may carry the same task id. There is one agent per host. */
  datatype LiveTask = LiveTask(task: TaskInfo, host: string)

  /**
   * What has happened so far, as far as it decides what the outside can send: the slave ids a probe request went to,
   * the ids of launched tasks and those named in reconciliation requests, the host each agent has made offers for,
   * and the latest clock reading.
   */
  datatype Past = Past(
    asked: set<string>,
    launched: set<string>,
    reconciled: set<string>,
    agents: map<string, string>,
    clock: int)

  const NO_PAST := Past({}, {}, {}, map[], 0)

  datatype World = World(
    sched: SchedState,
    live: map<nat, LiveTask>,
    offers: map<string, Offer>,
    next: nat,
    past: Past)

  /**
   * Callback: the scheduler reacts to an event. For an offer, `accepted` holds the positions of the launched
   * tasks that the master really starts (a launch on a rescinded offer starts none).
   */
  datatype WorldEvent =
    | Callback(event: Event, accepted: set<nat>)
    | OfferMade(offer: Offer)
    | OfferRescinded(offerId: string)
    | TaskEnded(instance: nat)

  predicate PortsFree(w: World, o: Offer) {
    && (forall n | n in w.live && w.live[n].host == o.hostname :: w.live[n].task.resources.ports !! o.resources.ports)
    && (forall id | id in w.offers && w.offers[id].hostname == o.hostname :: w.offers[id].resources.ports !! o.resources.ports)
  }

  /** The environment's obligations. Updates, replies and stale offers are unconstrained here. */
  predicate Enabled(w: World, e: WorldEvent) {
    match e
    case Callback(ev, _) => ev.OfferArrives? && ev.offer.id in w.offers ==> w.offers[ev.offer.id] == ev.offer
    case OfferMade(o) => o.id !in w.offers && PortsFree(w, o)
    case OfferRescinded(_) => true
    case TaskEnded(n) => n in w.live
  }

  predicate Taken(w: World, accepted: set<nat>, n: nat) {
    w.next <= n && n - w.next in accepted
  }

  /** The instances that come to life when the scheduler launches `tasks` on offer o. */
  function NewInstances(w: World, o: Offer, tasks: seq<TaskInfo>, accepted: set<nat>): map<nat, LiveTask> {
    if o.id in w.offers then
      map n: nat | w.next <= n < w.next + |tasks| && Taken(w, accepted, n) :: LiveTask(tasks[n - w.next], o.hostname)
    else map[]
  }

  function Requested(calls: seq<DriverCall>): set<string> {
    set c | c in calls && c.SendProbeRequest? :: c.slaveId
  }

  function Reconciled(calls: seq<DriverCall>): set<string> {
    set c, id | c in calls && c.ReconcileTasks? && id in c.taskIds :: id
  }

  function LaunchedIds(calls: seq<DriverCall>): set<string> {
    set t | t in LaunchedTasks(calls) :: t.id
  }

  function Remember(past: Past, e: Event, calls: seq<DriverCall>): Past {
    Past(past.asked + Requested(calls),
         past.launched + LaunchedIds(calls),
         past.reconciled + Reconciled(calls),
         if e.OfferArrives? then past.agents[e.offer.slaveId := e.offer.hostname] else past.agents,
         if Timed(e) then End(e) else past.clock)
  }

  function Apply(cfg: Config, w: World, e: WorldEvent): World {
    match e
    case Callback(ev, accepted) =>
      var r := Step(cfg, w.sched, ev);
      if ev.OfferArrives? then
        var tasks := LaunchedTasks(r.calls);
        World(r.sched, w.live + NewInstances(w, ev.offer, tasks, accepted), w.offers - {ev.offer.id}, w.next + |tasks|,
              Remember(w.past, ev, r.calls))
      else w.(sched := r.sched, past := Remember(w.past, ev, r.calls))
    case OfferMade(o) => w.(offers := w.offers[o.id := o])
    case OfferRescinded(id) => w.(offers := w.offers - {id})
    case TaskEnded(n) => w.(live := w.live - {n})
  }

  /** The world after a run. */
  function After(cfg: Config, w: World, es: seq<WorldEvent>): World {
    if es == [] then w
    else Apply(cfg, After(cfg, w, es[..|es| - 1]), es[|es| - 1])
  }

  /** Every event of the run is one the environment may produce. */
  predicate IsRun(cfg: Config, w: World, es: seq<WorldEvent>) {
    es == [] || (IsRun(cfg, w, es[..|es| - 1]) && Enabled(After(cfg, w, es[..|es| - 1]), es[|es| - 1]))
  }

  function FreshWorld(p: Persistent): World {
    World(FreshSched(p), map[], map[], 0, NO_PAST)
  }

  // ------------------------------------------------------- what the outside can send

  /**
   * Nothing comes unasked: an agent offers under one host name, the executor answers probe requests only, and a
   * status update is about a task that was launched, or is the answer that a task named in a reconciliation request
   * is gone.
   */
  predicate Warranted(past: Past, e: Event) {
    match e
    case OfferArrives(o, _) => o.slaveId in past.agents ==> past.agents[o.slaveId] == o.hostname
    case UpdateArrives(st, _) => st.id in past.launched || (IsReleaseState(st.state) && st.id in past.reconciled)
    case ProbeReply(slaveId, _, _) => slaveId in past.asked
    case _ => true
  }

  /** The clock never goes back. */
  predicate OnTime(past: Past, e: Event) {
    Timed(e) ==> past.clock <= Begin(e) && (e.OfferArrives? ==> Ordered(e.ticks))
  }

  predicate IsWarrantedRun(cfg: Config, w: World, es: seq<WorldEvent>) {
    es == []
    || (&& IsWarrantedRun(cfg, w, es[..|es| - 1])
        && (es[|es| - 1].Callback? ==> Warranted(After(cfg, w, es[..|es| - 1]).past, es[|es| - 1].event)))
  }

  predicate IsTimedRun(cfg: Config, w: World, es: seq<WorldEvent>) {
    es == []
    || (&& IsTimedRun(cfg, w, es[..|es| - 1])
        && (es[|es| - 1].Callback? ==> OnTime(After(cfg, w, es[..|es| - 1]).past, es[|es| - 1].event)))
  }

  /** A run that keeps every obligation of the environment. */
  predicate IsGenuineRun(cfg: Config, w: World, es: seq<WorldEvent>) {
    IsHonestRun(cfg, w, es) && IsWarrantedRun(cfg, w, es) && IsTimedRun(cfg, w, es)
  }

  // ------------------------------------------------------- bookkeeping of live tasks

  /** Live instances are numbered below `next` and carry the id of their service and host. */
  predicate LiveOk(w: World) {
    forall n | n in w.live :: n < w.next && w.live[n].task.id == TaskId(w.live[n].task.service, w.live[n].host)
  }

  lemma NewInstance(cfg: Config, w: World, ev: Event, accepted: set<nat>, n: nat)
    requires LiveOk(w) && ev.OfferArrives?
    requires n in Apply(cfg, w, Callback(ev, accepted)).live && n !in w.live
    ensures var tasks := LaunchedTasks(Step(cfg, w.sched, ev).calls);
            && ev.offer.id in w.offers && w.next <= n < w.next + |tasks|
            && Apply(cfg, w, Callback(ev, accepted)).live[n] == LiveTask(tasks[n - w.next], ev.offer.hostname)
            && tasks[n - w.next] in tasks
  {
    hide Step, LaunchedTasks, TaskId;
  }

  lemma OldInstance(cfg: Config, w: World, e: WorldEvent, n: nat)
    requires LiveOk(w)
    requires n in Apply(cfg, w, e).live && n in w.live
    ensures Apply(cfg, w, e).live[n] == w.live[n]
  {
    hide Step, LaunchedTasks, TaskId;
  }

  lemma LiveOkStep(cfg: Config, w: World, e: WorldEvent)
    requires LiveOk(w)
    ensures LiveOk(Apply(cfg, w, e))
  {
    hide Step, LaunchedTasks, TaskId;
    var w' := Apply(cfg, w, e);
    forall n | n in w'.live
      ensures n < w'.next && w'.live[n].task.id == TaskId(w'.live[n].task.service, w'.live[n].host)
    {
      if n in w.live {
        OldInstance(cfg, w, e, n);
      } else {
        NewInstance(cfg, w, e.event, e.accepted, n);
        LaunchedStep(cfg, w.sched, e.event, w'.live[n].task);
      }
    }
  }

  lemma LaunchedStep(cfg: Config, s: SchedState, ev: Event, task: TaskInfo)
    requires ev.OfferArrives? && task in LaunchedTasks(Step(cfg, s, ev).calls)
    ensures task.service == Prober ==> task == ProberTask(cfg, ev.offer)
    ensures task.service != Prober ==>
              s.persistent.targetVersion != "" && task == TaskFor(cfg, s.persistent.targetVersion, task.service, ev.offer)
    ensures task.id == TaskId(task.service, ev.offer.hostname)
  {
    hide HandleOffer, TaskId, TaskFor, ProberTask;
    LaunchedTask(cfg, s, ev.offer, ev.ticks, task);
  }

  // ------------------------------------------------- per-host exclusion by ports

  /** A service whose tasks hold ports of the plan. */
  predicate HoldsPorts(svc: Service) {
    svc != Prober && svc != Client
  }

  ghost predicate PortInv(cfg: Config, w: World) {
    && LiveOk(w)
    && (forall n, m | n in w.live && m in w.live && n != m && w.live[n].host == w.live[m].host ::
          w.live[n].task.resources.ports !! w.live[m].task.resources.ports)
    && (forall n, id | n in w.live && id in w.offers && w.live[n].host == w.offers[id].hostname ::
          w.live[n].task.resources.ports !! w.offers[id].resources.ports)
    && (forall a, b | a in w.offers && b in w.offers && a != b && w.offers[a].hostname == w.offers[b].hostname ::
          w.offers[a].resources.ports !! w.offers[b].resources.ports)
    && (forall id | id in w.offers :: w.offers[id].id == id)
    && (forall n | n in w.live && HoldsPorts(w.live[n].task.service) ::
          w.live[n].task.resources == Plan(cfg, w.live[n].task.service))
  }

  lemma NothingCarried()
    ensures Carried([]) == NO_RESOURCES && DisjointPorts([])
  {
  }

  lemma OneCarried(t: TaskInfo)
    ensures Carried([t]) == t.resources && DisjointPorts([t])
  {
    assert [t][..0] == [];
  }

  /** The ports of tasks launched on one offer come from that offer, without overlap. */
  lemma LaunchPorts(cfg: Config, s: SchedState, o: Offer, t: Ticks)
    ensures var tasks := LaunchedTasks(HandleOffer(cfg, s, o, t).calls);
            && Contains(o.resources, Carried(tasks)) && DisjointPorts(tasks)
  {
    hide TaskId, Plan, ServiceStage, HostTaskIds, ShutdownCalls, HostRestricted, Agenda, Carried, DisjointPorts;
    OfferAnswered(cfg, s, o, t);
    NothingCarried();
    if !HostRestricted(cfg, o.hostname) && o.hostname in s.nodes {
      var n := s.nodes[o.hostname].(lastOffer := t.offerAt);
      LaunchWithinOffer(cfg, o, s.persistent.targetVersion, StartStage(s, n, o));
      OneCarried(ProberTask(cfg, o));
    }
  }

  lemma NewInstancePorts(cfg: Config, w: World, ev: Event, accepted: set<nat>, n: nat)
    requires LiveOk(w) && ev.OfferArrives?
    requires n in Apply(cfg, w, Callback(ev, accepted)).live && n !in w.live
    ensures var x := Apply(cfg, w, Callback(ev, accepted)).live[n];
            && x.host == ev.offer.hostname && ev.offer.id in w.offers
            && x.task.resources.ports <= ev.offer.resources.ports
            && (HoldsPorts(x.task.service) ==> x.task.resources == Plan(cfg, x.task.service))
  {
    hide LaunchedTasks, TaskId, Apply, Plan, HandleOffer;
    NewInstance(cfg, w, ev, accepted, n);
    var tasks := LaunchedTasks(Step(cfg, w.sched, ev).calls);
    LaunchPorts(cfg, w.sched, ev.offer, ev.ticks);
    CarriedPorts(tasks, n - w.next);
    LaunchedStep(cfg, w.sched, ev, tasks[n - w.next]);
  }

  lemma NewInstancesDisjoint(cfg: Config, w: World, ev: Event, accepted: set<nat>, n: nat, m: nat)
    requires LiveOk(w) && ev.OfferArrives? && n != m
    requires var live := Apply(cfg, w, Callback(ev, accepted)).live; n in live && m in live
    requires n !in w.live && m !in w.live
    ensures var live := Apply(cfg, w, Callback(ev, accepted)).live;
            live[n].task.resources.ports !! live[m].task.resources.ports
  {
    hide LaunchedTasks, TaskId, Apply, HandleOffer;
    NewInstance(cfg, w, ev, accepted, n);
    NewInstance(cfg, w, ev, accepted, m);
    LaunchPorts(cfg, w.sched, ev.offer, ev.ticks);
  }

  lemma LivePortsStep(cfg: Config, w: World, e: WorldEvent, n: nat, m: nat)
    requires PortInv(cfg, w) && Enabled(w, e)
    requires var w' := Apply(cfg, w, e); n in w'.live && m in w'.live && n != m && w'.live[n].host == w'.live[m].host
    requires n in w.live || m !in w.live
    ensures var w' := Apply(cfg, w, e); w'.live[n].task.resources.ports !! w'.live[m].task.resources.ports
  {
    hide Step, LaunchedTasks, TaskId, Plan;
    if n in w.live {
      OldInstance(cfg, w, e, n);
      if m in w.live {
        OldInstance(cfg, w, e, m);
      } else {
        NewInstancePorts(cfg, w, e.event, e.accepted, m);
        assert w.offers[e.event.offer.id] == e.event.offer;
      }
    } else {
      NewInstancesDisjoint(cfg, w, e.event, e.accepted, n, m);
    }
  }

  lemma OfferPortsStep(cfg: Config, w: World, e: WorldEvent, n: nat, id: string)
    requires PortInv(cfg, w) && Enabled(w, e)
    requires var w' := Apply(cfg, w, e); n in w'.live && id in w'.offers && w'.live[n].host == w'.offers[id].hostname
    ensures var w' := Apply(cfg, w, e); w'.live[n].task.resources.ports !! w'.offers[id].resources.ports
  {
    hide Step, LaunchedTasks, TaskId, Plan;
    if n in w.live {
      OldInstance(cfg, w, e, n);
    } else {
      NewInstancePorts(cfg, w, e.event, e.accepted, n);
      assert w.offers[e.event.offer.id] == e.event.offer;
    }
  }

  lemma PlanPortsStep(cfg: Config, w: World, e: WorldEvent, n: nat)
    requires PortInv(cfg, w)
    requires n in Apply(cfg, w, e).live && HoldsPorts(Apply(cfg, w, e).live[n].task.service)
    ensures var x := Apply(cfg, w, e).live[n]; x.task.resources == Plan(cfg, x.task.service)
  {
    hide Step, LaunchedTasks, TaskId, Plan;
    if n in w.live {
      OldInstance(cfg, w, e, n);
    } else {
      NewInstancePorts(cfg, w, e.event, e.accepted, n);
    }
  }

  lemma OffersStep(cfg: Config, w: World, e: WorldEvent, a: string, b: string)
    requires PortInv(cfg, w) && Enabled(w, e)
    requires a in Apply(cfg, w, e).offers && b in Apply(cfg, w, e).offers
    ensures var offers := Apply(cfg, w, e).offers;
            && offers[a].id == a
            && (a != b && offers[a].hostname == offers[b].hostname ==> offers[a].resources.ports !! offers[b].resources.ports)
  {
    hide Step, LaunchedTasks, TaskId, Plan;
  }

  lemma PortInvStep(cfg: Config, w: World, e: WorldEvent)
    requires PortInv(cfg, w) && Enabled(w, e)
    ensures PortInv(cfg, Apply(cfg, w, e))
  {
    hide Apply, LiveOk, Plan, HoldsPorts;
    var w' := Apply(cfg, w, e);
    LiveOkStep(cfg, w, e);
    forall n, m | n in w'.live && m in w'.live && n != m && w'.live[n].host == w'.live[m].host
      ensures w'.live[n].task.resources.ports !! w'.live[m].task.resources.ports
    {
      if n in w.live || m !in w.live {
        LivePortsStep(cfg, w, e, n, m);
      } else {
        LivePortsStep(cfg, w, e, m, n);
      }
    }
    forall n, id | n in w'.live && id in w'.offers && w'.live[n].host == w'.offers[id].hostname
      ensures w'.live[n].task.resources.ports !! w'.offers[id].resources.ports
    {
      OfferPortsStep(cfg, w, e, n, id);
    }
    forall a, b | a in w'.offers && b in w'.offers
      ensures w'.offers[a].id == a
      ensures a != b && w'.offers[a].hostname == w'.offers[b].hostname ==>
                w'.offers[a].resources.ports !! w'.offers[b].resources.ports
    {
      OffersStep(cfg, w, e, a, b);
    }
    forall n | n in w'.live && HoldsPorts(w'.live[n].task.service)
      ensures w'.live[n].task.resources == Plan(cfg, w'.live[n].task.service)
    {
      PlanPortsStep(cfg, w, e, n);
    }
  }

  /**
   * Per-host exclusion by port accounting: in every reachable state two distinct live tasks of one service on
   * one host are impossible, for every service that holds ports; whatever updates, replies, restarts and
   * version changes the run contains.
   */
  lemma PerHostExclusion(cfg: Config, p: Persistent, es: seq<WorldEvent>, n: nat, m: nat)
    requires IsRun(cfg, FreshWorld(p), es)
    requires var live := After(cfg, FreshWorld(p), es).live;
             && n in live && m in live && live[n].host == live[m].host
             && live[n].task.service == live[m].task.service && HoldsPorts(live[n].task.service)
    ensures n == m
  {
    hide Plan, Enabled, Apply, IdInv;
    ReachableInvariants(cfg, p, es);
    var live := After(cfg, FreshWorld(p), es).live;
    PlanHasPorts(cfg, live[n].task.service);
  }

  // ------------------------------------------------- singletons cluster-wide

  function LiveOf(w: World, svc: Service): set<nat> {
    set n | n in w.live && w.live[n].task.service == svc
  }

  function RecordedId(s: SchedState, svc: Service): string
    requires IsSingleton(svc)
  {
    SlotOf(s, svc, "").taskId
  }

  /** Live tasks of a singleton whose id is not the recorded one. */
  function Excess(w: World, svc: Service): set<nat>
    requires IsSingleton(svc)
  {
    set n | n in LiveOf(w, svc) && w.live[n].task.id != RecordedId(w.sched, svc)
  }

  /** A release update for an id is delivered only when no task with that id is live. */
  predicate Honest(w: World, e: WorldEvent) {
    e.Callback? && e.event.UpdateArrives? && IsReleaseState(e.event.status.state)
    ==> forall n | n in w.live :: w.live[n].task.id != e.event.status.id
  }

  predicate IsHonestRun(cfg: Config, w: World, es: seq<WorldEvent>) {
    es == []
    || (&& IsHonestRun(cfg, w, es[..|es| - 1])
        && Enabled(After(cfg, w, es[..|es| - 1]), es[|es| - 1])
        && Honest(After(cfg, w, es[..|es| - 1]), es[|es| - 1]))
  }

  predicate IsRestart(e: WorldEvent) {
    e.Callback? && e.event.Restart?
  }

  /** How one step changes the recorded id of a singleton. */
  lemma RecordedStep(cfg: Config, w: World, e: WorldEvent, svc: Service)
    requires IsSingleton(svc) && IdInv(w.sched) && !IsRestart(e)
    ensures var a, b := RecordedId(w.sched, svc), RecordedId(Apply(cfg, w, e).sched, svc);
            || b == a
            || a == ""
            || (b == "" && e.Callback? && e.event.UpdateArrives? && IsReleaseState(e.event.status.state) && e.event.status.id == a)
    ensures e.Callback? && e.event.OfferArrives? && Starts(Step(cfg, w.sched, e.event).calls, svc) ==>
              && RecordedId(w.sched, svc) == ""
              && RecordedId(Apply(cfg, w, e).sched, svc) == TaskId(svc, e.event.offer.hostname)
  {
    hide TaskId, Starts, Route, HandleOffer, HandleUpdate, HandleMessage, SlotOf;
    if e.Callback? {
      StepSlot(cfg, w.sched, e.event, svc, "");
      assert SlotOk(svc, "", SlotOf(w.sched, svc, ""));
    }
  }

  lemma NewSingleton(cfg: Config, w: World, e: WorldEvent, svc: Service, n: nat)
    requires LiveOk(w) && IsSingleton(svc) && IdInv(w.sched)
    requires n in LiveOf(Apply(cfg, w, e), svc) && n !in w.live
    ensures e.Callback? && e.event.OfferArrives? && Starts(Step(cfg, w.sched, e.event).calls, svc)
    ensures RecordedId(w.sched, svc) == ""
    ensures Apply(cfg, w, e).live[n].task.id == RecordedId(Apply(cfg, w, e).sched, svc)
  {
    hide Step, LaunchedTasks, TaskId, IdInv, SlotOf;
    NewInstance(cfg, w, e.event, e.accepted, n);
    LaunchedStep(cfg, w.sched, e.event, Apply(cfg, w, e).live[n].task);
    RecordedStep(cfg, w, e, svc);
  }

  /** Self-stabilisation: no step but a restart lets a task become excess, whatever was live before. */
  lemma ExcessNeverGrows(cfg: Config, w: World, e: WorldEvent, svc: Service)
    requires LiveOk(w) && IsSingleton(svc) && IdInv(w.sched)
    requires Enabled(w, e) && Honest(w, e) && !IsRestart(e)
    ensures Excess(Apply(cfg, w, e), svc) <= Excess(w, svc)
    ensures RecordedId(w.sched, svc) == "" ==> Excess(w, svc) == LiveOf(w, svc)
  {
    hide Apply, TaskId, IdInv, Step, LaunchedTasks, SlotOf;
    var w' := Apply(cfg, w, e);
    RecordedStep(cfg, w, e, svc);
    forall n | n in Excess(w', svc)
      ensures n in Excess(w, svc)
    {
      if n in w.live {
        OldInstance(cfg, w, e, n);
        LiveIdNonEmpty(w, n);
      } else {
        NewSingleton(cfg, w, e, svc, n);
      }
    }
    forall n | n in LiveOf(w, svc)
      ensures w.live[n].task.id != ""
    {
      LiveIdNonEmpty(w, n);
    }
  }

  lemma LiveIdNonEmpty(w: World, n: nat)
    requires LiveOk(w) && n in w.live
    ensures w.live[n].task.id != ""
  {
    hide TaskId;
    BuiltIdOk(w.live[n].task.service, w.live[n].host);
  }

  lemma RestartExcess(cfg: Config, w: World, e: WorldEvent, svc: Service)
    requires IsSingleton(svc) && IsRestart(e)
    ensures Excess(Apply(cfg, w, e), svc) <= LiveOf(w, svc) && LiveOf(Apply(cfg, w, e), svc) == LiveOf(w, svc)
  {
  }

  lemma DistinctLaunches(cfg: Config, s: SchedState, ev: Event, i: nat, j: nat)
    requires ev.OfferArrives?
    requires var tasks := LaunchedTasks(Step(cfg, s, ev).calls); i < j < |tasks|
    ensures var tasks := LaunchedTasks(Step(cfg, s, ev).calls); tasks[i].service != tasks[j].service
  {
    hide TaskId, Plan, ServiceStage, HandleOffer, LaunchedTasks, HostRestricted, Agenda, LaunchEffect, Wanted;
    var o, t := ev.offer, ev.ticks;
    LaunchedByOffer(cfg, s, o, t);
    var g := OfferStage(s, o, t);
    AttemptAllInv(cfg, o, s.persistent.targetVersion, g, Agenda(g.node.deviceTypes));
    StageIsAttempts(cfg, o, s.persistent.targetVersion, g);
  }

  /** One step adds at most one live task of a singleton, and only while none is recorded. */
  lemma LiveSingletonStep(cfg: Config, w: World, e: WorldEvent, svc: Service)
    requires LiveOk(w) && IsSingleton(svc) && IdInv(w.sched)
    ensures var was, now := LiveOf(w, svc), LiveOf(Apply(cfg, w, e), svc);
            && |now| <= |was| + 1
            && (RecordedId(w.sched, svc) != "" ==> |now| <= |was|)
  {
    hide Apply, TaskId, IdInv, Step, LaunchedTasks, SlotOf;
    var w' := Apply(cfg, w, e);
    var before, after := LiveOf(w, svc), LiveOf(w', svc);
    forall n | n in after && n in w.live
      ensures n in before
    {
      OldInstance(cfg, w, e, n);
    }
    if born :| born in after && born !in before {
      NewSingleton(cfg, w, e, svc, born);
      forall n | n in after && n !in before
        ensures n == born
      {
        NewSingleton(cfg, w, e, svc, n);
        NewInstance(cfg, w, e.event, e.accepted, n);
        NewInstance(cfg, w, e.event, e.accepted, born);
        if n < born {
          DistinctLaunches(cfg, w.sched, e.event, n - w.next, born - w.next);
        } else if born < n {
          DistinctLaunches(cfg, w.sched, e.event, born - w.next, n - w.next);
        }
      }
      SubsetSize(after, before + {born});
    } else {
      SubsetSize(after, before);
    }
  }

  lemma SubsetSize<T>(a: set<T>, b: set<T>)
    requires a <= b
    ensures |a| <= |b|
  {
    assert b == a + (b - a);
  }

  function Restarts(es: seq<WorldEvent>): nat {
    if es == [] then 0
    else Restarts(es[..|es| - 1]) + if IsRestart(es[|es| - 1]) then 1 else 0
  }

  lemma IdInvApply(cfg: Config, w: World, e: WorldEvent)
    requires IdInv(w.sched)
    ensures IdInv(Apply(cfg, w, e).sched)
  {
    hide IdInv, Step, LaunchedTasks;
    if e.Callback? {
      IdInvStep(cfg, w.sched, e.event);
    }
  }

  /**
   * Singleton uniqueness over whole runs: from an empty cluster, after r scheduler restarts at most r live
   * tasks of a singleton are excess and at most r + 1 are live. Without a restart at most one is live.
   */
  lemma {:induction false} SingletonBound(cfg: Config, p: Persistent, es: seq<WorldEvent>, svc: Service)
    requires IsSingleton(svc) && IsHonestRun(cfg, FreshWorld(p), es)
    ensures var w := After(cfg, FreshWorld(p), es);
            && LiveOk(w) && IdInv(w.sched)
            && |Excess(w, svc)| <= Restarts(es)
            && |LiveOf(w, svc)| <= Restarts(es) + 1
  {
    hide Apply, TaskId, IdInv, LiveOk, Enabled, Honest, IsRestart;
    if es == [] {
      FreshBound(p, svc);
    } else {
      var front, e := es[..|es| - 1], es[|es| - 1];
      var w := After(cfg, FreshWorld(p), front);
      SingletonBound(cfg, p, front, svc);
      SingletonBoundStep(cfg, w, e, svc, Restarts(front));
    }
  }

  lemma FreshBound(p: Persistent, svc: Service)
    requires IsSingleton(svc)
    ensures var w := FreshWorld(p); LiveOk(w) && IdInv(w.sched) && Excess(w, svc) == {} && LiveOf(w, svc) == {}
  {
  }

  lemma SingletonBoundStep(cfg: Config, w: World, e: WorldEvent, svc: Service, r: nat)
    requires IsSingleton(svc) && LiveOk(w) && IdInv(w.sched) && Enabled(w, e) && Honest(w, e)
    requires |Excess(w, svc)| <= r && |LiveOf(w, svc)| <= r + 1
    ensures var w', r' := Apply(cfg, w, e), r + if IsRestart(e) then 1 else 0;
            && LiveOk(w') && IdInv(w'.sched)
            && |Excess(w', svc)| <= r' && |LiveOf(w', svc)| <= r' + 1
  {
    hide Apply, TaskId, IdInv, LiveOk, Enabled, Honest, IsRestart, Excess, LiveOf;
    LiveOkStep(cfg, w, e);
    IdInvApply(cfg, w, e);
    if IsRestart(e) {
      RestartExcess(cfg, w, e, svc);
      SubsetSize(Excess(Apply(cfg, w, e), svc), LiveOf(w, svc));
    } else {
      ExcessNeverGrows(cfg, w, e, svc);
      LiveSingletonStep(cfg, w, e, svc);
      SubsetSize(Excess(Apply(cfg, w, e), svc), Excess(w, svc));
    }
  }

  // ------------------------------------------------- healing reports

  /** A RUNNING report of an excess singleton task that is routed adopts it or kills it. */
  lemma ExcessReported(w: World, n: nat, svc: Service, st: TaskStatus, at: int)
    requires LiveOk(w) && IdInv(w.sched) && IsSingleton(svc) && n in Excess(w, svc)
    requires st.id == w.live[n].task.id && ReportsRunning(st.state) && '-' !in w.live[n].host
    ensures var r := HandleUpdate(w.sched, st, at);
            || SlotOf(r.sched, svc, "") == Slot(RUNNING, st.id)
            || KillTask(st.id) in r.calls
  {
    RunningReport(w.sched, svc, w.live[n].host, st, at);
  }

  lemma RunningReport(s: SchedState, svc: Service, host: string, st: TaskStatus, at: int)
    requires IdInv(s) && IsSingleton(svc) && '-' !in host
    requires st.id == TaskId(svc, host) && ReportsRunning(st.state)
    ensures var r, a := HandleUpdate(s, st, at), SlotOf(s, svc, "");
            && SlotOf(r.sched, svc, "") == (if a.taskId == "" then Slot(RUNNING, st.id) else a)
            && (a.taskId != "" && a.taskId != st.id ==> KillTask(st.id) in r.calls)
  {
    hide TaskId, ServiceNamed, IdInv;
    RoutingRoundTrip(svc, host);
    SlotFact(s, svc);
    var s1 := CreateHost(s, host, st.slaveId);
    CreateHostSlot(s, host, st.slaveId, svc, "");
    var n, ss := s1.nodes[host], ServiceAt(s1, svc, host);
    ServiceWriteSlot(s1, svc, host, UpdatedService(n, svc, ss, st, at), svc, "");
  }

  lemma SlotFact(s: SchedState, svc: Service)
    requires IdInv(s)
    ensures SlotOk(svc, "", SlotOf(s, svc, ""))
  {
  }

  /** Port accounting alone leaves at most one live task under the recorded id, whatever updates arrived. */
  lemma RecordedUnique(cfg: Config, w: World, svc: Service, n: nat, m: nat)
    requires PortInv(cfg, w) && IsSingleton(svc)
    requires n in LiveOf(w, svc) - Excess(w, svc) && m in LiveOf(w, svc) - Excess(w, svc)
    ensures n == m
  {
    hide Plan, TaskId, SlotOf;
    TaskIdInjective(svc, w.live[n].host, svc, w.live[m].host);
    PlanHasPorts(cfg, svc);
  }

  // ------------------------------------------------- kills along a run

  /** The k-th event of a run makes the scheduler kill the id. */
  predicate KillsAt(cfg: Config, w: World, es: seq<WorldEvent>, k: nat, id: string)
    requires k < |es|
  {
    es[k].Callback? && KillTask(id) in Step(cfg, After(cfg, w, es[..k]).sched, es[k].event).calls
  }

  /** Whatever was live under an id when the scheduler killed it has ended by the end of the run. */
  ghost predicate KillsCarriedOut(cfg: Config, w: World, es: seq<WorldEvent>) {
    forall k: nat, n: nat | k < |es| && n in After(cfg, w, es[..k]).live ::
      KillsAt(cfg, w, es, k, After(cfg, w, es[..k]).live[n].task.id) ==> n !in After(cfg, w, es).live
  }

  lemma {:induction false} LiveOkRun(cfg: Config, w: World, es: seq<WorldEvent>)
    requires LiveOk(w)
    ensures LiveOk(After(cfg, w, es)) && w.next <= After(cfg, w, es).next
  {
    hide LiveOk, Step, TaskId, LaunchedTasks;
    if es != [] {
      LiveOkRun(cfg, w, es[..|es| - 1]);
      LiveOkStep(cfg, After(cfg, w, es[..|es| - 1]), es[|es| - 1]);
    }
  }

  lemma NumberedFromNext(cfg: Config, w: World, e: WorldEvent, n: nat)
    requires n < w.next && n in Apply(cfg, w, e).live
    ensures n in w.live
  {
    hide Step, LaunchedTasks;
  }

  /** Instances are never reused: one that is live at the end of a run has been live, unchanged, all along. */
  lemma {:induction false} LiveAllAlong(cfg: Config, w: World, es: seq<WorldEvent>, k: nat, n: nat)
    requires LiveOk(w) && n < w.next && k <= |es| && n in After(cfg, w, es).live
    ensures var mid := After(cfg, w, es[..k]); n in mid.live && mid.live[n] == After(cfg, w, es).live[n]
  {
    hide Apply, TaskId, LiveOk;
    if k == |es| {
      assert es[..k] == es;
    } else {
      var front, e := es[..|es| - 1], es[|es| - 1];
      var last := After(cfg, w, front);
      LiveOkRun(cfg, w, front);
      NumberedFromNext(cfg, last, e, n);
      OldInstance(cfg, last, e, n);
      LiveAllAlong(cfg, w, front, k, n);
      assert front[..k] == es[..k];
    }
  }

  /** Over an honest run without a restart, excess tasks at the end were excess at every point. */
  lemma {:induction false} ExcessShrinks(cfg: Config, w: World, es: seq<WorldEvent>, k: nat, svc: Service)
    requires LiveOk(w) && IsSingleton(svc) && IdInv(w.sched) && k <= |es|
    requires IsHonestRun(cfg, w, es) && Restarts(es) == 0
    ensures IdInv(After(cfg, w, es).sched) && Excess(After(cfg, w, es), svc) <= Excess(After(cfg, w, es[..k]), svc)
  {
    hide Apply, LiveOk, IdInv, Enabled, Honest, IsRestart, Excess;
    if es == [] {
      assert es[..k] == es;
    } else {
      var front, e := es[..|es| - 1], es[|es| - 1];
      var last := After(cfg, w, front);
      LiveOkRun(cfg, w, front);
      ExcessShrinks(cfg, w, front, if k < |es| then k else 0, svc);
      IdInvApply(cfg, last, e);
      if k < |es| {
        assert front[..k] == es[..k];
        ExcessNeverGrows(cfg, last, e, svc);
      } else {
        assert es[..k] == es;
      }
    }
  }

  /** The k-th event reports the id as RUNNING or FINISHED. */
  predicate ReportedRunning(es: seq<WorldEvent>, k: nat, id: string)
    requires k < |es|
  {
    es[k].Callback? && es[k].event.UpdateArrives? && es[k].event.status.id == id && ReportsRunning(es[k].event.status.state)
  }

  /** After such a report of an excess task the task is no longer excess, or the report makes the scheduler kill it. */
  lemma ReportedExcess(cfg: Config, w: World, es: seq<WorldEvent>, k: nat, n: nat, svc: Service)
    requires LiveOk(w) && IdInv(w.sched) && IsSingleton(svc) && IsHonestRun(cfg, w, es) && Restarts(es) == 0
    requires k < |es| && n < w.next && n in Excess(After(cfg, w, es), svc)
    requires '-' !in After(cfg, w, es).live[n].host && ReportedRunning(es, k, After(cfg, w, es).live[n].task.id)
    ensures n in After(cfg, w, es[..k]).live
    ensures After(cfg, w, es[..k]).live[n] == After(cfg, w, es).live[n]
    ensures KillsAt(cfg, w, es, k, After(cfg, w, es).live[n].task.id)
  {
    hide TaskId, LiveOk, IdInv, IsHonestRun, Restarts, HandleUpdate, SlotOf;
    var before, st := After(cfg, w, es[..k]), es[k].event.status;
    LiveAllAlong(cfg, w, es, k, n);
    LiveAllAlong(cfg, w, es, k + 1, n);
    ExcessShrinks(cfg, w, es, k, svc);
    ExcessShrinks(cfg, w, es, k + 1, svc);
    PrefixHonest(cfg, w, es, k);
    ExcessShrinks(cfg, w, es[..k], 0, svc);
    LiveOkRun(cfg, w, es[..k]);
    ExcessReported(before, n, svc, st, es[k].event.at);
    assert es[..k + 1][..k] == es[..k];
    assert After(cfg, w, es[..k + 1]) == Apply(cfg, before, es[k]);
  }

  lemma {:induction false} PrefixHonest(cfg: Config, w: World, es: seq<WorldEvent>, k: nat)
    requires k <= |es| && IsHonestRun(cfg, w, es) && Restarts(es) == 0
    ensures IsHonestRun(cfg, w, es[..k]) && Restarts(es[..k]) == 0
  {
    hide After, Enabled, Honest, IsRestart;
    if k == |es| {
      assert es[..k] == es;
    } else {
      PrefixHonest(cfg, w, es[..|es| - 1], k);
      assert es[..|es| - 1][..k] == es[..k];
    }
  }

  lemma {:induction false} PortInvRun(cfg: Config, w: World, es: seq<WorldEvent>)
    requires PortInv(cfg, w) && IsHonestRun(cfg, w, es)
    ensures PortInv(cfg, After(cfg, w, es))
  {
    hide PortInv, Apply, Enabled, Honest;
    if es != [] {
      PortInvRun(cfg, w, es[..|es| - 1]);
      PortInvStep(cfg, After(cfg, w, es[..|es| - 1]), es[|es| - 1]);
    }
  }

  /**
   * Self-healing: over any honest run without a restart, whatever else happens in it, if every task that was excess
   * at the start (on dash-free hosts) is reported RUNNING at some point and what the scheduler kills ends, no task
   * is excess at the end and at most one is live.
   */
  lemma HealingRun(cfg: Config, w: World, es: seq<WorldEvent>, svc: Service)
    requires PortInv(cfg, w) && IdInv(w.sched) && IsSingleton(svc)
    requires IsHonestRun(cfg, w, es) && Restarts(es) == 0 && KillsCarriedOut(cfg, w, es)
    requires forall n | n in Excess(w, svc) ::
               '-' !in w.live[n].host && exists k | 0 <= k < |es| :: ReportedRunning(es, k, w.live[n].task.id)
    ensures Excess(After(cfg, w, es), svc) == {}
    ensures forall n, m | n in LiveOf(After(cfg, w, es), svc) && m in LiveOf(After(cfg, w, es), svc) :: n == m
  {
    hide Plan, TaskId, IdInv, Apply, IsHonestRun, Restarts, KillsAt, SlotOf;
    var w' := After(cfg, w, es);
    assert es[..0] == [];
    if n :| n in Excess(w', svc) {
      ExcessShrinks(cfg, w, es, 0, svc);
      assert n in Excess(w, svc);
      LiveAllAlong(cfg, w, es, 0, n);
      var k :| 0 <= k < |es| && ReportedRunning(es, k, w.live[n].task.id);
      ReportedExcess(cfg, w, es, k, n, svc);
      assert false;
    }
    PortInvRun(cfg, w, es);
    forall n, m | n in LiveOf(w', svc) && m in LiveOf(w', svc)
      ensures n == m
    {
      RecordedUnique(cfg, w', svc, n, m);
    }
  }

  /** The invariants healing relies on hold in every reachable world, whatever updates were delivered. */
  lemma {:induction false} ReachableInvariants(cfg: Config, p: Persistent, es: seq<WorldEvent>)
    requires IsRun(cfg, FreshWorld(p), es)
    ensures var w := After(cfg, FreshWorld(p), es); PortInv(cfg, w) && IdInv(w.sched)
  {
    hide IdInv, Apply, Enabled, PortInv;
    if es == [] {
      FreshInvariants(cfg, p);
    } else {
      var front, e := es[..|es| - 1], es[|es| - 1];
      ReachableInvariants(cfg, p, front);
      IdInvApply(cfg, After(cfg, FreshWorld(p), front), e);
      PortInvStep(cfg, After(cfg, FreshWorld(p), front), e);
    }
  }

  lemma FreshInvariants(cfg: Config, p: Persistent)
    ensures PortInv(cfg, FreshWorld(p)) && IdInv(FreshWorld(p).sched)
  {
    IdInvInitially(p);
  }

  // ------------------------------------------------- shutdown

  function NonProbers(w: World): set<nat> {
    set n | n in w.live && w.live[n].task.service != Prober
  }

  /** The event does not set a non-empty target version. */
  predicate KeepsShutdown(e: WorldEvent) {
    e.Callback? && e.event.VersionPost? ==> e.event.version == ""
  }

  predicate EndsNonProber(w: World, e: WorldEvent) {
    e.TaskEnded? && e.instance in NonProbers(w)
  }

  /** With no version set nothing but probers is launched; the live non-probers only lose the ones that end. */
  lemma ShutdownStep(cfg: Config, w: World, e: WorldEvent)
    requires LiveOk(w) && w.sched.persistent.targetVersion == "" && KeepsShutdown(e)
    ensures Apply(cfg, w, e).sched.persistent.targetVersion == ""
    ensures NonProbers(Apply(cfg, w, e)) == NonProbers(w) - if EndsNonProber(w, e) then {e.instance} else {}
  {
    hide TaskId, Step, LaunchedTasks;
    var w' := Apply(cfg, w, e);
    if e.Callback? {
      StepPersistent(cfg, w.sched, e.event);
    }
    forall n | n in NonProbers(w')
      ensures n in NonProbers(w)
    {
      if n in w.live {
        OldInstance(cfg, w, e, n);
      } else {
        NewInstance(cfg, w, e.event, e.accepted, n);
        LaunchedStep(cfg, w.sched, e.event, w'.live[n].task);
      }
    }
    forall n | n in NonProbers(w) && n in w'.live
      ensures n in NonProbers(w')
    {
      OldInstance(cfg, w, e, n);
    }
  }

  function EndedNonProbers(cfg: Config, w: World, es: seq<WorldEvent>): nat {
    if es == [] then 0
    else EndedNonProbers(cfg, w, es[..|es| - 1])
         + if EndsNonProber(After(cfg, w, es[..|es| - 1]), es[|es| - 1]) then 1 else 0
  }

  /**
   * Shutdown progress: from any state with no version set, and until one is set, the live non-prober tasks are
   * among those live at the start, and each one that ends lowers their number by exactly one.
   */
  lemma {:induction false} ShutdownProgress(cfg: Config, w: World, es: seq<WorldEvent>)
    requires LiveOk(w) && w.sched.persistent.targetVersion == ""
    requires forall e | e in es :: KeepsShutdown(e)
    ensures var w' := After(cfg, w, es);
            && LiveOk(w') && w'.sched.persistent.targetVersion == ""
            && NonProbers(w') <= NonProbers(w)
            && |NonProbers(w')| + EndedNonProbers(cfg, w, es) == |NonProbers(w)|
  {
    hide Apply, LiveOk, KeepsShutdown, NonProbers;
    if es != [] {
      var front, e := es[..|es| - 1], es[|es| - 1];
      assert es == front + [e];
      var mid := After(cfg, w, front);
      ShutdownProgress(cfg, w, front);
      ShutdownStep(cfg, mid, e);
      LiveOkStep(cfg, mid, e);
    }
  }

  /** While no version is set, every non-terminal report of a routable non-prober task gets it killed. */
  lemma ShutdownKills(s: SchedState, st: TaskStatus, at: int)
    requires s.persistent.targetVersion == "" && !IsTerminal(st.state)
    requires Route(st.id).Some? && Route(st.id).value.service != Prober
    ensures KillTask(st.id) in HandleUpdate(s, st, at).calls
  {
    hide TaskId, ServiceNamed;
  }

  /** The k-th event is a report of the id in a non-terminal state. */
  predicate ReportedAlive(es: seq<WorldEvent>, k: nat, id: string)
    requires k < |es|
  {
    es[k].Callback? && es[k].event.UpdateArrives? && es[k].event.status.id == id && !IsTerminal(es[k].event.status.state)
  }

  lemma ReportedAliveKilled(cfg: Config, w: World, es: seq<WorldEvent>, k: nat, n: nat)
    requires LiveOk(w) && w.sched.persistent.targetVersion == "" && forall e | e in es :: KeepsShutdown(e)
    requires k < |es| && n < w.next && n in NonProbers(After(cfg, w, es))
    requires '-' !in After(cfg, w, es).live[n].host && ReportedAlive(es, k, After(cfg, w, es).live[n].task.id)
    ensures n in After(cfg, w, es[..k]).live
    ensures After(cfg, w, es[..k]).live[n] == After(cfg, w, es).live[n]
    ensures KillsAt(cfg, w, es, k, After(cfg, w, es).live[n].task.id)
  {
    hide TaskId, Apply, HandleUpdate, KeepsShutdown, Route;
    var task := After(cfg, w, es).live[n];
    LiveAllAlong(cfg, w, es, k, n);
    LiveOkRun(cfg, w, es);
    assert forall e | e in es[..k] :: e in es;
    ShutdownProgress(cfg, w, es[..k]);
    RoutingRoundTrip(task.task.service, task.host);
    ShutdownKills(After(cfg, w, es[..k]).sched, es[k].event.status, es[k].event.at);
  }

  /**
   * Shutdown completes: over any run in which no version is set, whatever else happens in it, if every non-prober
   * task live at the start (on dash-free hosts) is reported in a non-terminal state at some point and what the
   * scheduler kills ends, only probers are left.
   */
  lemma ShutdownRun(cfg: Config, w: World, es: seq<WorldEvent>)
    requires LiveOk(w) && w.sched.persistent.targetVersion == "" && forall e | e in es :: KeepsShutdown(e)
    requires KillsCarriedOut(cfg, w, es)
    requires forall n | n in NonProbers(w) ::
               '-' !in w.live[n].host && exists k | 0 <= k < |es| :: ReportedAlive(es, k, w.live[n].task.id)
    ensures NonProbers(After(cfg, w, es)) == {}
  {
    hide TaskId, Apply, KillsAt, KeepsShutdown;
    assert es[..0] == [];
    ShutdownProgress(cfg, w, es);
    if n :| n in NonProbers(After(cfg, w, es)) {
      assert n in NonProbers(w);
      LiveAllAlong(cfg, w, es, 0, n);
      var k :| 0 <= k < |es| && ReportedAlive(es, k, w.live[n].task.id);
      ReportedAliveKilled(cfg, w, es, k, n);
      assert false;
    }
  }

  /** Kills are never issued for anything but the reported task, and only for one of the two reasons. */
  lemma UpdateKillsOnlyReported(s: SchedState, st: TaskStatus, at: int, c: DriverCall)
    requires c in HandleUpdate(s, st, at).calls
    ensures c == KillTask(st.id)
    ensures s.persistent.targetVersion != "" ==> ReportsRunning(st.state)
  {
    hide TaskId, ServiceNamed;
  }

  /** Every task built by makeTask carries exactly the version current at its launch. */
  lemma LaunchedVersion(cfg: Config, s: SchedState, ev: Event, task: TaskInfo)
    requires ev.OfferArrives? && task in LaunchedTasks(Step(cfg, s, ev).calls)
    ensures task.service != Prober ==> s.persistent.targetVersion != ""
    ensures task.version == if task.service == Prober || task.service == Client then None else Some(s.persistent.targetVersion)
  {
    hide Step, LaunchedTasks, TaskId;
    LaunchedStep(cfg, s, ev, task);
  }
}
