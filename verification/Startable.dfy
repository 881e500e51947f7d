/**
 * Which services can be live on which hosts: a run that keeps every obligation of the environment and gets them
 * there, or a proof that none does.
 */
module Startability {
  import opened Types
  import opened TaskIds
  import opened ResourcePlans
  import opened Policy
  import opened Launching
  import opened Reactions
  import opened GreedyLaunch
  import opened Slots
  import opened History
  import opened Cluster
  import opened WarrantedRuns

  // ------------------------------------------------------------ joining runs

  /** `es` is a genuine run from w to `end` without a restart. */
  predicate Leads(cfg: Config, w: World, es: seq<WorldEvent>, end: World) {
    IsGenuineRun(cfg, w, es) && Restarts(es) == 0 && After(cfg, w, es) == end
  }

  /** The environment may produce the event in w. */
  predicate May(w: World, e: WorldEvent) {
    Enabled(w, e) && Honest(w, e) && (e.Callback? ==> Warranted(w.past, e.event) && OnTime(w.past, e.event))
  }

  lemma {:induction false} AfterConcat(cfg: Config, w: World, a: seq<WorldEvent>, b: seq<WorldEvent>)
    ensures After(cfg, w, a + b) == After(cfg, After(cfg, w, a), b)
    ensures Restarts(a + b) == Restarts(a) + Restarts(b)
  {
    hide Apply, IsRestart;
    if b == [] {
      assert a + b == a;
    } else {
      var front := b[..|b| - 1];
      assert (a + b)[..|a + b| - 1] == a + front;
      AfterConcat(cfg, w, a, front);
    }
  }

  lemma {:induction false} GenuineConcat(cfg: Config, w: World, a: seq<WorldEvent>, b: seq<WorldEvent>)
    requires IsGenuineRun(cfg, w, a) && IsGenuineRun(cfg, After(cfg, w, a), b)
    ensures IsGenuineRun(cfg, w, a + b)
  {
    hide Apply, Enabled, Honest, Warranted, OnTime;
    if b == [] {
      assert a + b == a;
    } else {
      var front := b[..|b| - 1];
      assert (a + b)[..|a + b| - 1] == a + front;
      AfterConcat(cfg, w, a, front);
      GenuineConcat(cfg, w, a, front);
    }
  }

  lemma LeadsChain(cfg: Config, w: World, a: seq<WorldEvent>, mid: World, b: seq<WorldEvent>, end: World)
    requires Leads(cfg, w, a, mid) && Leads(cfg, mid, b, end)
    ensures Leads(cfg, w, a + b, end)
  {
    hide IsGenuineRun, Restarts, After;
    AfterConcat(cfg, w, a, b);
    GenuineConcat(cfg, w, a, b);
  }

  lemma LeadsOne(cfg: Config, w: World, e: WorldEvent)
    requires May(w, e) && !IsRestart(e)
    ensures Leads(cfg, w, [e], Apply(cfg, w, e))
  {
    hide Apply, Enabled, Honest, Warranted, OnTime, IsRestart;
    assert [e][..|[e]| - 1] == [];
    NoEvents(cfg, w);
    assert After(cfg, w, [e][..|[e]| - 1]) == w;
  }

  lemma NoEvents(cfg: Config, w: World)
    ensures IsGenuineRun(cfg, w, []) && After(cfg, w, []) == w && Restarts([]) == 0
  {
  }

  // ------------------------------------------------------------ the pieces of a run

  /** Nothing is live and nothing is on offer on the host. */
  predicate IdleHost(w: World, host: string) {
    && (forall n | n in w.live :: w.live[n].host != host)
    && (forall id | id in w.offers :: w.offers[id].hostname != host)
  }

  /** All clock readings for one offer at the same time. */
  function At(t: int): Ticks {
    Ticks(t, t, t, t, t)
  }

  function OfferOf(id: string, host: string, slaveId: string, r: Resources): Offer {
    Offer(id, host, slaveId, r, true, true, true)
  }

  /** An offer is made and answered, and the first task launched on it started. */
  function Round(o: Offer, t: int): seq<WorldEvent> {
    [OfferMade(o), Callback(OfferArrives(o, At(t)), {0})]
  }

  /** The world after such a round. */
  function RoundEnd(cfg: Config, w: World, o: Offer, t: int): World {
    var r := HandleOffer(cfg, w.sched, o, At(t));
    var tasks := LaunchedTasks(r.calls);
    World(r.sched, w.live + if tasks == [] then map[] else map[w.next := LiveTask(tasks[0], o.hostname)],
          w.offers, w.next + |tasks|, Remember(w.past, OfferArrives(o, At(t)), r.calls))
  }

  lemma RoundApply(cfg: Config, w: World, o: Offer, t: int)
    requires o.id !in w.offers
    ensures Apply(cfg, Apply(cfg, w, OfferMade(o)), Callback(OfferArrives(o, At(t)), {0})) == RoundEnd(cfg, w, o, t)
  {
    hide HandleOffer, LaunchedTasks, Remember;
    OfferStep(cfg, w.sched, OfferArrives(o, At(t)));
    var w1 := Apply(cfg, w, OfferMade(o));
    var tasks := LaunchedTasks(HandleOffer(cfg, w.sched, o, At(t)).calls);
    assert w1.offers - {o.id} == w.offers;
    assert NewInstances(w1, o, tasks, {0}) == if tasks == [] then map[] else map[w.next := LiveTask(tasks[0], o.hostname)];
  }

  lemma RoundLeads(cfg: Config, w: World, o: Offer, t: int)
    requires o.id !in w.offers && IdleHost(w, o.hostname) && w.past.clock <= t
    requires o.slaveId in w.past.agents ==> w.past.agents[o.slaveId] == o.hostname
    ensures Leads(cfg, w, Round(o, t), RoundEnd(cfg, w, o, t))
  {
    hide Leads, HandleOffer, LaunchedTasks, Remember;
    var e, f := OfferMade(o), Callback(OfferArrives(o, At(t)), {0});
    RoundApply(cfg, w, o, t);
    LeadsOne(cfg, w, e);
    LeadsOne(cfg, Apply(cfg, w, e), f);
    LeadsChain(cfg, w, [e], Apply(cfg, w, e), [f], RoundEnd(cfg, w, o, t));
    assert [e] + [f] == Round(o, t);
  }

  /** Something reaches the scheduler that is not an offer. */
  function Told(e: Event): seq<WorldEvent> {
    [Callback(e, {})]
  }

  lemma ToldLeads(cfg: Config, w: World, e: Event)
    requires !e.OfferArrives? && !e.Restart? && Warranted(w.past, e) && OnTime(w.past, e)
    requires Honest(w, Callback(e, {}))
    ensures var r := Step(cfg, w.sched, e); Leads(cfg, w, Told(e), w.(sched := r.sched, past := Remember(w.past, e, r.calls)))
  {
    hide Leads, Step, Remember;
    LeadsOne(cfg, w, Callback(e, {}));
  }

  /** A report about an idle host's id is honest. */
  lemma IdleHonest(w: World, svc: Service, host: string, e: Event)
    requires LiveOk(w) && IdleHost(w, host) && e.UpdateArrives? && e.status.id == TaskId(svc, host)
    ensures Honest(w, Callback(e, {}))
  {
    hide TaskId;
    forall n | n in w.live
      ensures w.live[n].task.id != e.status.id
    {
      if w.live[n].task.id == e.status.id {
        TaskIdInjective(w.live[n].task.service, w.live[n].host, svc, host);
      }
    }
  }

  // ------------------------------------------------------------ reactions of a scheduler that knows one host

  function Lone(p: Persistent, host: string, n: NodeState): SchedState {
    FreshSched(p).(nodes := map[host := n])
  }

  function ProberLaunched(n: NodeState, t: int): NodeState {
    n.(lastOffer := t, prober := n.prober.(state := STARTING, lastUpdate := t))
  }

  function ProberReported(n: NodeState, id: string, t: int): NodeState {
    n.(prober := ServiceState(RUNNING, t, t, "", id))
  }

  function ProberLost(n: NodeState, t: int): NodeState {
    n.(prober := n.prober.(state := NOT_RUNNING, lastUpdate := t, lastMessage := "", taskId := ""))
  }

  lemma IntroduceReaction(cfg: Config, p: Persistent, o: Offer, t: int)
    requires !HostRestricted(cfg, o.hostname)
    ensures HandleOffer(cfg, FreshSched(p), o, At(t))
         == Reaction(Lone(p, o.hostname, FreshNode(o.hostname, o.slaveId)),
                     [ReconcileTasks(HostTaskIds(o.hostname)), DeclineOffer(o.id)])
  {
    hide HostTaskIds, HostRestricted, HandleKnownHost;
  }

  lemma ProberReaction(cfg: Config, p: Persistent, n: NodeState, o: Offer, t: int)
    requires !HostRestricted(cfg, o.hostname) && o.resources == Plan(cfg, Prober)
    requires n.prober.state != RUNNING && n.prober.state != STARTING && t - n.prober.lastSeen > cfg.keepAliveInterval
    ensures HandleOffer(cfg, Lone(p, o.hostname, n), o, At(t))
         == Reaction(Lone(p, o.hostname, ProberLaunched(n, t)), [LaunchTasks(o.id, [ProberTask(cfg, o)])])
  {
    hide HostTaskIds, HostRestricted, ServeOffer, Plan, TaskId, ProberTask;
  }

  lemma AskReaction(cfg: Config, p: Persistent, n: NodeState, o: Offer, t: int)
    requires !HostRestricted(cfg, o.hostname)
    requires n.prober.state == RUNNING && t - n.lastProbe > cfg.probeInterval
    ensures HandleOffer(cfg, Lone(p, o.hostname, n), o, At(t))
         == Reaction(Lone(p, o.hostname, n.(lastOffer := t, lastProbe := t)),
                     [SendProbeRequest(o.slaveId, cfg.clientMountPoint), ReconcileTasks(HostTaskIds(o.hostname)), DeclineOffer(o.id)])
  {
    hide HostTaskIds, HostRestricted, ServeOffer, Plan, TaskId, ProberTask;
  }

  /** The prober task is reported FINISHED as soon as its executor gets it, which counts as running. */
  function FinishedReport(host: string, slaveId: string, t: int): Event {
    UpdateArrives(TaskStatus(TaskId(Prober, host), TASK_FINISHED, "", slaveId), t)
  }

  /** The master's answer to a reconciliation request about a task it does not know. */
  function LossReport(svc: Service, host: string, t: int): Event {
    UpdateArrives(TaskStatus(TaskId(svc, host), TASK_LOST, "", ""), t)
  }

  lemma FinishedReaction(cfg: Config, p: Persistent, n: NodeState, host: string, slaveId: string, t: int)
    requires '-' !in host && n.prober.taskId == ""
    ensures Step(cfg, Lone(p, host, n), FinishedReport(host, slaveId, t)).sched
         == Lone(p, host, ProberReported(n, TaskId(Prober, host), t))
  {
    hide TaskId, HandleUpdate;
    RoutedUpdate(Lone(p, host, n), FinishedReport(host, slaveId, t).status, t, Prober, host);
  }

  lemma ProberLostReaction(cfg: Config, p: Persistent, n: NodeState, host: string, t: int)
    requires '-' !in host && n.prober.taskId == TaskId(Prober, host)
    ensures Step(cfg, Lone(p, host, n), LossReport(Prober, host, t)).sched == Lone(p, host, ProberLost(n, t))
  {
    hide TaskId, HandleUpdate;
    RoutedUpdate(Lone(p, host, n), LossReport(Prober, host, t).status, t, Prober, host);
  }

  /** A reply that lets svc be started on a host where nothing runs. */
  function ReplyFor(svc: Service): ProbeResponse {
    ProbeResponse(if IsCore(svc) then [CoreDevice(svc)] else [], false)
  }

  lemma ReplyReaction(cfg: Config, p: Persistent, n: NodeState, host: string, r: ProbeResponse, t: int)
    ensures Step(cfg, Lone(p, host, n), ProbeReply(n.slaveId, Some(r), t)).sched == Lone(p, host, ProbedNode(n, r, t))
  {
  }

  // ------------------------------------------------------------ a service that is ready to start

  /** Only svc waits to be started on `host`, whose prober has just been launched. */
  predicate Ready(s: SchedState, svc: Service, host: string) {
    && s.persistent.targetVersion != ""
    && host in s.nodes
    && var n := s.nodes[host];
       && n.deviceTypesValid && n.deviceTypes == ReplyFor(svc).deviceTypes && n.prober.state == STARTING
       && forall x: Service :: x != Prober ==> SlotOf(s, x, host) == Slot(if x == svc then NOT_RUNNING else UNKNOWN, "")
  }

  lemma TotalOfOne(cfg: Config, svc: Service)
    requires svc != Prober
    ensures Total(cfg, {svc}) == Plan(cfg, svc)
  {
    hide Plan, TotalOver, Plus;
    EmptyTotal(cfg, STARTABLE);
    TotalAdd(cfg, {}, svc);
    assert {} + {svc} == {svc};
    NothingPlus(Plan(cfg, svc));
  }

  lemma NothingPlus(r: Resources)
    ensures Plus(NO_RESOURCES, r) == r
  {
    hide *;
    assert {} + r.ports == r.ports;
    NoResourcesFields();
    UnfoldPlus(NO_RESOURCES, r);
  }

  lemma ReadyWanted(cfg: Config, s: SchedState, svc: Service, o: Offer)
    requires Ready(s, svc, o.hostname) && o.reservedForApi && o.reservedForS3 && o.reservedForConsole
    requires svc != Prober && svc != Client && (svc == S3 ==> cfg.s3Hostname != "")
    ensures WantedFor(cfg, s, o) == {svc}
  {
    hide Plan;
    var n := s.nodes[o.hostname];
    var g := StartStage(s, n, o);
    forall x: Service
      ensures x in Agenda(n.deviceTypes) && Wanted(cfg, o, g, x) <==> x == svc
    {
      ListedDevices(n.deviceTypes, x);
      StageIsSlot(s, o, x);
      NoneRuns(s, svc, o.hostname);
    }
  }

  lemma StageIsSlot(s: SchedState, o: Offer, svc: Service)
    requires o.hostname in s.nodes
    ensures StageService(StartStage(s, s.nodes[o.hostname], o), svc).state == SlotOf(s, svc, o.hostname).state
  {
  }

  lemma NoneRuns(s: SchedState, svc: Service, host: string)
    requires Ready(s, svc, host)
    ensures CoreServicesRunning(s.nodes[host]) == 0
  {
    assert forall x: Service :: x != Prober ==> SlotOf(s, x, host).state != RUNNING;
    assert SlotOf(s, Registry, host).state == s.nodes[host].registry.state;
    assert SlotOf(s, Metadata, host).state == s.nodes[host].metadata.state;
    assert SlotOf(s, Data, host).state == s.nodes[host].data.state;
  }

  /** An offer of just the plan of the one waiting service starts that service and nothing else. */
  lemma ReadyLaunches(cfg: Config, s: SchedState, svc: Service, o: Offer, t: Ticks)
    requires Ready(s, svc, o.hostname) && o.reservedForApi && o.reservedForS3 && o.reservedForConsole
    requires svc != Prober && svc != Client && (svc == S3 ==> cfg.s3Hostname != "")
    requires !HostRestricted(cfg, o.hostname) && o.resources == Plan(cfg, svc)
    ensures LaunchedSet(LaunchedTasks(HandleOffer(cfg, s, o, t).calls)) == {svc}
  {
    hide Plan, WantedFor, HandleOffer, Total, HostRestricted, LaunchedSet;
    ReadyWanted(cfg, s, svc, o);
    TotalOfOne(cfg, svc);
    OfferStartsAllWanted(cfg, s, o, t);
  }

  // ------------------------------------------------------------ the run that starts a service

  /** A restarted scheduler, an idle host its agent can make offers for, and offer ids not in use. */
  predicate CanBegin(cfg: Config, w: World, host: string, slaveId: string, id: string) {
    && LiveOk(w) && w.sched == FreshSched(w.sched.persistent)
    && !HostRestricted(cfg, host) && IdleHost(w, host)
    && (slaveId in w.past.agents ==> w.past.agents[slaveId] == host)
    && forall other | other in w.offers :: !(id <= other)
  }

  /** A time after everything so far, far enough for the prober and a probe to be due. */
  function StartTime(cfg: Config, clock: int): (t: int)
    ensures t > 0 && t > clock && t > cfg.keepAliveInterval && t > cfg.probeInterval
  {
    1 + Max(Max(0, clock), Max(cfg.keepAliveInterval, cfg.probeInterval))
  }

  function Max(a: int, b: int): int {
    if a < b then b else a
  }

  /** m is w after some rounds for the host: the same tasks are live and the same offers out, `born` instances later. */
  predicate Along(w: World, m: World, host: string, slaveId: string, t: int, born: nat) {
    && m.live == w.live && m.offers == w.offers && m.next == w.next + born && m.past.clock <= t
    && m.past.agents == w.past.agents[slaveId := host]
    && (forall svc: Service | svc != Client :: TaskId(svc, host) in m.past.reconciled)
  }

  /** The host is offered for the first time: it becomes known and its tasks are asked about. */
  lemma StageKnown(cfg: Config, w: World, host: string, slaveId: string, id: string, t: int)
    requires CanBegin(cfg, w, host, slaveId, id) && w.past.clock <= t
    ensures var o, p := OfferOf(id + "1", host, slaveId, NO_RESOURCES), w.sched.persistent;
            var m := RoundEnd(cfg, w, o, t);
            && Leads(cfg, w, Round(o, t), m) && Along(w, m, host, slaveId, t, 0)
            && m.sched == Lone(p, host, FreshNode(host, slaveId))
  {
    hide HandleOffer, Leads, HostRestricted, LaunchedTasks, HostTaskIds, TaskId;
    var o, p := OfferOf(id + "1", host, slaveId, NO_RESOURCES), w.sched.persistent;
    FreshId(w, id, "1");
    RoundLeads(cfg, w, o, t);
    IntroduceReaction(cfg, p, o, t);
    QuietCalls(o.id, host);
    var calls := HandleOffer(cfg, w.sched, o, At(t)).calls;
    forall svc: Service | svc != Client
      ensures TaskId(svc, host) in Reconciled(calls)
    {
      IdsAsked(calls, svc, host);
    }
    assert w.live + map[] == w.live;
  }

  lemma FreshId(w: World, id: string, suffix: string)
    requires forall other | other in w.offers :: !(id <= other)
    ensures id + suffix !in w.offers
  {
    assert id <= id + suffix;
  }

  lemma QuietCalls(id: string, host: string)
    ensures LaunchedTasks([ReconcileTasks(HostTaskIds(host)), DeclineOffer(id)]) == []
  {
    hide HostTaskIds;
    OneCall(ReconcileTasks(HostTaskIds(host)));
    OneCall(DeclineOffer(id));
    LaunchedTasksConcat([ReconcileTasks(HostTaskIds(host))], [DeclineOffer(id)]);
    assert [ReconcileTasks(HostTaskIds(host)), DeclineOffer(id)] == [ReconcileTasks(HostTaskIds(host))] + [DeclineOffer(id)];
  }

  lemma IdsAsked(calls: seq<DriverCall>, svc: Service, host: string)
    requires ReconcileTasks(HostTaskIds(host)) in calls && svc != Client
    ensures TaskId(svc, host) in Reconciled(calls)
  {
    hide TaskId;
    assert TaskId(svc, host) in HostTaskIds(host);
  }

  /** A round that launches the prober; the task ends as soon as it runs. */
  function ProberRound(cfg: Config, host: string, slaveId: string, id: string, t: int, next: nat): seq<WorldEvent> {
    Round(OfferOf(id, host, slaveId, Plan(cfg, Prober)), t) + [TaskEnded(next)]
  }

  /** The world after it. */
  function ProberEnd(cfg: Config, m: World, host: string, slaveId: string, id: string, t: int): World {
    var e := RoundEnd(cfg, m, OfferOf(id, host, slaveId, Plan(cfg, Prober)), t);
    e.(live := e.live - {m.next})
  }

  /** The round itself: the prober is live in between. */
  lemma ProberStarted(cfg: Config, m: World, p: Persistent, n: NodeState, host: string, slaveId: string, id: string, t: int)
    requires IdleHost(m, host) && id !in m.offers && m.past.clock <= t && m.next !in m.live
    requires slaveId in m.past.agents ==> m.past.agents[slaveId] == host
    requires !HostRestricted(cfg, host) && m.sched == Lone(p, host, n)
    requires n.prober.state != RUNNING && n.prober.state != STARTING && t - n.prober.lastSeen > cfg.keepAliveInterval
    ensures var o := OfferOf(id, host, slaveId, Plan(cfg, Prober));
            var e := RoundEnd(cfg, m, o, t);
            && Leads(cfg, m, Round(o, t), e)
            && e.sched == Lone(p, host, ProberLaunched(n, t)) && e.next == m.next + 1 && e.offers == m.offers
            && e.live == m.live[m.next := LiveTask(ProberTask(cfg, o), host)]
            && TaskId(Prober, host) in e.past.launched
  {
    hide HandleOffer, Leads, HostRestricted, LaunchedTasks, TaskId, Plan, ProberTask, Requested, Reconciled;
    var o := OfferOf(id, host, slaveId, Plan(cfg, Prober));
    RoundLeads(cfg, m, o, t);
    ProberReaction(cfg, p, n, o, t);
    OneCall(LaunchTasks(id, [ProberTask(cfg, o)]));
    ProberTaskFields(cfg, o);
    assert ProberTask(cfg, o) in LaunchedTasks(HandleOffer(cfg, m.sched, o, At(t)).calls);
    assert m.live + map[m.next := LiveTask(ProberTask(cfg, o), host)] == m.live[m.next := LiveTask(ProberTask(cfg, o), host)];
  }

  lemma RoundPast(cfg: Config, m: World, o: Offer, t: int)
    ensures var e := RoundEnd(cfg, m, o, t);
            && m.past.reconciled <= e.past.reconciled && e.past.clock == t
            && e.past.agents == m.past.agents[o.slaveId := o.hostname]
  {
    hide HandleOffer, LaunchedTasks;
  }

  lemma AlongIdle(w: World, m: World, host: string, slaveId: string, t: int, born: nat)
    requires LiveOk(w) && IdleHost(w, host) && Along(w, m, host, slaveId, t, born)
    ensures IdleHost(m, host) && m.next !in m.live && LiveOk(m)
  {
    hide TaskId;
  }

  lemma StageProber(cfg: Config, w: World, m: World, p: Persistent, n: NodeState, host: string, slaveId: string, id: string,
                    t0: int, t: int, born: nat)
    requires LiveOk(w) && IdleHost(w, host) && id !in w.offers && Along(w, m, host, slaveId, t0, born) && t0 <= t
    requires !HostRestricted(cfg, host) && m.sched == Lone(p, host, n)
    requires n.prober.state != RUNNING && n.prober.state != STARTING && t - n.prober.lastSeen > cfg.keepAliveInterval
    ensures var m' := ProberEnd(cfg, m, host, slaveId, id, t);
            && Leads(cfg, m, ProberRound(cfg, host, slaveId, id, t, m.next), m')
            && Along(w, m', host, slaveId, t, born + 1) && m'.sched == Lone(p, host, ProberLaunched(n, t))
            && TaskId(Prober, host) in m'.past.launched
  {
    hide Leads, HostRestricted, TaskId, Plan, ProberTask, RoundEnd, IdleHost, LiveOk;
    var o := OfferOf(id, host, slaveId, Plan(cfg, Prober));
    var e := RoundEnd(cfg, m, o, t);
    AlongIdle(w, m, host, slaveId, t0, born);
    ProberStarted(cfg, m, p, n, host, slaveId, id, t);
    RoundPast(cfg, m, o, t);
    LeadsOne(cfg, e, TaskEnded(m.next));
    LeadsChain(cfg, m, Round(o, t), e, [TaskEnded(m.next)], ProberEnd(cfg, m, host, slaveId, id, t));
    assert e.live - {m.next} == w.live;
  }

  lemma ProberTaskFields(cfg: Config, o: Offer)
    ensures ProberTask(cfg, o).service == Prober && ProberTask(cfg, o).id == TaskId(Prober, o.hostname)
  {
    hide TaskId, Plan;
  }

  /** An offer after which the agent has been asked for its devices. */
  lemma StageAsked(cfg: Config, w: World, m: World, p: Persistent, n: NodeState, host: string, slaveId: string, id: string,
                   t: int, born: nat)
    requires IdleHost(w, host) && id !in w.offers && Along(w, m, host, slaveId, t, born)
    requires !HostRestricted(cfg, host) && m.sched == Lone(p, host, n)
    requires n.prober.state == RUNNING && t - n.lastProbe > cfg.probeInterval
    ensures var o := OfferOf(id, host, slaveId, NO_RESOURCES);
            var m' := RoundEnd(cfg, m, o, t);
            && Leads(cfg, m, Round(o, t), m') && Along(w, m', host, slaveId, t, born)
            && m'.sched == Lone(p, host, n.(lastOffer := t, lastProbe := t))
            && slaveId in m'.past.asked
  {
    hide HandleOffer, Leads, HostRestricted, LaunchedTasks, TaskId, HostTaskIds, Reconciled;
    var o := OfferOf(id, host, slaveId, NO_RESOURCES);
    RoundLeads(cfg, m, o, t);
    AskReaction(cfg, p, n, o, t);
    ProbeLaunchesNothing(id, SendProbeRequest(slaveId, cfg.clientMountPoint), ReconcileTasks(HostTaskIds(host)));
    var calls := HandleOffer(cfg, m.sched, o, At(t)).calls;
    assert calls[0] in calls && calls[0].SendProbeRequest?;
    assert m.live + map[] == m.live;
  }

  /** Something else is told; the live tasks and the offers stay. */
  lemma StageTold(cfg: Config, w: World, m: World, e: Event, host: string, slaveId: string, t: int, born: nat)
    requires Along(w, m, host, slaveId, t, born) && !e.OfferArrives? && !e.Restart?
    requires Warranted(m.past, e) && Honest(m, Callback(e, {})) && (Timed(e) ==> e.at == t)
    ensures var r := Step(cfg, m.sched, e);
            var m' := m.(sched := r.sched, past := Remember(m.past, e, r.calls));
            Leads(cfg, m, Told(e), m') && Along(w, m', host, slaveId, t, born)
  {
    hide Step, Leads, Warranted, Honest, TaskId, Requested, LaunchedIds, Reconciled;
    ToldLeads(cfg, m, e);
  }

  /** What the scheduler knows of the host once its agent has been asked for its devices. */
  function AskedNode(host: string, slaveId: string, t: int): NodeState {
    ProberReported(ProberLaunched(FreshNode(host, slaveId), t), TaskId(Prober, host), t).(lastOffer := t, lastProbe := t)
  }

  /** The host is offered, the prober launched and reported, and the agent asked. */
  function AskRun(cfg: Config, host: string, slaveId: string, id: string, t: int, next: nat): seq<WorldEvent> {
    Round(OfferOf(id + "1", host, slaveId, NO_RESOURCES), t)
    + ProberRound(cfg, host, slaveId, id + "2", t, next)
    + Told(FinishedReport(host, slaveId, t))
    + Round(OfferOf(id + "3", host, slaveId, NO_RESOURCES), t)
  }

  lemma AskRunLeads(cfg: Config, w: World, host: string, slaveId: string, id: string) returns (m: World)
    requires CanBegin(cfg, w, host, slaveId, id) && '-' !in host
    ensures var t := StartTime(cfg, w.past.clock);
            && Leads(cfg, w, AskRun(cfg, host, slaveId, id, t, w.next), m) && Along(w, m, host, slaveId, t, 1)
            && m.sched == Lone(w.sched.persistent, host, AskedNode(host, slaveId, t))
            && slaveId in m.past.asked
  {
    hide Leads, HostRestricted, TaskId, RoundEnd, StartTime, LiveOk, Along, IdleHost, Step, Remember;
    var t, p := StartTime(cfg, w.past.clock), w.sched.persistent;
    FreshId(w, id, "2");
    FreshId(w, id, "3");
    var n1 := FreshNode(host, slaveId);
    var o1, o3 := OfferOf(id + "1", host, slaveId, NO_RESOURCES), OfferOf(id + "3", host, slaveId, NO_RESOURCES);
    var m1 := RoundEnd(cfg, w, o1, t);
    StageKnown(cfg, w, host, slaveId, id, t);
    var m2 := ProberEnd(cfg, m1, host, slaveId, id + "2", t);
    StageProber(cfg, w, m1, p, n1, host, slaveId, id + "2", t, t, 0);
    AlongNext(w, m1, host, slaveId, t, 0);
    LeadsChain(cfg, w, Round(o1, t), m1, ProberRound(cfg, host, slaveId, id + "2", t, w.next), m2);
    var e := FinishedReport(host, slaveId, t);
    var m3 := ToldWorld(cfg, m2, e);
    StageTold(cfg, w, m2, e, host, slaveId, t, 1);
    FinishedReaction(cfg, p, ProberLaunched(n1, t), host, slaveId, t);
    LeadsChain(cfg, w, Round(o1, t) + ProberRound(cfg, host, slaveId, id + "2", t, w.next), m2, Told(e), m3);
    m := RoundEnd(cfg, m3, o3, t);
    StageAsked(cfg, w, m3, p, ProberReported(ProberLaunched(n1, t), TaskId(Prober, host), t), host, slaveId, id + "3", t, 1);
    LeadsChain(cfg, w, Round(o1, t) + ProberRound(cfg, host, slaveId, id + "2", t, w.next) + Told(e), m3, Round(o3, t), m);
  }

  function ToldWorld(cfg: Config, m: World, e: Event): World {
    var r := Step(cfg, m.sched, e);
    m.(sched := r.sched, past := Remember(m.past, e, r.calls))
  }

  lemma AlongNext(w: World, m: World, host: string, slaveId: string, t: int, born: nat)
    requires Along(w, m, host, slaveId, t, born)
    ensures m.next == w.next + born && m.past.clock <= t && m.offers == w.offers
  {
  }

  /** What the scheduler knows of the host when the agent has answered and the prober has been launched again. */
  function PreparedNode(host: string, slaveId: string, svc: Service, t: int): NodeState {
    ProberLaunched(ProberLost(ProbedNode(AskedNode(host, slaveId, t), ReplyFor(svc), t), t), 2 * t)
  }

  /** The agent answers, and the prober, which has finished long ago, is reported lost and launched again. */
  function PrepareRun(cfg: Config, host: string, slaveId: string, svc: Service, id: string, t: int, next: nat): seq<WorldEvent> {
    Told(ProbeReply(slaveId, Some(ReplyFor(svc)), t))
    + Told(LossReport(Prober, host, t))
    + ProberRound(cfg, host, slaveId, id + "4", 2 * t, next)
  }

  lemma PrepareRunLeads(cfg: Config, w: World, m: World, host: string, slaveId: string, svc: Service, id: string)
    returns (end: World)
    requires CanBegin(cfg, w, host, slaveId, id) && '-' !in host
    requires var t := StartTime(cfg, w.past.clock);
             && Along(w, m, host, slaveId, t, 1) && slaveId in m.past.asked
             && m.sched == Lone(w.sched.persistent, host, AskedNode(host, slaveId, t))
    ensures var t := StartTime(cfg, w.past.clock);
            && Leads(cfg, m, PrepareRun(cfg, host, slaveId, svc, id, t, w.next + 1), end)
            && Along(w, end, host, slaveId, 2 * t, 2)
            && end.sched == Lone(w.sched.persistent, host, PreparedNode(host, slaveId, svc, t))
  {
    hide Leads, HostRestricted, TaskId, RoundEnd, StartTime, LiveOk, Along, IdleHost, Step, Remember, ReplyFor;
    var t, p := StartTime(cfg, w.past.clock), w.sched.persistent;
    var n := AskedNode(host, slaveId, t);
    FreshId(w, id, "4");
    var e1, e2 := ProbeReply(slaveId, Some(ReplyFor(svc)), t), LossReport(Prober, host, t);
    StageTold(cfg, w, m, e1, host, slaveId, t, 1);
    ReplyReaction(cfg, p, n, host, ReplyFor(svc), t);
    var m1 := ToldWorld(cfg, m, e1);
    LossMay(w, m1, Prober, host, slaveId, t, 1);
    StageTold(cfg, w, m1, e2, host, slaveId, t, 1);
    ProberLostReaction(cfg, p, ProbedNode(n, ReplyFor(svc), t), host, t);
    var m2 := ToldWorld(cfg, m1, e2);
    LeadsChain(cfg, m, Told(e1), m1, Told(e2), m2);
    end := ProberEnd(cfg, m2, host, slaveId, id + "4", 2 * t);
    AlongNext(w, m2, host, slaveId, t, 1);
    StageProber(cfg, w, m2, p, ProberLost(ProbedNode(n, ReplyFor(svc), t), t), host, slaveId, id + "4", t, 2 * t, 1);
    LeadsChain(cfg, m, Told(e1) + Told(e2), m2, ProberRound(cfg, host, slaveId, id + "4", 2 * t, w.next + 1), end);
  }

  /** A loss report about a service the host was asked about may come. */
  lemma LossMay(w: World, m: World, svc: Service, host: string, slaveId: string, t: int, born: nat)
    requires LiveOk(w) && IdleHost(w, host) && Along(w, m, host, slaveId, t, born) && svc != Client
    ensures Warranted(m.past, LossReport(svc, host, t)) && Honest(m, Callback(LossReport(svc, host, t), {}))
  {
    hide TaskId, IdleHost, LiveOk;
    AlongIdle(w, m, host, slaveId, t, born);
    IdleHonest(m, svc, host, LossReport(svc, host, t));
  }

  /** The version in force, or one that is set now. */
  function ActiveVersion(p: Persistent): string {
    if p.targetVersion == "" then "1" else p.targetVersion
  }

  /** The whole run: the service is reported lost, a version is set, and a last offer starts the service. */
  function StartRun(cfg: Config, p: Persistent, svc: Service, host: string, slaveId: string, id: string, t: int, next: nat)
    : seq<WorldEvent>
  {
    ReadyRun(cfg, p, svc, host, slaveId, id, t, next)
    + Round(OfferOf(id + "5", host, slaveId, Plan(cfg, svc)), 2 * t)
  }

  lemma ReleasedIsReady(cfg: Config, p: Persistent, svc: Service, host: string, slaveId: string, t: int)
    requires svc != Prober && svc != Client && '-' !in host
    ensures var s := Step(cfg, Lone(p, host, PreparedNode(host, slaveId, svc, t)), LossReport(svc, host, 2 * t)).sched;
            s.persistent == p && host in s.nodes && s.nodes[host].slaveId == slaveId && Ready(SetTargetVersion(s, ActiveVersion(p)), svc, host)
  {
    hide TaskId, HandleUpdate;
    RoutedUpdate(Lone(p, host, PreparedNode(host, slaveId, svc, t)), LossReport(svc, host, 2 * t).status, 2 * t, svc, host);
  }

  lemma ReleaseLeads(cfg: Config, w: World, m: World, host: string, slaveId: string, svc: Service, t: int)
    returns (end: World)
    requires LiveOk(w) && IdleHost(w, host) && Along(w, m, host, slaveId, 2 * t, 2)
    requires svc != Prober && svc != Client && '-' !in host
    requires m.sched == Lone(w.sched.persistent, host, PreparedNode(host, slaveId, svc, t))
    ensures Leads(cfg, m, Told(LossReport(svc, host, 2 * t)) + Told(VersionPost(ActiveVersion(w.sched.persistent))), end)
    ensures Along(w, end, host, slaveId, 2 * t, 2) && Ready(end.sched, svc, host)
    ensures host in end.sched.nodes && end.sched.nodes[host].slaveId == slaveId
  {
    hide Leads, TaskId, LiveOk, Along, IdleHost, HandleUpdate, Remember, PreparedNode, Ready;
    var p := w.sched.persistent;
    var e1, e2 := LossReport(svc, host, 2 * t), VersionPost(ActiveVersion(p));
    LossMay(w, m, svc, host, slaveId, 2 * t, 2);
    StageTold(cfg, w, m, e1, host, slaveId, 2 * t, 2);
    ReleasedIsReady(cfg, p, svc, host, slaveId, t);
    var m1 := ToldWorld(cfg, m, e1);
    StageTold(cfg, w, m1, e2, host, slaveId, 2 * t, 2);
    end := ToldWorld(cfg, m1, e2);
    LeadsChain(cfg, m, Told(e1), m1, Told(e2), end);
  }

  lemma OneService(tasks: seq<TaskInfo>, svc: Service)
    requires LaunchedSet(tasks) == {svc}
    ensures tasks != [] && tasks[0].service == svc
  {
    assert svc in LaunchedSet(tasks);
    assert tasks[0].service in LaunchedSet(tasks);
  }

  /** One more instance of svc is live than in w, on the host. */
  predicate OneMore(w: World, end: World, svc: Service, host: string, slaveId: string) {
    && end.offers == w.offers && end.past.agents == w.past.agents[slaveId := host]
    && exists n | n in end.live :: n !in w.live && end.live[n].host == host && end.live[n].task.service == svc
                                   && end.live == w.live[n := end.live[n]]
  }

  lemma StartLeads(cfg: Config, w: World, m: World, host: string, slaveId: string, svc: Service, id: string, t: int)
    returns (end: World)
    requires LiveOk(w) && IdleHost(w, host) && Along(w, m, host, slaveId, t, 2) && id !in w.offers
    requires Ready(m.sched, svc, host) && svc != Prober && svc != Client && (svc == S3 ==> cfg.s3Hostname != "")
    requires !HostRestricted(cfg, host)
    ensures Leads(cfg, m, Round(OfferOf(id, host, slaveId, Plan(cfg, svc)), t), end) && OneMore(w, end, svc, host, slaveId)
  {
    hide Leads, Plan, TaskId, HandleOffer, LaunchedTasks, HostRestricted, Ready, LaunchedSet, Remember, IdleHost, LiveOk;
    var o := OfferOf(id, host, slaveId, Plan(cfg, svc));
    AlongIdle(w, m, host, slaveId, t, 2);
    RoundLeads(cfg, m, o, t);
    RoundPast(cfg, m, o, t);
    end := RoundEnd(cfg, m, o, t);
    assert end.past.agents == w.past.agents[slaveId := host];
    ReadyLaunches(cfg, m.sched, svc, o, At(t));
    OneService(LaunchedTasks(HandleOffer(cfg, m.sched, o, At(t)).calls), svc);
    assert m.next in end.live && end.live == w.live[m.next := end.live[m.next]];
  }

  /** The run up to the point where only the last offer is missing. */
  function ReadyRun(cfg: Config, p: Persistent, svc: Service, host: string, slaveId: string, id: string, t: int, next: nat)
    : seq<WorldEvent>
  {
    AskRun(cfg, host, slaveId, id, t, next)
    + PrepareRun(cfg, host, slaveId, svc, id, t, next + 1)
    + (Told(LossReport(svc, host, 2 * t)) + Told(VersionPost(ActiveVersion(p))))
  }

  lemma ReadyRunLeads(cfg: Config, w: World, svc: Service, host: string, slaveId: string, id: string) returns (ready: World)
    requires CanBegin(cfg, w, host, slaveId, id) && '-' !in host && svc != Prober && svc != Client
    ensures var t := StartTime(cfg, w.past.clock);
            && Leads(cfg, w, ReadyRun(cfg, w.sched.persistent, svc, host, slaveId, id, t, w.next), ready)
            && Along(w, ready, host, slaveId, 2 * t, 2)
    ensures Ready(ready.sched, svc, host) && slaveId in ready.past.asked
    ensures host in ready.sched.nodes && ready.sched.nodes[host].slaveId == slaveId
  {
    hide Leads, Plan, HostRestricted, LiveOk, StartTime, Along, AskRun, PrepareRun, AskedNode, PreparedNode, Ready;
    var t, p := StartTime(cfg, w.past.clock), w.sched.persistent;
    var asked := AskRunLeads(cfg, w, host, slaveId, id);
    var prepared := PrepareRunLeads(cfg, w, asked, host, slaveId, svc, id);
    LeadsChain(cfg, w, AskRun(cfg, host, slaveId, id, t, w.next), asked,
               PrepareRun(cfg, host, slaveId, svc, id, t, w.next + 1), prepared);
    ready := ReleaseLeads(cfg, w, prepared, host, slaveId, svc, t);
    var release := Told(LossReport(svc, host, 2 * t)) + Told(VersionPost(ActiveVersion(p)));
    LeadsChain(cfg, w, AskRun(cfg, host, slaveId, id, t, w.next) + PrepareRun(cfg, host, slaveId, svc, id, t, w.next + 1),
               prepared, release, ready);
    AskedKept(cfg, asked, PrepareRun(cfg, host, slaveId, svc, id, t, w.next + 1), prepared);
    AskedKept(cfg, prepared, release, ready);
  }

  lemma AskedKept(cfg: Config, w: World, es: seq<WorldEvent>, end: World)
    requires Leads(cfg, w, es, end)
    ensures w.past.asked <= end.past.asked
  {
    hide IsGenuineRun, Apply;
    AskedGrows(cfg, w, es);
  }

  lemma {:induction false} AskedGrows(cfg: Config, w: World, es: seq<WorldEvent>)
    ensures w.past.asked <= After(cfg, w, es).past.asked
  {
    hide Step, LaunchedTasks;
    if es != [] {
      AskedGrows(cfg, w, es[..|es| - 1]);
    }
  }

  /**
   * From any restarted scheduler and idle, allowed, dash-free host the whole run keeps every obligation of the
   * environment and leaves one more task of the service live.
   */
  lemma StartRunLeads(cfg: Config, w: World, svc: Service, host: string, slaveId: string, id: string) returns (end: World)
    requires CanBegin(cfg, w, host, slaveId, id) && '-' !in host
    requires svc != Prober && svc != Client && (svc == S3 ==> cfg.s3Hostname != "")
    ensures Leads(cfg, w, StartRun(cfg, w.sched.persistent, svc, host, slaveId, id, StartTime(cfg, w.past.clock), w.next), end)
    ensures OneMore(w, end, svc, host, slaveId)
  {
    hide Leads, Plan, HostRestricted, LiveOk, StartTime, Along, OneMore, ReadyRun, Ready;
    var t, p := StartTime(cfg, w.past.clock), w.sched.persistent;
    var ready := ReadyRunLeads(cfg, w, svc, host, slaveId, id);
    FreshId(w, id, "5");
    end := StartLeads(cfg, w, ready, host, slaveId, svc, id + "5", 2 * t);
    LeadsChain(cfg, w, ReadyRun(cfg, p, svc, host, slaveId, id, t, w.next), ready,
               Round(OfferOf(id + "5", host, slaveId, Plan(cfg, svc)), 2 * t), end);
  }

  // ------------------------------------------------------------ what can be live where

  /** Some genuine run from an empty cluster has a task of the service live on the host. */
  ghost predicate EverLive(cfg: Config, p: Persistent, svc: Service, host: string) {
    exists es, n :: IsGenuineRun(cfg, FreshWorld(p), es) && LiveAt(After(cfg, FreshWorld(p), es), n, svc, host)
  }

  predicate LiveAt(w: World, n: nat, svc: Service, host: string) {
    n in w.live && w.live[n].task.service == svc && w.live[n].host == host
  }

  lemma FreshCanBegin(cfg: Config, p: Persistent, host: string)
    requires !HostRestricted(cfg, host)
    ensures CanBegin(cfg, FreshWorld(p), host, host, "")
  {
  }

  lemma LeadsFacts(cfg: Config, w: World, es: seq<WorldEvent>, end: World)
    requires Leads(cfg, w, es, end)
    ensures IsGenuineRun(cfg, w, es) && Restarts(es) == 0 && After(cfg, w, es) == end
  {
  }

  lemma ServiceReached(cfg: Config, p: Persistent, svc: Service, host: string)
    requires Placeable(cfg, svc, host) && svc != Prober
    ensures EverLive(cfg, p, svc, host)
  {
    hide Leads, HostRestricted, CanBegin, StartRun, IsGenuineRun, After, StartTime;
    var w := FreshWorld(p);
    FreshCanBegin(cfg, p, host);
    var end := StartRunLeads(cfg, w, svc, host, host, "");
    var es := StartRun(cfg, p, svc, host, host, "", StartTime(cfg, w.past.clock), w.next);
    LeadsFacts(cfg, w, es, end);
    var n :| n in end.live && n !in w.live && end.live[n].host == host && end.live[n].task.service == svc;
    assert IsGenuineRun(cfg, w, es) && LiveAt(After(cfg, w, es), n, svc, host);
  }

  lemma ProberReached(cfg: Config, p: Persistent, host: string)
    requires !HostRestricted(cfg, host)
    ensures EverLive(cfg, p, Prober, host)
  {
    hide Leads, HostRestricted, IsGenuineRun, After, StartTime, RoundEnd, Plan, ProberTask, TaskId;
    var w, t := FreshWorld(p), StartTime(cfg, 0);
    FreshCanBegin(cfg, p, host);
    StageKnown(cfg, w, host, host, "", t);
    var o1, o2 := OfferOf("" + "1", host, host, NO_RESOURCES), OfferOf("2", host, host, Plan(cfg, Prober));
    var m := RoundEnd(cfg, w, o1, t);
    ProberStarted(cfg, m, p, FreshNode(host, host), host, host, "2", t);
    var end := RoundEnd(cfg, m, o2, t);
    LeadsChain(cfg, w, Round(o1, t), m, Round(o2, t), end);
    LeadsFacts(cfg, w, Round(o1, t) + Round(o2, t), end);
    ProberTaskFields(cfg, o2);
    assert IsGenuineRun(cfg, w, Round(o1, t) + Round(o2, t)) && LiveAt(After(cfg, w, Round(o1, t) + Round(o2, t)), m.next, Prober, host);
  }

  /**
   * Which services can be live where, exactly: some run from an empty cluster that keeps every obligation of the
   * environment has a task of the service live on the host iff the host is allowed, its name has no dash unless the
   * service is the prober, the service is not the client, and S3 has a host name.
   */
  lemma LaunchableIff(cfg: Config, p: Persistent, svc: Service, host: string)
    ensures EverLive(cfg, p, svc, host) <==>
              && !HostRestricted(cfg, host)
              && (svc != Prober ==> '-' !in host)
              && svc != Client
              && (svc == S3 ==> cfg.s3Hostname != "")
  {
    hide HostRestricted, After, IsHonestRun, IsTimedRun, IsWarrantedRun, LiveOk, DashInv, ClientInv;
    if EverLive(cfg, p, svc, host) {
      var es, n :| IsGenuineRun(cfg, FreshWorld(p), es) && LiveAt(After(cfg, FreshWorld(p), es), n, svc, host);
      PlacesAlways(cfg, p, es);
    } else if Placeable(cfg, svc, host) {
      if svc == Prober {
        ProberReached(cfg, p, host);
      } else {
        ServiceReached(cfg, p, svc, host);
      }
    }
  }

  /** Some genuine run from an empty cluster sends a probe request to an agent on the host. */
  ghost predicate EverAsked(cfg: Config, p: Persistent, host: string) {
    exists es, slaveId :: IsGenuineRun(cfg, FreshWorld(p), es) && AskedOn(After(cfg, FreshWorld(p), es).past, slaveId, host)
  }

  predicate AskedOn(past: Past, slaveId: string, host: string) {
    slaveId in past.asked && slaveId in past.agents && past.agents[slaveId] == host
  }

  lemma AskReached(cfg: Config, p: Persistent, host: string)
    requires !HostRestricted(cfg, host) && '-' !in host
    ensures EverAsked(cfg, p, host)
  {
    hide Leads, HostRestricted, CanBegin, AskRun, IsGenuineRun, After, StartTime;
    var w := FreshWorld(p);
    FreshCanBegin(cfg, p, host);
    var m := AskRunLeads(cfg, w, host, host, "");
    var es := AskRun(cfg, host, host, "", StartTime(cfg, w.past.clock), w.next);
    LeadsFacts(cfg, w, es, m);
    assert IsGenuineRun(cfg, w, es) && AskedOn(After(cfg, w, es).past, host, host);
  }

  /** An agent can be asked for its devices exactly when its host is allowed and has no dash in its name. */
  lemma ProbeableIff(cfg: Config, p: Persistent, host: string)
    ensures EverAsked(cfg, p, host) <==> !HostRestricted(cfg, host) && '-' !in host
  {
    hide HostRestricted, After, IsHonestRun, IsTimedRun, IsWarrantedRun, LiveOk, DashedNodeOk, ClientInv;
    if EverAsked(cfg, p, host) {
      var es, slaveId :| IsGenuineRun(cfg, FreshWorld(p), es) && AskedOn(After(cfg, FreshWorld(p), es).past, slaveId, host);
      PlacesAlways(cfg, p, es);
      assert AskedOk(cfg, After(cfg, FreshWorld(p), es).past, slaveId);
    } else if !HostRestricted(cfg, host) && '-' !in host {
      AskReached(cfg, p, host);
    }
  }

  // ------------------------------------------------------------ a gate that opens by mistake

  /** Starting a core service leaves what is known of its host, and its slots. */
  lemma StartedCore(cfg: Config, s: SchedState, svc: Service, o: Offer, t: Ticks)
    requires Ready(s, svc, o.hostname) && o.reservedForApi && o.reservedForS3 && o.reservedForConsole
    requires IsCore(svc) && !HostRestricted(cfg, o.hostname) && o.resources == Plan(cfg, svc)
    ensures var nodes := HandleOffer(cfg, s, o, t).sched.nodes;
            && o.hostname in nodes && nodes[o.hostname].slaveId == s.nodes[o.hostname].slaveId
            && FactsOf(nodes[o.hostname]) == FactsOf(s.nodes[o.hostname])
    ensures forall x: Service | x != Prober ::
              SlotOf(HandleOffer(cfg, s, o, t).sched, x, o.hostname) == SlotOf(s, x, o.hostname)
    ensures Starts(HandleOffer(cfg, s, o, t).calls, svc)
  {
    hide HandleOffer, Plan, HostRestricted, LaunchedTasks, SlotOf;
    ReadyLaunches(cfg, s, svc, o, t);
    var calls := HandleOffer(cfg, s, o, t).calls;
    assert svc in LaunchedSet(LaunchedTasks(calls));
    KeepsHost(cfg, s, o, t);
    OfferFacts(cfg, s, o, t, o.hostname);
    forall x: Service | x != Prober
      ensures SlotOf(HandleOffer(cfg, s, o, t).sched, x, o.hostname) == SlotOf(s, x, o.hostname)
    {
      OfferSlot(cfg, s, o, t, x, o.hostname);
      if task :| task in LaunchedTasks(calls) && task.service == x {
        assert x in LaunchedSet(LaunchedTasks(calls));
      }
    }
  }

  lemma KeepsHost(cfg: Config, s: SchedState, o: Offer, t: Ticks)
    requires o.hostname in s.nodes
    ensures o.hostname in HandleOffer(cfg, s, o, t).sched.nodes
  {
    hide HandleKnownHost, HostTaskIds, HostRestricted;
    KnownHostNodes(cfg, s, o, t);
  }

  function RunningReportOf(svc: Service, host: string, t: int): Event {
    UpdateArrives(TaskStatus(TaskId(svc, host), TASK_RUNNING, "", ""), t)
  }

  /** A data service is adopted, then a reply lists another type instead. */
  lemma StaleReaction(cfg: Config, s: SchedState, host: string, slaveId: string, d: DeviceType, t: int)
    requires '-' !in host && d != DATA && host in s.nodes && s.nodes[host].slaveId == slaveId
    requires DATA in s.nodes[host].deviceTypes
    requires forall x: Service | x != Prober :: SlotOf(s, x, host) == Slot(if x == Data then NOT_RUNNING else UNKNOWN, "")
    ensures var s1 := Step(cfg, s, RunningReportOf(Data, host, t)).sched;
            GateOpenFor(Step(cfg, s1, ProbeReply(slaveId, Some(ProbeResponse([d], false)), t)).sched, host, d)
  {
    hide TaskId, HandleUpdate;
    RoutedUpdate(s, RunningReportOf(Data, host, t).status, t, Data, host);
    assert SlotOf(s, Registry, host).state == UNKNOWN && SlotOf(s, Metadata, host).state == UNKNOWN;
    assert SlotOf(s, Data, host).taskId == "";
  }

  /** Only a data service runs on the host, only d is listed, and the gate for other services is open. */
  predicate GateOpenFor(s: SchedState, host: string, d: DeviceType) {
    && host in s.nodes && s.nodes[host].deviceTypes == [d] && RunningDevices(s.nodes[host]) == {DATA}
    && CoreGateOpen(s.nodes[host])
  }

  /**
   * A running core service that is no longer listed can open the gate in place of a listed type whose service does
   * not run, CLIENT included: a genuine run from an empty cluster starts a data service, has it reported RUNNING, and
   * has the agent answer with any one type but DATA.
   */
  lemma StaleServiceOpensGate(cfg: Config, p: Persistent, host: string, d: DeviceType)
    requires Placeable(cfg, Data, host) && d != DATA
    ensures exists es :: IsGenuineRun(cfg, FreshWorld(p), es) && GateOpenFor(After(cfg, FreshWorld(p), es).sched, host, d)
  {
    hide Leads, HostRestricted, Along, CanBegin, ReadyRun, IsGenuineRun, After, StartTime, Plan, TaskId, Step, HandleOffer,
         LaunchedTasks, Ready, SlotOf, GateOpenFor, IdleHost, LiveOk;
    var w := FreshWorld(p);
    var t := StartTime(cfg, 0);
    FreshCanBegin(cfg, p, host);
    BeginIdle(cfg, w, host, host, "");
    var ready := ReadyRunLeads(cfg, w, Data, host, host, "");
    var o := OfferOf("5", host, host, Plan(cfg, Data));
    AlongIdle(w, ready, host, host, 2 * t, 2);
    AlongAgents(w, ready, host, host, 2 * t, 2);
    RoundLeads(cfg, ready, o, 2 * t);
    RoundPast(cfg, ready, o, 2 * t);
    var started := RoundEnd(cfg, ready, o, 2 * t);
    StartedCore(cfg, ready.sched, Data, o, At(2 * t));
    ReadySlots(ready.sched, Data, host);
    StartedKnown(cfg, ready, o, 2 * t, Data);
    var e1, e2 := RunningReportOf(Data, host, 2 * t), ProbeReply(host, Some(ProbeResponse([d], false)), 2 * t);
    ToldLeads(cfg, started, e1);
    var m := ToldWorld(cfg, started, e1);
    ToldLeads(cfg, m, e2);
    StaleReaction(cfg, started.sched, host, host, d, 2 * t);
    var start := ReadyRun(cfg, p, Data, host, host, "", t, 0);
    LeadsChain(cfg, w, start, ready, Round(o, 2 * t), started);
    LeadsChain(cfg, w, start + Round(o, 2 * t), started, Told(e1), m);
    LeadsChain(cfg, w, start + Round(o, 2 * t) + Told(e1), m, Told(e2), ToldWorld(cfg, m, e2));
    LeadsFacts(cfg, w, start + Round(o, 2 * t) + Told(e1) + Told(e2), ToldWorld(cfg, m, e2));
  }

  lemma BeginIdle(cfg: Config, w: World, host: string, slaveId: string, id: string)
    requires CanBegin(cfg, w, host, slaveId, id)
    ensures LiveOk(w) && IdleHost(w, host)
  {
  }

  lemma AlongAgents(w: World, m: World, host: string, slaveId: string, t: int, born: nat)
    requires Along(w, m, host, slaveId, t, born)
    ensures m.past.agents == w.past.agents[slaveId := host] && m.past.clock <= t && m.offers == w.offers
  {
  }

  lemma ReadySlots(s: SchedState, svc: Service, host: string)
    requires Ready(s, svc, host)
    ensures host in s.nodes && s.nodes[host].deviceTypes == ReplyFor(svc).deviceTypes
    ensures forall x: Service | x != Prober :: SlotOf(s, x, host) == Slot(if x == svc then NOT_RUNNING else UNKNOWN, "")
  {
  }

  /** A launched task's id may be reported about. */
  lemma StartedKnown(cfg: Config, m: World, o: Offer, t: int, svc: Service)
    requires Starts(HandleOffer(cfg, m.sched, o, At(t)).calls, svc)
    ensures TaskId(svc, o.hostname) in RoundEnd(cfg, m, o, t).past.launched
    ensures m.past.asked <= RoundEnd(cfg, m, o, t).past.asked
  {
    hide HandleOffer, LaunchedTasks, TaskId;
    var calls := HandleOffer(cfg, m.sched, o, At(t)).calls;
    var task :| task in LaunchedTasks(calls) && task.service == svc;
    LaunchedTask(cfg, m.sched, o, At(t), task);
  }
}
