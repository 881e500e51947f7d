/** What each scheduler callback does: the new state and the driver calls it makes. */
module Reactions {
  import opened Types
  import opened Text
  import opened TaskIds
  import opened ResourcePlans
  import opened Policy
  import opened Launching

  datatype DriverCall =
    | DeclineOffer(offerId: string)
    | LaunchTasks(offerId: string, tasks: seq<TaskInfo>)
    | KillTask(taskId: string)
    | SendProbeRequest(slaveId: string, clientDirectory: string)
    | ReconcileTasks(taskIds: seq<string>)

  datatype Reaction = Reaction(sched: SchedState, calls: seq<DriverCall>)

  /** Clock readings taken while one offer is handled, in program order. */
  datatype Ticks = Ticks(offerAt: int, keepAliveAt: int, proberAt: int, probeTestAt: int, probeAt: int)

  predicate Ordered(t: Ticks) {
    t.offerAt <= t.keepAliveAt <= t.proberAt <= t.probeTestAt <= t.probeAt
  }

  /** createHost: std::map::insert never overwrites. */
  function CreateHost(s: SchedState, hostname: string, slaveId: string): SchedState {
    if hostname in s.nodes then s
    else s.(nodes := s.nodes[hostname := FreshNode(hostname, slaveId)])
  }

  /** The ids reconcileHost asks about; the client is not among them. */
  function HostTaskIds(host: string): seq<string> {
    [TaskId(Prober, host), TaskId(Registry, host), TaskId(Metadata, host), TaskId(Data, host),
     TaskId(Webconsole, host), TaskId(Api, host), TaskId(S3, host)]
  }

  // ------------------------------------------------------------ resourceOffers

  predicate HostRestricted(cfg: Config, host: string) {
    cfg.restrictHosts != "" && Find(cfg.restrictHosts, host) == -1
  }

  predicate ProberDue(cfg: Config, n: NodeState, t: Ticks) {
    && t.keepAliveAt - n.prober.lastSeen > cfg.keepAliveInterval
    && n.prober.state != RUNNING
    && n.prober.state != STARTING
  }

  predicate ProbeDue(cfg: Config, n: NodeState, t: Ticks) {
    n.prober.state == RUNNING && t.probeTestAt - n.lastProbe > cfg.probeInterval
  }

  function KillIfRunning(svc: Service, host: string, ss: ServiceState): seq<DriverCall> {
    if ss.state == RUNNING then [KillTask(TaskId(svc, host))] else []
  }

  /** The kills issued for an offer's host while no version is set. */
  function ShutdownCalls(s: SchedState, n: NodeState, host: string): seq<DriverCall> {
    KillIfRunning(Registry, host, n.registry)
    + KillIfRunning(Data, host, n.data)
    + KillIfRunning(Metadata, host, n.metadata)
    + KillIfRunning(Api, host, s.api)
    + KillIfRunning(S3, host, s.s3)
    + KillIfRunning(Webconsole, host, s.console)
  }

  function StartStage(s: SchedState, n: NodeState, o: Offer): Stage {
    Stage(s.api, s.s3, s.console, n, o.resources, [])
  }

  function WithStage(s: SchedState, host: string, g: Stage): SchedState {
    s.(api := g.api, s3 := g.s3, console := g.console, nodes := s.nodes[host := g.node])
  }

  /** An offer for a known node on which neither a prober launch nor a probe is due. */
  function ServeOffer(cfg: Config, s: SchedState, n: NodeState, o: Offer): Reaction {
    if s.persistent.targetVersion != "" then
      var g := ServiceStage(cfg, o, s.persistent.targetVersion, StartStage(s, n, o));
      Reaction(WithStage(s, o.hostname, g),
               if g.tasks != [] then [LaunchTasks(o.id, g.tasks)] else [DeclineOffer(o.id)])
    else
      Reaction(s.(nodes := s.nodes[o.hostname := n]), ShutdownCalls(s, n, o.hostname) + [DeclineOffer(o.id)])
  }

  function HandleKnownHost(cfg: Config, s: SchedState, o: Offer, t: Ticks): Reaction
    requires o.hostname in s.nodes
  {
    var n := s.nodes[o.hostname].(lastOffer := t.offerAt);
    if ProberDue(cfg, n, t) && Contains(o.resources, Plan(cfg, Prober)) then
      var n' := n.(prober := n.prober.(state := STARTING, lastUpdate := t.proberAt));
      Reaction(s.(nodes := s.nodes[o.hostname := n']), [LaunchTasks(o.id, [ProberTask(cfg, o)])])
    else if ProbeDue(cfg, n, t) then
      var n' := n.(lastProbe := t.probeAt);
      Reaction(s.(nodes := s.nodes[o.hostname := n']),
               [SendProbeRequest(o.slaveId, cfg.clientMountPoint), ReconcileTasks(HostTaskIds(o.hostname)), DeclineOffer(o.id)])
    else
      ServeOffer(cfg, s, n, o)
  }

  /** One iteration of the resourceOffers loop. */
  function HandleOffer(cfg: Config, s: SchedState, o: Offer, t: Ticks): Reaction {
    if HostRestricted(cfg, o.hostname) then
      Reaction(s, [DeclineOffer(o.id)])
    else if o.hostname !in s.nodes then
      Reaction(CreateHost(s, o.hostname, o.slaveId), [ReconcileTasks(HostTaskIds(o.hostname)), DeclineOffer(o.id)])
    else
      HandleKnownHost(cfg, s, o, t)
  }

  /** resourceOffers on a batch, with one set of clock readings per offer. */
  function HandleOffers(cfg: Config, s: SchedState, offers: seq<Offer>, ticks: seq<Ticks>): Reaction
    requires |ticks| == |offers|
  {
    if offers == [] then Reaction(s, [])
    else
      var k := |offers| - 1;
      var before := HandleOffers(cfg, s, offers[..k], ticks[..k]);
      var last := HandleOffer(cfg, before.sched, offers[k], ticks[k]);
      Reaction(last.sched, before.calls + last.calls)
  }

  // -------------------------------------------------------------- statusUpdate

  /** Whether a RUNNING or FINISHED report is about a task that may stay. */
  predicate ServiceShouldRun(n: NodeState, svc: Service, ss: ServiceState, id: string) {
    && !(IsSingleton(svc) && ss.state == RUNNING && ss.taskId != id)
    && (n.deviceTypesValid ==>
          && (IsCore(svc) ==> CoreDevice(svc) in n.deviceTypes)
          && (svc == Client ==> n.clientMountPoint))
  }

  /** TASK_FINISHED is treated like TASK_RUNNING. */
  predicate ReportsRunning(m: MesosState) {
    m == TASK_RUNNING || m == TASK_FINISHED
  }

  predicate Concerns(ss: ServiceState, id: string) {
    ss.taskId == id || ss.taskId == ""
  }

  function UpdatedService(n: NodeState, svc: Service, ss: ServiceState, st: TaskStatus, at: int): ServiceState {
    if ReportsRunning(st.state) then
      if ServiceShouldRun(n, svc, ss, st.id) && Concerns(ss, st.id)
      then ServiceState(RUNNING, at, at, st.message, st.id)
      else ss
    else if IsTerminal(st.state) && Concerns(ss, st.id)
    then ss.(state := NOT_RUNNING, lastUpdate := at, lastMessage := st.message, taskId := "")
    else ss
  }

  function UpdateCalls(s: SchedState, n: NodeState, svc: Service, ss: ServiceState, st: TaskStatus): seq<DriverCall> {
    (if ReportsRunning(st.state) && !ServiceShouldRun(n, svc, ss, st.id) then [KillTask(st.id)] else [])
    + (if svc != Prober && !IsTerminal(st.state) && s.persistent.targetVersion == "" then [KillTask(st.id)] else [])
  }

  function HandleUpdate(s: SchedState, st: TaskStatus, at: int): Reaction {
    match SplitTaskId(st.id)
    case None => Reaction(s, [])
    case Some(parts) =>
      var s1 := CreateHost(s, parts.host, st.slaveId);
      match ServiceNamed(parts.name)
      case None => Reaction(s1, [])
      case Some(svc) =>
        var n, ss := s1.nodes[parts.host], ServiceAt(s1, svc, parts.host);
        Reaction(WithServiceAt(s1, svc, parts.host, UpdatedService(n, svc, ss, st, at)),
                 UpdateCalls(s1, n, svc, ss, st))
  }

  /** What an update for the id of (svc, host) does, on a dash-free host. */
  lemma RoutedUpdate(s: SchedState, st: TaskStatus, at: int, svc: Service, host: string)
    requires st.id == TaskId(svc, host) && '-' !in host
    ensures host in CreateHost(s, host, st.slaveId).nodes
    ensures var s1 := CreateHost(s, host, st.slaveId);
            var n, ss := s1.nodes[host], ServiceAt(s1, svc, host);
            HandleUpdate(s, st, at)
            == Reaction(WithServiceAt(s1, svc, host, UpdatedService(n, svc, ss, st, at)), UpdateCalls(s1, n, svc, ss, st))
  {
    hide ServiceNamed, WithServiceAt, ServiceAt, UpdatedService, UpdateCalls;
    SplitAtSeparator(Name(svc), host);
    NameRoundTrip(svc);
  }

  // ---------------------------------------------------------- frameworkMessage

  function ProbedNode(n: NodeState, r: ProbeResponse, at: int): NodeState {
    n.(deviceTypes := r.deviceTypes,
       clientMountPoint := r.clientMountPoint,
       prober := n.prober.(lastSeen := at),
       deviceTypesValid := true)
  }

  /** A probe reply reaches every node recorded under the slave; a malformed one changes nothing. */
  function HandleMessage(s: SchedState, slaveId: string, response: Option<ProbeResponse>, at: int): SchedState {
    match response
    case None => s
    case Some(r) =>
      s.(nodes := map h | h in s.nodes ::
                    if s.nodes[h].slaveId == slaveId then ProbedNode(s.nodes[h], r, at) else s.nodes[h])
  }

  // ------------------------------------------------------- versions and restarts

  function SetTargetVersion(s: SchedState, version: string): SchedState {
    s.(persistent := s.persistent.(targetVersion := version))
  }

  function SetFrameworkId(s: SchedState, id: string): SchedState {
    s.(persistent := s.persistent.(frameworkId := id))
  }

  /** Everything that can happen to the scheduler. */
  datatype Event =
    | OfferArrives(offer: Offer, ticks: Ticks)
    | UpdateArrives(status: TaskStatus, at: int)
    | ProbeReply(slaveId: string, response: Option<ProbeResponse>, at: int)
    | VersionPost(version: string)
    | Registered(frameworkId: string)
    | Reregistered
    | Restart

  function Step(cfg: Config, s: SchedState, e: Event): Reaction {
    match e
    case OfferArrives(o, t) => HandleOffer(cfg, s, o, t)
    case UpdateArrives(st, at) => HandleUpdate(s, st, at)
    case ProbeReply(slaveId, r, at) => Reaction(HandleMessage(s, slaveId, r, at), [])
    case VersionPost(v) => Reaction(SetTargetVersion(s, v), [])
    case Registered(id) => Reaction(SetFrameworkId(s, id), [ReconcileTasks([])])
    case Reregistered => Reaction(s, [ReconcileTasks([])])
    case Restart => Reaction(FreshSched(s.persistent), [])
  }

  /** The scheduler's state after a history of events. */
  function Run(cfg: Config, s: SchedState, es: seq<Event>): SchedState {
    if es == [] then s
    else Step(cfg, Run(cfg, s, es[..|es| - 1]), es[|es| - 1]).sched
  }

  /** The tasks launched by a list of driver calls. */
  function LaunchedTasks(calls: seq<DriverCall>): seq<TaskInfo> {
    if calls == [] then []
    else
      LaunchedTasks(calls[..|calls| - 1])
      + if calls[|calls| - 1].LaunchTasks? then calls[|calls| - 1].tasks else []
  }

  predicate Starts(calls: seq<DriverCall>, svc: Service) {
    Launched(LaunchedTasks(calls), svc)
  }

  // ------------------------------------------------------- offers are answered once

  predicate IsAnswer(c: DriverCall) {
    c.DeclineOffer? || (c.LaunchTasks? && c.tasks != [])
  }

  /** The declines and launches among a list of calls, in order. */
  function Answers(calls: seq<DriverCall>): seq<DriverCall> {
    if calls == [] then []
    else
      Answers(calls[..|calls| - 1])
      + if calls[|calls| - 1].DeclineOffer? || calls[|calls| - 1].LaunchTasks? then [calls[|calls| - 1]] else []
  }

  lemma {:induction false} AnswersConcat(a: seq<DriverCall>, b: seq<DriverCall>)
    ensures Answers(a + b) == Answers(a) + Answers(b)
  {
    if b == [] {
      assert a + b == a;
    } else {
      var front := b[..|b| - 1];
      assert (a + b)[..|a + b| - 1] == a + front;
      AnswersConcat(a, front);
    }
  }

  lemma {:induction false} LaunchedTasksConcat(a: seq<DriverCall>, b: seq<DriverCall>)
    ensures LaunchedTasks(a + b) == LaunchedTasks(a) + LaunchedTasks(b)
  {
    if b == [] {
      assert a + b == a;
    } else {
      var front := b[..|b| - 1];
      assert (a + b)[..|a + b| - 1] == a + front;
      LaunchedTasksConcat(a, front);
    }
  }

  predicate OnlyKills(calls: seq<DriverCall>) {
    forall c | c in calls :: c.KillTask?
  }

  lemma {:induction false} KillsAnswerNothing(calls: seq<DriverCall>)
    requires OnlyKills(calls)
    ensures Answers(calls) == [] && LaunchedTasks(calls) == []
  {
    if calls != [] {
      assert calls[|calls| - 1] in calls;
      assert forall c | c in calls[..|calls| - 1] :: c in calls;
      KillsAnswerNothing(calls[..|calls| - 1]);
    }
  }

  lemma OneCall(c: DriverCall)
    ensures Answers([c]) == if c.DeclineOffer? || c.LaunchTasks? then [c] else []
    ensures LaunchedTasks([c]) == if c.LaunchTasks? then c.tasks else []
  {
    assert [c][..0] == [];
  }

  lemma ShutdownOnlyKills(s: SchedState, n: NodeState, host: string)
    ensures OnlyKills(ShutdownCalls(s, n, host))
  {
    hide TaskId;
  }

  /** The last call for an offer: a lone non-empty launch, or a decline. */
  lemma LastCall(cfg: Config, s: SchedState, o: Offer, t: Ticks)
    ensures var calls := HandleOffer(cfg, s, o, t).calls;
            && calls != []
            && (calls[|calls| - 1] == DeclineOffer(o.id)
                || (|calls| == 1 && calls[0].LaunchTasks? && calls[0].offerId == o.id && calls[0].tasks != []))
  {
    hide TaskId, Plan, ServiceStage, HostTaskIds, ShutdownCalls, ProberDue, ProbeDue, HostRestricted;
  }

  /** Handling one offer either launches a non-empty list on it, and does nothing else, or declines it last. */
  lemma OfferAnswered(cfg: Config, s: SchedState, o: Offer, t: Ticks)
    ensures var calls := HandleOffer(cfg, s, o, t).calls;
            && |Answers(calls)| == 1 && IsAnswer(Answers(calls)[0])
            && Answers(calls)[0].offerId == o.id
            && LaunchedTasks(calls) == (if Answers(calls)[0].LaunchTasks? then Answers(calls)[0].tasks else [])
            && (Answers(calls)[0].LaunchTasks? ==> calls == [Answers(calls)[0]])
  {
    hide HandleOffer;
    var calls := HandleOffer(cfg, s, o, t).calls;
    LastCall(cfg, s, o, t);
    DeclinedQuietly(cfg, s, o, t);
    var front, last := calls[..|calls| - 1], calls[|calls| - 1];
    assert calls == front + [last];
    OneCall(last);
    AnswersConcat(front, [last]);
    LaunchedTasksConcat(front, [last]);
    assert |calls| == 1 ==> calls == [last];
  }

  /** The stage an offer for a known host starts with. */
  function OfferStage(s: SchedState, o: Offer, t: Ticks): Stage
    requires o.hostname in s.nodes
  {
    StartStage(s, s.nodes[o.hostname].(lastOffer := t.offerAt), o)
  }

  /** What an offer launches: nothing, a prober, or what the service stage makes of it. */
  lemma LaunchedByOffer(cfg: Config, s: SchedState, o: Offer, t: Ticks)
    ensures var tasks := LaunchedTasks(HandleOffer(cfg, s, o, t).calls);
            || tasks == []
            || tasks == [ProberTask(cfg, o)]
            || (&& !HostRestricted(cfg, o.hostname) && o.hostname in s.nodes && s.persistent.targetVersion != ""
                && tasks == ServiceStage(cfg, o, s.persistent.targetVersion, OfferStage(s, o, t)).tasks)
  {
    hide TaskId, Plan, ServiceStage, HostTaskIds, ShutdownCalls, HostRestricted, ProberTask, Answers, LaunchedTasks;
    var calls := HandleOffer(cfg, s, o, t).calls;
    OfferAnswered(cfg, s, o, t);
    if calls[|calls| - 1].LaunchTasks? {
      OneCall(calls[0]);
      assert calls == [calls[0]];
    } else {
      DeclinedQuietly(cfg, s, o, t);
      OneCall(calls[|calls| - 1]);
      LaunchedTasksConcat(calls[..|calls| - 1], [calls[|calls| - 1]]);
      assert calls == calls[..|calls| - 1] + [calls[|calls| - 1]];
    }
  }

  /** The calls before a final decline answer nothing. */
  lemma DeclinedQuietly(cfg: Config, s: SchedState, o: Offer, t: Ticks)
    ensures var calls := HandleOffer(cfg, s, o, t).calls;
            calls != [] && var front := calls[..|calls| - 1]; Answers(front) == [] && LaunchedTasks(front) == []
  {
    hide TaskId, Plan, ServiceStage, HostTaskIds, ShutdownCalls;
    var calls := HandleOffer(cfg, s, o, t).calls;
    var ids := ReconcileTasks(HostTaskIds(o.hostname));
    OneCall(ids);
    if HostRestricted(cfg, o.hostname) {
    } else if o.hostname !in s.nodes {
      assert calls[..1] == [ids];
    } else {
      var n := s.nodes[o.hostname].(lastOffer := t.offerAt);
      if ProberDue(cfg, n, t) && Contains(o.resources, Plan(cfg, Prober)) {
      } else if ProbeDue(cfg, n, t) {
        var probe := SendProbeRequest(o.slaveId, cfg.clientMountPoint);
        OneCall(probe);
        AnswersConcat([probe], [ids]);
        LaunchedTasksConcat([probe], [ids]);
        assert calls[..2] == [probe] + [ids];
      } else if s.persistent.targetVersion == "" {
        var kills := ShutdownCalls(s, n, o.hostname);
        ShutdownOnlyKills(s, n, o.hostname);
        KillsAnswerNothing(kills);
        assert calls[..|calls| - 1] == kills;
      }
    }
  }

  /**
   * Every offer is answered once: for any batch and any starting state, the k-th answer is the only one for
   * the k-th offer, and it declines that offer or launches a non-empty list on it.
   */
  lemma {:induction false} EveryOfferAnsweredOnce(cfg: Config, s: SchedState, offers: seq<Offer>, ticks: seq<Ticks>)
    requires |ticks| == |offers|
    ensures var answers := Answers(HandleOffers(cfg, s, offers, ticks).calls);
            && |answers| == |offers|
            && forall k | 0 <= k < |offers| :: IsAnswer(answers[k]) && answers[k].offerId == offers[k].id
  {
    hide HandleOffer;
    if offers != [] {
      var k := |offers| - 1;
      var before := HandleOffers(cfg, s, offers[..k], ticks[..k]);
      EveryOfferAnsweredOnce(cfg, s, offers[..k], ticks[..k]);
      OfferAnswered(cfg, before.sched, offers[k], ticks[k]);
      AnswersConcat(before.calls, HandleOffer(cfg, before.sched, offers[k], ticks[k]).calls);
    }
  }

  /** The events one batch of offers amounts to. */
  function OfferEvents(offers: seq<Offer>, ticks: seq<Ticks>): seq<Event>
    requires |ticks| == |offers|
  {
    seq(|offers|, i requires 0 <= i < |offers| => OfferArrives(offers[i], ticks[i]))
  }

  /** A batch is the same as its offers one after the other. */
  lemma {:induction false} BatchIsRun(cfg: Config, s: SchedState, offers: seq<Offer>, ticks: seq<Ticks>)
    requires |ticks| == |offers|
    ensures HandleOffers(cfg, s, offers, ticks).sched == Run(cfg, s, OfferEvents(offers, ticks))
  {
    hide HandleOffer;
    if offers != [] {
      var k := |offers| - 1;
      BatchIsRun(cfg, s, offers[..k], ticks[..k]);
      assert OfferEvents(offers, ticks)[..k] == OfferEvents(offers[..k], ticks[..k]);
    }
  }
}
