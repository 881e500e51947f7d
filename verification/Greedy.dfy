/** When one offer is enough for everything the scheduler wants to start on its host. */
module GreedyLaunch {
  import opened Types
  import opened TaskIds
  import opened ResourcePlans
  import opened Policy
  import opened Launching
  import opened Reactions

  function Need(cfg: Config, wanted: set<Service>, svc: Service): Resources {
    if svc in wanted then Plan(cfg, svc) else NO_RESOURCES
  }

  function TotalOver(cfg: Config, order: seq<Service>, wanted: set<Service>): Resources {
    if order == [] then NO_RESOURCES
    else Plus(TotalOver(cfg, order[..|order| - 1], wanted), Need(cfg, wanted, order[|order| - 1]))
  }

  const STARTABLE := [Api, S3, Webconsole, Client, Registry, Metadata, Data]

  /** The resources of a set of services together. */
  function Total(cfg: Config, wanted: set<Service>): Resources {
    TotalOver(cfg, STARTABLE, wanted)
  }

  function LaunchedSet(tasks: seq<TaskInfo>): set<Service> {
    set t | t in tasks :: t.service
  }

  function WantedSet(cfg: Config, o: Offer, g: Stage, svcs: seq<Service>): set<Service> {
    set svc | svc in svcs && Wanted(cfg, o, g, svc)
  }

  lemma {:induction false} TotalOverOthers(cfg: Config, order: seq<Service>, wanted: set<Service>, svc: Service)
    requires svc !in order
    ensures TotalOver(cfg, order, wanted + {svc}) == TotalOver(cfg, order, wanted)
  {
    hide Plan;
    if order != [] {
      TotalOverOthers(cfg, order[..|order| - 1], wanted, svc);
    }
  }

  lemma {:induction false} TotalOverAdd(cfg: Config, order: seq<Service>, wanted: set<Service>, svc: Service)
    requires svc !in wanted && svc in order && NoRepeats(order)
    ensures TotalOver(cfg, order, wanted + {svc}) == Plus(TotalOver(cfg, order, wanted), Plan(cfg, svc))
  {
    hide Plan;
    var front, last := order[..|order| - 1], order[|order| - 1];
    if svc == last {
      TotalOverOthers(cfg, front, wanted, svc);
    } else {
      TotalOverAdd(cfg, front, wanted, svc);
    }
  }

  lemma TotalAdd(cfg: Config, wanted: set<Service>, svc: Service)
    requires svc !in wanted && svc != Prober
    ensures Total(cfg, wanted + {svc}) == Plus(Total(cfg, wanted), Plan(cfg, svc))
  {
    hide Plan;
    assert svc in STARTABLE;
    TotalOverAdd(cfg, STARTABLE, wanted, svc);
  }

  lemma {:induction false} TotalOverMonotone(cfg: Config, order: seq<Service>, a: set<Service>, b: set<Service>)
    requires a <= b
    ensures Contains(TotalOver(cfg, order, b), TotalOver(cfg, order, a))
  {
    hide Plan;
    if order != [] {
      TotalOverMonotone(cfg, order[..|order| - 1], a, b);
    }
  }

  lemma TotalMonotone(cfg: Config, a: set<Service>, b: set<Service>)
    requires a <= b
    ensures Contains(Total(cfg, b), Total(cfg, a))
  {
    TotalOverMonotone(cfg, STARTABLE, a, b);
  }

  lemma {:induction false} TotalPorts(cfg: Config, order: seq<Service>, wanted: set<Service>, p: int)
    requires p in TotalOver(cfg, order, wanted).ports
    ensures exists svc | svc in wanted :: p in Plan(cfg, svc).ports
  {
    hide Plan;
    var front, last := order[..|order| - 1], order[|order| - 1];
    if p in Need(cfg, wanted, last).ports {
      assert last in wanted;
    } else {
      TotalPorts(cfg, front, wanted, p);
    }
  }

  lemma {:induction false} DebitedIsTotal(cfg: Config, tasks: seq<TaskInfo>)
    requires forall i, j | 0 <= i < j < |tasks| :: tasks[i].service != tasks[j].service
    requires forall t | t in tasks :: t.service != Prober
    ensures Debited(cfg, tasks) == Total(cfg, LaunchedSet(tasks))
  {
    hide Plan, TotalOver;
    if tasks == [] {
      EmptyTotal(cfg, STARTABLE);
      assert LaunchedSet(tasks) == {};
    } else {
      var front, last := tasks[..|tasks| - 1], tasks[|tasks| - 1];
      assert tasks == front + [last];
      DebitedIsTotal(cfg, front);
      LaunchedSetAppend(front, last);
      TotalAdd(cfg, LaunchedSet(front), last.service);
    }
  }

  lemma {:induction false} EmptyTotal(cfg: Config, order: seq<Service>)
    ensures TotalOver(cfg, order, {}) == NO_RESOURCES
  {
    hide Plan, Need, Plus;
    if order != [] {
      EmptyTotal(cfg, order[..|order| - 1]);
      NothingNeeded(cfg, order[|order| - 1]);
      PlusNothing(NO_RESOURCES);
    }
  }

  lemma NothingNeeded(cfg: Config, svc: Service)
    ensures Need(cfg, {}, svc) == NO_RESOURCES
  {
    hide Plan;
  }

  lemma PlusNothing(r: Resources)
    ensures Plus(r, NO_RESOURCES) == r
  {
    hide *;
    assert r.ports + {} == r.ports;
    NoResourcesFields();
    UnfoldPlus(r, NO_RESOURCES);
  }

  lemma NoResourcesFields()
    ensures NO_RESOURCES == Resources(0, 0, 0, {})
  {
  }

  lemma UnfoldPlus(a: Resources, b: Resources)
    ensures Plus(a, b) == Resources(a.cpus + b.cpus, a.mem + b.mem, a.disk + b.disk, a.ports + b.ports)
  {
  }

  lemma LaunchedSetAppend(tasks: seq<TaskInfo>, t: TaskInfo)
    ensures LaunchedSet(tasks + [t]) == LaunchedSet(tasks) + {t.service}
  {
    assert forall x | x in tasks + [t] :: x in tasks || x == t;
    assert t in tasks + [t];
    assert forall x | x in tasks :: x in tasks + [t];
  }

  /** What is left of the offer still covers a service that is wanted but not launched yet. */
  lemma StillFits(cfg: Config, o: Offer, g: Stage, wanted: set<Service>, svc: Service)
    requires Balanced(cfg, o.resources, g)
    requires Debited(cfg, g.tasks) == Total(cfg, LaunchedSet(g.tasks))
    requires DisjointPlans(cfg, wanted) && Contains(o.resources, Total(cfg, wanted))
    requires LaunchedSet(g.tasks) <= wanted && svc in wanted && svc !in LaunchedSet(g.tasks) && svc != Prober
    ensures Contains(g.remaining, Plan(cfg, svc))
  {
    hide Plan, TotalOver;
    var done := LaunchedSet(g.tasks);
    TotalAdd(cfg, done, svc);
    TotalMonotone(cfg, done + {svc}, wanted);
    forall p | p in Plan(cfg, svc).ports
      ensures p in g.remaining.ports
    {
      assert p in o.resources.ports;
      if p in Total(cfg, done).ports {
        TotalPorts(cfg, STARTABLE, done, p);
      }
    }
  }

  /** Every attempt so far has launched exactly the wanted services among those attempted. */
  lemma {:induction false} PrefixLaunched(cfg: Config, o: Offer, version: string, g: Stage, svcs: seq<Service>, wanted: set<Service>)
    requires StartsEmpty(o, g)
    requires WantedSet(cfg, o, g, svcs) <= wanted
    requires DisjointPlans(cfg, wanted) && Contains(o.resources, Total(cfg, wanted))
    ensures LaunchedSet(AttemptAll(cfg, o, version, g, svcs).tasks) == WantedSet(cfg, o, g, svcs)
  {
    hide Plan, Total, TaskId, Wanted, ShortageMessage, Balanced;
    if svcs != [] {
      var front, svc := svcs[..|svcs| - 1], svcs[|svcs| - 1];
      assert svcs == front + [svc];
      var h := AttemptAll(cfg, o, version, g, front);
      PrefixLaunched(cfg, o, version, g, front, wanted);
      assert LaunchedSet(h.tasks) == WantedSet(cfg, o, g, front);
      AttemptLaunches(cfg, o, version, g, front, wanted, svc);
      assert WantedSet(cfg, o, g, svcs)
          == WantedSet(cfg, o, g, front) + if Wanted(cfg, o, g, svc) then {svc} else {};
    }
  }

  lemma AttemptLaunches(cfg: Config, o: Offer, version: string, g: Stage, front: seq<Service>, wanted: set<Service>, svc: Service)
    requires StartsEmpty(o, g)
    requires DisjointPlans(cfg, wanted) && Contains(o.resources, Total(cfg, wanted))
    requires WantedSet(cfg, o, g, front) <= wanted
    requires Wanted(cfg, o, g, svc) ==> svc in wanted
    requires LaunchedSet(AttemptAll(cfg, o, version, g, front).tasks) == WantedSet(cfg, o, g, front)
    ensures var h := AttemptAll(cfg, o, version, g, front);
            LaunchedSet(Attempt(cfg, o, version, h, svc).tasks)
            == LaunchedSet(h.tasks) + if Wanted(cfg, o, g, svc) then {svc} else {}
  {
    hide Plan, Total, TaskId, ShortageMessage, Balanced, DoStartService, RoleAllows, LaunchEffect;
    var h := AttemptAll(cfg, o, version, g, front);
    AttemptAllInv(cfg, o, version, g, front);
    OfferLedger(cfg, o, version, g, front);
    WantedStable(cfg, o, version, g, h, svc);
    LaunchedAppend(h.tasks, TaskFor(cfg, version, svc, o), svc);
    LaunchedSetAppend(h.tasks, TaskFor(cfg, version, svc, o));
    if Wanted(cfg, o, g, svc) && svc !in LaunchedSet(h.tasks) {
      DebitedIsTotal(cfg, h.tasks);
      StillFits(cfg, o, h, wanted, svc);
    }
  }

  /**
   * Greedy completeness: with pairwise disjoint port plans, one offer launches every wanted service
   * exactly when it contains their total resources.
   */
  lemma GreedyCompleteness(cfg: Config, o: Offer, version: string, g: Stage)
    requires StartsEmpty(o, g)
    requires DisjointPlans(cfg, WantedSet(cfg, o, g, Agenda(g.node.deviceTypes)))
    ensures var wanted := WantedSet(cfg, o, g, Agenda(g.node.deviceTypes));
            LaunchedSet(ServiceStage(cfg, o, version, g).tasks) == wanted
            <==> Contains(o.resources, Total(cfg, wanted))
  {
    hide Plan, Total, TaskId, Wanted;
    var svcs := Agenda(g.node.deviceTypes);
    var wanted := WantedSet(cfg, o, g, svcs);
    var h := ServiceStage(cfg, o, version, g);
    if Contains(o.resources, Total(cfg, wanted)) {
      PrefixLaunched(cfg, o, version, g, svcs, wanted);
    }
    if LaunchedSet(h.tasks) == wanted {
      AttemptAllInv(cfg, o, version, g, svcs);
      OfferLedger(cfg, o, version, g, svcs);
      ProberNeverWanted(cfg, o, g);
      DebitedIsTotal(cfg, h.tasks);
    }
  }

  lemma ProberNeverWanted(cfg: Config, o: Offer, g: Stage)
    ensures !Wanted(cfg, o, g, Prober)
  {
  }

  /** With enough resources the launched set does not depend on the order of the device list. */
  lemma OrderIrrelevant(cfg: Config, o: Offer, version: string, g: Stage, ds: seq<DeviceType>)
    requires StartsEmpty(o, g)
    requires multiset(ds) == multiset(g.node.deviceTypes)
    requires var wanted := WantedSet(cfg, o, g, Agenda(g.node.deviceTypes));
             DisjointPlans(cfg, wanted) && Contains(o.resources, Total(cfg, wanted))
    ensures LaunchedSet(ServiceStage(cfg, o, version, g.(node := g.node.(deviceTypes := ds))).tasks)
         == LaunchedSet(ServiceStage(cfg, o, version, g).tasks)
  {
    hide Plan, Total, TaskId;
    var g' := g.(node := g.node.(deviceTypes := ds));
    var svcs, svcs' := Agenda(g.node.deviceTypes), Agenda(ds);
    forall svc
      ensures svc in svcs <==> svc in svcs'
      ensures Wanted(cfg, o, g, svc) <==> Wanted(cfg, o, g', svc)
    {
      SameDevices(ds, g.node.deviceTypes, svc);
      SameWanted(cfg, o, g, ds, svc);
    }
    assert WantedSet(cfg, o, g', svcs') == WantedSet(cfg, o, g, svcs);
    GreedyCompleteness(cfg, o, version, g);
    GreedyCompleteness(cfg, o, version, g');
  }

  lemma SameDevices(ds: seq<DeviceType>, es: seq<DeviceType>, svc: Service)
    requires multiset(ds) == multiset(es)
    ensures svc in Agenda(ds) <==> svc in Agenda(es)
  {
    ListedDevices(ds, svc);
    ListedDevices(es, svc);
    assert forall d :: d in ds <==> d in multiset(ds);
    assert forall d :: d in es <==> d in multiset(es);
  }

  lemma SameWanted(cfg: Config, o: Offer, g: Stage, ds: seq<DeviceType>, svc: Service)
    requires multiset(ds) == multiset(g.node.deviceTypes)
    ensures Wanted(cfg, o, g, svc) <==> Wanted(cfg, o, g.(node := g.node.(deviceTypes := ds)), svc)
  {
    assert |ds| == |multiset(ds)| == |multiset(g.node.deviceTypes)| == |g.node.deviceTypes|;
  }

  /** The offer gets as far as the service stage. */
  predicate ReachesServices(cfg: Config, s: SchedState, o: Offer, t: Ticks) {
    && !HostRestricted(cfg, o.hostname)
    && o.hostname in s.nodes
    && s.persistent.targetVersion != ""
    && !(ProberDue(cfg, s.nodes[o.hostname], t) && Contains(o.resources, Plan(cfg, Prober)))
    && !ProbeDue(cfg, s.nodes[o.hostname], t)
  }

  /** The services an offer's host could use, judged on the state the offer finds. */
  function WantedFor(cfg: Config, s: SchedState, o: Offer): set<Service>
    requires o.hostname in s.nodes
  {
    WantedSet(cfg, o, StartStage(s, s.nodes[o.hostname], o), Agenda(s.nodes[o.hostname].deviceTypes))
  }

  /**
   * Greedy completeness of the callback: an offer that reaches the service stage starts exactly the wanted
   * services if and only if it holds their total resources (for pairwise disjoint port plans).
   */
  lemma OfferStartsAllWanted(cfg: Config, s: SchedState, o: Offer, t: Ticks)
    requires ReachesServices(cfg, s, o, t)
    requires DisjointPlans(cfg, WantedFor(cfg, s, o))
    ensures LaunchedSet(LaunchedTasks(HandleOffer(cfg, s, o, t).calls)) == WantedFor(cfg, s, o)
            <==> Contains(o.resources, Total(cfg, WantedFor(cfg, s, o)))
  {
    hide Plan, Total, TaskId, ServiceStage, HostRestricted;
    var known := s.nodes[o.hostname];
    var n := known.(lastOffer := t.offerAt);
    var g, g' := StartStage(s, known, o), StartStage(s, n, o);
    TimestampIrrelevant(cfg, o, g, t.offerAt, Agenda(n.deviceTypes));
    GreedyCompleteness(cfg, o, s.persistent.targetVersion, g');
    StageCalls(cfg, s, o, t);
  }

  lemma StageCalls(cfg: Config, s: SchedState, o: Offer, t: Ticks)
    requires ReachesServices(cfg, s, o, t)
    ensures LaunchedTasks(HandleOffer(cfg, s, o, t).calls)
         == ServiceStage(cfg, o, s.persistent.targetVersion, StartStage(s, s.nodes[o.hostname].(lastOffer := t.offerAt), o)).tasks
  {
    hide Plan, TaskId, ServiceStage, HostRestricted, HostTaskIds;
    OneCall(HandleOffer(cfg, s, o, t).calls[0]);
  }

  lemma TimestampIrrelevant(cfg: Config, o: Offer, g: Stage, at: int, svcs: seq<Service>)
    ensures WantedSet(cfg, o, g, svcs) == WantedSet(cfg, o, g.(node := g.node.(lastOffer := at)), svcs)
  {
  }

  // ------------------------------------------------------------ which services an offer starts, whatever it holds

  lemma {:induction false} AttemptAllConcat(cfg: Config, o: Offer, version: string, g: Stage, a: seq<Service>, b: seq<Service>)
    ensures AttemptAll(cfg, o, version, g, a + b) == AttemptAll(cfg, o, version, AttemptAll(cfg, o, version, g, a), b)
  {
    hide Attempt;
    if b == [] {
      assert a + b == a;
    } else {
      assert (a + b)[..|a + b| - 1] == a + b[..|b| - 1];
      AttemptAllConcat(cfg, o, version, g, a, b[..|b| - 1]);
    }
  }

  /** One attempt launches the service exactly if it is wanted and fits, and nothing else. */
  lemma AttemptSet(cfg: Config, o: Offer, version: string, g: Stage, svc: Service)
    ensures var h := Attempt(cfg, o, version, g, svc);
            && LaunchedSet(h.tasks)
               == LaunchedSet(g.tasks) + (if Wanted(cfg, o, g, svc) && Contains(g.remaining, Plan(cfg, svc)) then {svc} else {})
            && Contains(g.remaining, h.remaining)
  {
    hide Plan, TaskId, Wanted, ShortageMessage;
    LaunchedSetAppend(g.tasks, TaskFor(cfg, version, svc, o));
  }

  /** A service that was attempted but not launched was not wanted, or does not fit what is left. */
  lemma {:induction false} LeftOut(cfg: Config, o: Offer, version: string, g: Stage, svcs: seq<Service>, svc: Service)
    requires StartsEmpty(o, g) && svc in svcs
    requires svc !in LaunchedSet(AttemptAll(cfg, o, version, g, svcs).tasks)
    ensures !Wanted(cfg, o, g, svc) || !Contains(AttemptAll(cfg, o, version, g, svcs).remaining, Plan(cfg, svc))
  {
    hide Plan, TaskId, Wanted, Attempt, LaunchEffect, LaunchedSet;
    var front, last := svcs[..|svcs| - 1], svcs[|svcs| - 1];
    assert svcs == front + [last];
    var h := AttemptAll(cfg, o, version, g, front);
    AttemptSet(cfg, o, version, h, last);
    if svc in front {
      LeftOut(cfg, o, version, g, front, svc);
    } else {
      AttemptAllInv(cfg, o, version, g, front);
      NotLaunched(h.tasks, svc);
      WantedStable(cfg, o, version, g, h, svc);
    }
  }

  lemma NotLaunched(tasks: seq<TaskInfo>, svc: Service)
    ensures svc in LaunchedSet(tasks) <==> Launched(tasks, svc)
  {
  }

  /** What was not launched when it was first attempted is not launched later. */
  lemma {:induction false} StaysOut(cfg: Config, o: Offer, version: string, g: Stage, front: seq<Service>, rest: seq<Service>, svc: Service)
    requires StartsEmpty(o, g) && svc in front
    requires svc !in LaunchedSet(AttemptAll(cfg, o, version, g, front).tasks)
    ensures svc !in LaunchedSet(AttemptAll(cfg, o, version, g, front + rest).tasks)
  {
    hide Plan, TaskId, Wanted, Attempt, LaunchEffect, LaunchedSet;
    if rest == [] {
      assert front + rest == front;
    } else {
      var more, last := rest[..|rest| - 1], rest[|rest| - 1];
      StaysOut(cfg, o, version, g, front, more, svc);
      var h := AttemptAll(cfg, o, version, g, front + more);
      assert (front + rest)[..|front + rest| - 1] == front + more;
      AttemptSet(cfg, o, version, h, last);
      if last == svc {
        LeftOut(cfg, o, version, g, front + more, svc);
        AttemptAllInv(cfg, o, version, g, front + more);
        WantedStable(cfg, o, version, g, h, svc);
      }
    }
  }

  /** What is launched stays launched, and comes from the agenda. */
  lemma {:induction false} LaunchedGrows(cfg: Config, o: Offer, version: string, g: Stage, front: seq<Service>, rest: seq<Service>)
    requires StartsEmpty(o, g)
    ensures LaunchedSet(AttemptAll(cfg, o, version, g, front).tasks) <= LaunchedSet(AttemptAll(cfg, o, version, g, front + rest).tasks)
    ensures LaunchedSet(AttemptAll(cfg, o, version, g, front).tasks) <= Elements(front)
  {
    hide Plan, TaskId, Wanted, Attempt, LaunchedSet;
    if rest == [] {
      assert front + rest == front;
      OnlyAttempted(cfg, o, version, g, front);
    } else {
      var more := rest[..|rest| - 1];
      LaunchedGrows(cfg, o, version, g, front, more);
      assert (front + rest)[..|front + rest| - 1] == front + more;
      AttemptSet(cfg, o, version, AttemptAll(cfg, o, version, g, front + more), rest[|rest| - 1]);
    }
  }

  lemma OnlyAttempted(cfg: Config, o: Offer, version: string, g: Stage, svcs: seq<Service>)
    requires StartsEmpty(o, g)
    ensures LaunchedSet(AttemptAll(cfg, o, version, g, svcs).tasks) <= Elements(svcs)
  {
    hide AttemptAll;
    forall task | task in AttemptAll(cfg, o, version, g, svcs).tasks
      ensures task.service in svcs
    {
      OnlyListedLaunched(cfg, o, version, g, svcs, task);
    }
  }

  /** `plan` fits what is left of `offered` once `used` is taken out of it. */
  predicate FitsBeside(offered: Resources, used: Resources, plan: Resources) {
    Contains(offered, used) && Contains(Minus(offered, used), plan)
  }

  lemma RemainingIsMinus(cfg: Config, o: Offer, version: string, g: Stage, svcs: seq<Service>)
    requires StartsEmpty(o, g)
    ensures var h := AttemptAll(cfg, o, version, g, svcs);
            var used := Total(cfg, LaunchedSet(h.tasks));
            Contains(o.resources, used) && h.remaining == Minus(o.resources, used)
  {
    hide Plan, TaskId, Wanted, Attempt, LaunchEffect, Total, LaunchedSet, Debited, Carried, DisjointPorts;
    var h := AttemptAll(cfg, o, version, g, svcs);
    AttemptAllInv(cfg, o, version, g, svcs);
    OfferLedger(cfg, o, version, g, svcs);
    ProberNeverWanted(cfg, o, g);
    DebitedIsTotal(cfg, h.tasks);
  }

  /**
   * Which services an offer starts, whatever it holds: a service is started exactly if it is wanted and its plan fits
   * beside the plans of the services started before it on the agenda.
   */
  lemma StartedInTurn(cfg: Config, o: Offer, version: string, g: Stage, front: seq<Service>, svc: Service, rest: seq<Service>)
    requires StartsEmpty(o, g) && Agenda(g.node.deviceTypes) == front + [svc] + rest && svc !in front
    ensures var all := LaunchedSet(ServiceStage(cfg, o, version, g).tasks);
            svc in all <==> Wanted(cfg, o, g, svc) && FitsBeside(o.resources, Total(cfg, all * Elements(front)), Plan(cfg, svc))
  {
    hide Plan, TaskId, Wanted, Attempt, LaunchEffect, Total, LaunchedSet, Agenda, FitsBeside;
    var svcs := front + [svc] + rest;
    var h := AttemptAll(cfg, o, version, g, front);
    var all := LaunchedSet(AttemptAll(cfg, o, version, g, svcs).tasks);
    StageAtFront(cfg, o, version, g, front, [svc] + rest);
    assert svcs == front + ([svc] + rest);
    RemainingIsMinus(cfg, o, version, g, front);
    AttemptAllInv(cfg, o, version, g, front);
    NotLaunched(h.tasks, svc);
    OnlyAttempted(cfg, o, version, g, front);
    WantedStable(cfg, o, version, g, h, svc);
    AttemptSet(cfg, o, version, h, svc);
    assert (front + [svc])[..|front|] == front;
    LaunchedGrows(cfg, o, version, g, front + [svc], rest);
    if svc !in LaunchedSet(Attempt(cfg, o, version, h, svc).tasks) {
      StaysOut(cfg, o, version, g, front + [svc], rest, svc);
    }
    FitsUnfold(o.resources, Total(cfg, LaunchedSet(h.tasks)), Plan(cfg, svc));
  }

  lemma FitsUnfold(offered: Resources, used: Resources, plan: Resources)
    requires Contains(offered, used)
    ensures FitsBeside(offered, used, plan) <==> Contains(Minus(offered, used), plan)
  {
  }

  /** The services started by the end that were attempted first are those started at that point. */
  lemma StageAtFront(cfg: Config, o: Offer, version: string, g: Stage, front: seq<Service>, rest: seq<Service>)
    requires StartsEmpty(o, g)
    ensures LaunchedSet(AttemptAll(cfg, o, version, g, front).tasks)
         == LaunchedSet(AttemptAll(cfg, o, version, g, front + rest).tasks) * Elements(front)
  {
    hide Plan, TaskId, Wanted, Attempt, LaunchedSet, AttemptAll;
    LaunchedGrows(cfg, o, version, g, front, rest);
    forall svc | svc in Elements(front) && svc !in LaunchedSet(AttemptAll(cfg, o, version, g, front).tasks)
      ensures svc !in LaunchedSet(AttemptAll(cfg, o, version, g, front + rest).tasks)
    {
      StaysOut(cfg, o, version, g, front, rest, svc);
    }
  }
}
