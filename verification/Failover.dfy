/** When a scheduler restart endangers the uniqueness of a singleton, and by how much. */
module SingletonFailover {
  import opened Types
  import opened TaskIds
  import opened ResourcePlans
  import opened Launching
  import opened Reactions
  import opened Slots
  import opened History
  import opened Cluster
  import opened Startability

  // ------------------------------------------------------------ restarts that are safe

  /** The scheduler restarts only while no task of the singleton is live. */
  predicate RestartsIdle(cfg: Config, w: World, es: seq<WorldEvent>, svc: Service) {
    es == []
    || (&& RestartsIdle(cfg, w, es[..|es| - 1], svc)
        && (IsRestart(es[|es| - 1]) ==> LiveOf(After(cfg, w, es[..|es| - 1]), svc) == {}))
  }

  /** One singleton at most, and that one recorded. */
  ghost predicate Unique(w: World, svc: Service)
    requires IsSingleton(svc)
  {
    LiveOk(w) && IdInv(w.sched) && Excess(w, svc) == {} && |LiveOf(w, svc)| <= 1
  }

  lemma UniqueStep(cfg: Config, w: World, e: WorldEvent, svc: Service)
    requires IsSingleton(svc) && Unique(w, svc) && Enabled(w, e) && Honest(w, e)
    requires IsRestart(e) ==> LiveOf(w, svc) == {}
    ensures Unique(Apply(cfg, w, e), svc)
  {
    hide Apply, TaskId, IdInv, LiveOk, Enabled, Honest, IsRestart, Excess, LiveOf;
    LiveOkStep(cfg, w, e);
    IdInvApply(cfg, w, e);
    if IsRestart(e) {
      RestartExcess(cfg, w, e, svc);
    } else {
      ExcessNeverGrows(cfg, w, e, svc);
      LiveSingletonStep(cfg, w, e, svc);
    }
  }

  /** Restarts that find no task of the singleton alive leave it unique, in every run. */
  lemma {:induction false} SafeRestarts(cfg: Config, w: World, es: seq<WorldEvent>, svc: Service)
    requires IsSingleton(svc) && Unique(w, svc) && IsHonestRun(cfg, w, es) && RestartsIdle(cfg, w, es, svc)
    ensures Unique(After(cfg, w, es), svc)
  {
    hide Apply, Unique, Enabled, Honest, IsRestart, LiveOf;
    if es != [] {
      var front := es[..|es| - 1];
      SafeRestarts(cfg, w, front, svc);
      UniqueStep(cfg, After(cfg, w, front), es[|es| - 1], svc);
    }
  }

  lemma {:induction false} NoRestartsIdle(cfg: Config, w: World, es: seq<WorldEvent>, svc: Service)
    requires Restarts(es) == 0
    ensures RestartsIdle(cfg, w, es, svc)
  {
    hide Apply, IsRestart, LiveOf;
    if es != [] {
      NoRestartsIdle(cfg, w, es[..|es| - 1], svc);
    }
  }

  // ------------------------------------------------------------ exactly when a restart is safe

  const RESTART := Callback(Restart, {})

  lemma RestartWorld(cfg: Config, w: World)
    ensures Apply(cfg, w, RESTART) == w.(sched := FreshSched(w.sched.persistent))
    ensures May(w, RESTART) && IsRestart(RESTART)
  {
    assert Remember(w.past, Restart, []) == w.past;
  }

  /** A run, then a restart. */
  lemma ThenRestart(cfg: Config, w: World, es: seq<WorldEvent>)
    requires IsGenuineRun(cfg, w, es)
    ensures IsGenuineRun(cfg, w, es + [RESTART]) && Restarts(es + [RESTART]) == Restarts(es) + 1
    ensures After(cfg, w, es + [RESTART])
         == After(cfg, w, es).(sched := FreshSched(After(cfg, w, es).sched.persistent))
  {
    hide Apply, Enabled, Honest, Warranted, OnTime, IsRestart;
    RestartWorld(cfg, After(cfg, w, es));
    assert (es + [RESTART])[..|es|] == es;
  }

  lemma {:induction false} LongerThanAll(names: set<string>) returns (k: nat)
    ensures forall s | s in names :: |s| < k
  {
    if names == {} {
      k := 0;
    } else {
      var s :| s in names;
      var rest := LongerThanAll(names - {s});
      k := if rest > |s| then rest else |s| + 1;
      assert forall x | x in names :: x == s || x in names - {s};
    }
  }

  /** There is always another name, and one without a dash. */
  lemma FreshName(names: set<string>) returns (name: string)
    ensures name !in names && '-' !in name
  {
    var k := LongerThanAll(names);
    name := seq(k, i => 'x');
  }

  /** There is always an id that starts no id in use. */
  lemma FreshPrefix(names: set<string>) returns (id: string)
    ensures forall other | other in names :: !(id <= other)
  {
    var k := LongerThanAll(names);
    id := seq(k, i => 'x');
  }

  lemma OneMoreCount(w: World, end: World, svc: Service, host: string, slaveId: string)
    requires OneMore(w, end, svc, host, slaveId)
    ensures |LiveOf(end, svc)| == |LiveOf(w, svc)| + 1
  {
    var n :| n in end.live && n !in w.live && end.live[n].host == host && end.live[n].task.service == svc
             && end.live == w.live[n := end.live[n]];
    assert LiveOf(end, svc) == LiveOf(w, svc) + {n};
  }

  /** From any restarted scheduler, some genuine run without a restart has one more task of the singleton live. */
  lemma OneMoreRun(cfg: Config, w: World, svc: Service, host: string) returns (es: seq<WorldEvent>)
    requires IsSingleton(svc) && (svc == S3 ==> cfg.s3Hostname != "")
    requires LiveOk(w) && w.sched == FreshSched(w.sched.persistent)
    requires '-' !in host && !HostRestricted(cfg, host) && IdleHost(w, host)
    ensures IsGenuineRun(cfg, w, es) && Restarts(es) == 0
    ensures |LiveOf(After(cfg, w, es), svc)| == |LiveOf(w, svc)| + 1
  {
    hide LiveOk, StartRun, After, IsGenuineRun, Restarts, LiveOf, Leads, OneMore, StartTime, HostRestricted, IdleHost;
    var slaveId := FreshName(w.past.agents.Keys);
    var id := FreshPrefix(w.offers.Keys);
    var end := StartRunLeads(cfg, w, svc, host, slaveId, id);
    es := StartRun(cfg, w.sched.persistent, svc, host, slaveId, id, StartTime(cfg, w.past.clock), w.next);
    LeadsFacts(cfg, w, es, end);
    OneMoreCount(w, end, svc, host, slaveId);
  }

  lemma LiveOkKept(w: World, s: SchedState)
    requires LiveOk(w)
    ensures LiveOk(w.(sched := s))
  {
    hide TaskId;
  }

  lemma FreshUnique(w: World, svc: Service)
    requires IsSingleton(svc) && LiveOk(w) && LiveOf(w, svc) == {}
    ensures Unique(w.(sched := FreshSched(w.sched.persistent)), svc)
  {
    hide TaskId;
    LiveOkKept(w, FreshSched(w.sched.persistent));
    IdInvInitially(w.sched.persistent);
  }

  /**
   * A restart is safe for a singleton exactly when none of its tasks is live: given one idle, allowed, dash-free
   * host, every genuine restart-free continuation keeps at most one live task iff there was none at the restart.
   */
  lemma RestartSafeIff(cfg: Config, w: World, svc: Service, host: string)
    requires IsSingleton(svc) && LiveOk(w) && (svc == S3 ==> cfg.s3Hostname != "")
    requires '-' !in host && !HostRestricted(cfg, host) && IdleHost(w, host)
    ensures (forall es | IsGenuineRun(cfg, Apply(cfg, w, RESTART), es) && Restarts(es) == 0 ::
               |LiveOf(After(cfg, Apply(cfg, w, RESTART), es), svc)| <= 1)
            <==> LiveOf(w, svc) == {}
  {
    hide Apply, HostRestricted, TaskId, LiveOk, After, IsHonestRun, IsWarrantedRun, IsTimedRun, Restarts, RestartsIdle, May;
    var w' := Apply(cfg, w, RESTART);
    RestartWorld(cfg, w);
    if LiveOf(w, svc) == {} {
      FreshUnique(w, svc);
      forall es | IsGenuineRun(cfg, w', es) && Restarts(es) == 0
        ensures |LiveOf(After(cfg, w', es), svc)| <= 1
      {
        NoRestartsIdle(cfg, w', es, svc);
        SafeRestarts(cfg, w', es, svc);
      }
    } else {
      LiveOkKept(w, w'.sched);
      var es := OneMoreRun(cfg, w', svc, host);
      assert IsGenuineRun(cfg, w', es) && Restarts(es) == 0;
      assert LiveOf(w', svc) == LiveOf(w, svc);
    }
  }

  /** The run that starts the singleton on host a, a restart, and the run that starts it on host b. */
  function TwoStarts(cfg: Config, p: Persistent, svc: Service, a: string, b: string): seq<WorldEvent> {
    var first := StartRun(cfg, p, svc, a, a, "a", StartTime(cfg, 0), 0) + [RESTART];
    var w := After(cfg, FreshWorld(p), first);
    first + StartRun(cfg, w.sched.persistent, svc, b, b, "b", StartTime(cfg, w.past.clock), w.next)
  }

  /**
   * The failing input. On each of two hosts: a first offer, a second one on which the prober is launched, its report,
   * an offer after which the agent is asked, the agent's answer, loss reports that answer the reconciliation requests
   * made with these offers, and an offer that starts the singleton; between the hosts one restart. Every event keeps
   * all obligations of the environment, and two tasks of the singleton are live in the end.
   */
  lemma TwoAfterOneRestart(cfg: Config, p: Persistent, svc: Service, a: string, b: string)
    requires IsSingleton(svc) && (svc == S3 ==> cfg.s3Hostname != "")
    requires a != b && '-' !in a && '-' !in b && !HostRestricted(cfg, a) && !HostRestricted(cfg, b)
    ensures var es := TwoStarts(cfg, p, svc, a, b);
            && IsGenuineRun(cfg, FreshWorld(p), es) && Restarts(es) == 1
            && |LiveOf(After(cfg, FreshWorld(p), es), svc)| == 2
  {
    hide TaskId, After, IsGenuineRun, Restarts, StartRun, HostRestricted, LiveOk, Leads, StartTime;
    var w0 := FreshWorld(p);
    FreshBound(p, svc);
    var end1 := StartRunLeads(cfg, w0, svc, a, a, "a");
    var es1 := StartRun(cfg, p, svc, a, a, "a", StartTime(cfg, 0), 0);
    LeadsFacts(cfg, w0, es1, end1);
    OneMoreCount(w0, end1, svc, a, a);
    ThenRestart(cfg, w0, es1);
    var w := After(cfg, w0, es1 + [RESTART]);
    LiveOkRun(cfg, w0, es1 + [RESTART]);
    var end2 := StartRunLeads(cfg, w, svc, b, b, "b");
    var es2 := StartRun(cfg, w.sched.persistent, svc, b, b, "b", StartTime(cfg, w.past.clock), w.next);
    LeadsFacts(cfg, w, es2, end2);
    OneMoreCount(w, end2, svc, b, b);
    AfterConcat(cfg, w0, es1 + [RESTART], es2);
    GenuineConcat(cfg, w0, es1 + [RESTART], es2);
    assert LiveOf(w, svc) == LiveOf(end1, svc);
  }

  /**
   * The bound of SingletonBound is reached: for every r some genuine run from an empty cluster restarts the scheduler
   * r times and ends with r + 1 live tasks of the singleton.
   */
  lemma {:induction false} SingletonBoundReached(cfg: Config, p: Persistent, svc: Service, r: nat)
    requires IsSingleton(svc) && cfg.restrictHosts == "" && (svc == S3 ==> cfg.s3Hostname != "")
    ensures exists es :: IsGenuineRun(cfg, FreshWorld(p), es) && Restarts(es) == r
                         && |LiveOf(After(cfg, FreshWorld(p), es), svc)| == r + 1
  {
    hide Apply, TaskId, After, IsGenuineRun, Restarts, LiveOk;
    var w0 := FreshWorld(p);
    FreshBound(p, svc);
    var es: seq<WorldEvent> := [];
    NoEvents(cfg, w0);
    if r > 0 {
      SingletonBoundReached(cfg, p, svc, r - 1);
      var before :| IsGenuineRun(cfg, w0, before) && Restarts(before) == r - 1 && |LiveOf(After(cfg, w0, before), svc)| == r;
      ThenRestart(cfg, w0, before);
      es := before + [RESTART];
      assert LiveOf(After(cfg, w0, es), svc) == LiveOf(After(cfg, w0, before), svc);
    }
    var w := After(cfg, w0, es);
    LiveOkRun(cfg, w0, es);
    var hosts := (set n | n in w.live :: w.live[n].host) + (set id | id in w.offers :: w.offers[id].hostname);
    var host := FreshName(hosts);
    var more := OneMoreRun(cfg, w, svc, host);
    GenuineConcat(cfg, w0, es, more);
    AfterConcat(cfg, w0, es, more);
  }
}
