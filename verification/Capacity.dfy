/** Scalar resources per host: the scheduler never makes the cluster hold more than a conserving master offered. */
module Capacity {
  import opened Types
  import opened TaskIds
  import opened ResourcePlans
  import opened Launching
  import opened Reactions
  import opened Cluster

  // ------------------------------------------------------ sums over maps

  ghost function Pick<K>(m: map<K, nat>): K
    requires m != map[]
    ensures Pick(m) in m
  {
    assert exists k :: k in m by {
      assert m.Keys != {};
    }
    var k :| k in m;
    k
  }

  ghost function Sum<K>(m: map<K, nat>): nat
    decreases |m|
  {
    if m == map[] then 0
    else
      var k := Pick(m);
      m[k] + Sum(m - {k})
  }

  lemma {:induction false} SumRemove<K>(m: map<K, nat>, k: K)
    requires k in m
    ensures Sum(m) == m[k] + Sum(m - {k})
    decreases |m|
  {
    var p := Pick(m);
    if p != k {
      SumRemove(m - {p}, k);
      SumRemove(m - {k}, p);
      assert m - {p} - {k} == m - {k} - {p};
    }
  }

  lemma SumEmpty<K>()
    ensures Sum<K>(map[]) == 0
  {
  }

  lemma {:induction false} SumUnion<K>(a: map<K, nat>, b: map<K, nat>)
    requires a.Keys !! b.Keys
    ensures Sum(a + b) == Sum(a) + Sum(b)
    decreases |b|
  {
    hide Sum;
    if b == map[] {
      assert a + b == a;
      SumEmpty<K>();
    } else {
      var k := Pick(b);
      SumRemove(a + b, k);
      SumRemove(b, k);
      UnionMinus(a, b, k);
      SumUnion(a, b - {k});
    }
  }

  lemma UnionMinus<K>(a: map<K, nat>, b: map<K, nat>, k: K)
    requires a.Keys !! b.Keys && k in b
    ensures (a + b) - {k} == a + (b - {k})
    ensures (a + b)[k] == b[k]
    ensures |b - {k}| < |b|
  {
    assert ((a + b) - {k}).Keys == (a + (b - {k})).Keys;
    assert (b - {k}).Keys == b.Keys - {k};
  }

  // ------------------------------------------------------ load of a host

  datatype Scalar = Cpus | Mem | Disk

  function Amount(r: Resources, kind: Scalar): nat {
    match kind
    case Cpus => r.cpus
    case Mem => r.mem
    case Disk => r.disk
  }

  function LiveLoads(live: map<nat, LiveTask>, host: string, kind: Scalar): map<nat, nat> {
    map n | n in live && live[n].host == host :: Amount(live[n].task.resources, kind)
  }

  function OfferLoads(offers: map<string, Offer>, host: string, kind: Scalar): map<string, nat> {
    map id | id in offers && offers[id].hostname == host :: Amount(offers[id].resources, kind)
  }

  /** What live tasks ask for on a host plus what is out on offer there. */
  ghost function Load(w: World, host: string, kind: Scalar): nat {
    Sum<nat>(LiveLoads(w.live, host, kind)) + Sum<string>(OfferLoads(w.offers, host, kind))
  }

  /** A conserving master offers only what is neither in use nor already on offer. */
  ghost predicate Conserving(w: World, e: WorldEvent, capacity: string -> Resources) {
    e.OfferMade? ==>
      forall kind :: Load(w, e.offer.hostname, kind) + Amount(e.offer.resources, kind) <= Amount(capacity(e.offer.hostname), kind)
  }

  ghost predicate IsConservingRun(cfg: Config, w: World, es: seq<WorldEvent>, capacity: string -> Resources) {
    es == []
    || (&& IsConservingRun(cfg, w, es[..|es| - 1], capacity)
        && Enabled(After(cfg, w, es[..|es| - 1]), es[|es| - 1])
        && Conserving(After(cfg, w, es[..|es| - 1]), es[|es| - 1], capacity))
  }

  lemma CarriedNext(tasks: seq<TaskInfo>, kind: Scalar)
    requires tasks != []
    ensures Amount(Carried(tasks), kind)
         == Amount(Carried(tasks[..|tasks| - 1]), kind) + Amount(tasks[|tasks| - 1].resources, kind)
  {
  }

  /** The loads of a launch, split into those of its last task and of the others. */
  lemma LoadsSplit(w: World, o: Offer, tasks: seq<TaskInfo>, accepted: set<nat>, host: string, kind: Scalar)
    requires tasks != []
    ensures var k := |tasks| - 1;
            var all := LiveLoads(NewInstances(w, o, tasks, accepted), host, kind);
            && LiveLoads(NewInstances(w, o, tasks[..k], accepted), host, kind) == all - {w.next + k}
            && (w.next + k in all ==> all[w.next + k] == Amount(tasks[k].resources, kind))
  {
    hide Amount;
    var k := |tasks| - 1;
    var all: map<nat, nat> := LiveLoads(NewInstances(w, o, tasks, accepted), host, kind);
    var front: map<nat, nat> := LiveLoads(NewInstances(w, o, tasks[..k], accepted), host, kind);
    assert forall n | n in front :: n in all && all[n] == front[n] && n != w.next + k;
    assert forall n | n in all && n != w.next + k :: n in front;
  }

  /** Adding one more launched task adds at most its own load. */
  lemma NewLoadNext(w: World, o: Offer, tasks: seq<TaskInfo>, accepted: set<nat>, host: string, kind: Scalar)
    requires tasks != []
    ensures var k := |tasks| - 1;
            Sum<nat>(LiveLoads(NewInstances(w, o, tasks, accepted), host, kind))
            <= Sum<nat>(LiveLoads(NewInstances(w, o, tasks[..k], accepted), host, kind)) + Amount(tasks[k].resources, kind)
  {
    hide Sum, Amount, LiveLoads, NewInstances;
    var last := w.next + |tasks| - 1;
    var all: map<nat, nat> := LiveLoads(NewInstances(w, o, tasks, accepted), host, kind);
    LoadsSplit(w, o, tasks, accepted, host, kind);
    if last in all {
      SumRemove<nat>(all, last);
    } else {
      assert all - {last} == all;
    }
  }

  lemma {:induction false} NewLoad(w: World, o: Offer, tasks: seq<TaskInfo>, accepted: set<nat>, host: string, kind: Scalar)
    ensures Sum<nat>(LiveLoads(NewInstances(w, o, tasks, accepted), host, kind)) <= Amount(Carried(tasks), kind)
  {
    hide Sum, Amount, Carried;
    if tasks == [] {
      assert LiveLoads(NewInstances(w, o, tasks, accepted), host, kind) == map[];
      SumEmpty<nat>();
    } else {
      NewLoad(w, o, tasks[..|tasks| - 1], accepted, host, kind);
      NewLoadNext(w, o, tasks, accepted, host, kind);
      CarriedNext(tasks, kind);
    }
  }

  lemma LiveLoadsAdd(w: World, added: map<nat, LiveTask>, host: string, kind: Scalar)
    requires w.live.Keys !! added.Keys
    ensures Sum<nat>(LiveLoads(w.live + added, host, kind)) == Sum<nat>(LiveLoads(w.live, host, kind)) + Sum<nat>(LiveLoads(added, host, kind))
  {
    hide Sum, Amount;
    var a: map<nat, nat>, b: map<nat, nat> := LiveLoads(w.live, host, kind), LiveLoads(added, host, kind);
    assert LiveLoads(w.live + added, host, kind) == a + b;
    SumUnion<nat>(a, b);
  }

  /** Taking an offer back frees its load. */
  lemma OfferLoadsRemove(w: World, id: string, host: string, kind: Scalar)
    ensures Sum<string>(OfferLoads(w.offers - {id}, host, kind))
         == Sum<string>(OfferLoads(w.offers, host, kind))
            - if id in w.offers && w.offers[id].hostname == host then Amount(w.offers[id].resources, kind) else 0
  {
    hide Sum, Amount;
    var offers := OfferLoads(w.offers, host, kind);
    assert OfferLoads(w.offers - {id}, host, kind) == offers - {id};
    if id in offers {
      SumRemove(offers, id);
    } else {
      assert offers - {id} == offers;
    }
  }

  /** Instances started on another host add nothing here. */
  lemma ElsewhereLoad(w: World, o: Offer, tasks: seq<TaskInfo>, accepted: set<nat>, host: string, kind: Scalar)
    requires o.hostname != host || o.id !in w.offers
    ensures Sum<nat>(LiveLoads(NewInstances(w, o, tasks, accepted), host, kind)) == 0
  {
    hide Sum, Amount;
    assert LiveLoads(NewInstances(w, o, tasks, accepted), host, kind) == map[];
    SumEmpty<nat>();
  }

  /** Answering an offer replaces it by tasks that ask for no more. */
  lemma AnswerLoad(cfg: Config, w: World, ev: Event, accepted: set<nat>, host: string, kind: Scalar)
    requires LiveOk(w) && ev.OfferArrives? && Enabled(w, Callback(ev, accepted))
    ensures Load(Apply(cfg, w, Callback(ev, accepted)), host, kind) <= Load(w, host, kind)
  {
    hide Sum, HandleOffer, LaunchedTasks, TaskId, LiveLoads, OfferLoads, Carried;
    var o := ev.offer;
    var tasks := LaunchedTasks(Step(cfg, w.sched, ev).calls);
    LiveLoadsAdd(w, NewInstances(w, o, tasks, accepted), host, kind);
    OfferLoadsRemove(w, o.id, host, kind);
    if o.id in w.offers && o.hostname == host {
      NewLoad(w, o, tasks, accepted, host, kind);
      LaunchPorts(cfg, w.sched, o, ev.ticks);
    } else {
      ElsewhereLoad(w, o, tasks, accepted, host, kind);
    }
  }

  lemma LoadStep(cfg: Config, w: World, e: WorldEvent, host: string, kind: Scalar)
    requires LiveOk(w) && Enabled(w, e) && !e.OfferMade?
    ensures Load(Apply(cfg, w, e), host, kind) <= Load(w, host, kind)
  {
    hide Sum, Step;
    match e
    case Callback(ev, accepted) =>
      if ev.OfferArrives? {
        AnswerLoad(cfg, w, ev, accepted, host, kind);
      }
    case OfferRescinded(id) =>
      OfferLoadsRemove(w, id, host, kind);
    case TaskEnded(n) =>
      var loads: map<nat, nat> := LiveLoads(w.live, host, kind);
      assert LiveLoads(w.live - {n}, host, kind) == loads - {n};
      if n in loads {
        SumRemove<nat>(loads, n);
      } else {
        assert loads - {n} == loads;
      }
    case OfferMade(_) =>
  }

  lemma OfferedLoad(w: World, o: Offer, host: string, kind: Scalar)
    requires o.id !in w.offers
    ensures Load(w.(offers := w.offers[o.id := o]), host, kind)
         == Load(w, host, kind) + if o.hostname == host then Amount(o.resources, kind) else 0
  {
    hide Sum;
    var before, after := OfferLoads(w.offers, host, kind), OfferLoads(w.offers[o.id := o], host, kind);
    if o.hostname == host {
      SumRemove(after, o.id);
      assert after - {o.id} == before;
    } else {
      assert after == before;
    }
  }

  /**
   * Conservation over whole runs: under a conserving master, what live tasks ask for plus what is on offer never
   * exceeds a host's capacity in any scalar, whatever the scheduler launches.
   */
  lemma {:induction false} CapacityRespected(cfg: Config, p: Persistent, es: seq<WorldEvent>, capacity: string -> Resources,
                                            host: string, kind: Scalar)
    requires IsConservingRun(cfg, FreshWorld(p), es, capacity)
    ensures LiveOk(After(cfg, FreshWorld(p), es))
    ensures Load(After(cfg, FreshWorld(p), es), host, kind) <= Amount(capacity(host), kind)
  {
    hide Sum, Apply, LiveOk;
    if es == [] {
      FreshLoad(p, host, kind);
    } else {
      var front, e := es[..|es| - 1], es[|es| - 1];
      var w := After(cfg, FreshWorld(p), front);
      CapacityRespected(cfg, p, front, capacity, host, kind);
      LiveOkStep(cfg, w, e);
      if e.OfferMade? {
        OfferedLoad(w, e.offer, host, kind);
        OfferMadeApply(cfg, w, e);
      } else {
        LoadStep(cfg, w, e, host, kind);
      }
    }
  }

  lemma OfferMadeApply(cfg: Config, w: World, e: WorldEvent)
    requires e.OfferMade?
    ensures Apply(cfg, w, e) == w.(offers := w.offers[e.offer.id := e.offer])
  {
  }

  lemma FreshLoad(p: Persistent, host: string, kind: Scalar)
    ensures LiveOk(FreshWorld(p)) && Load(FreshWorld(p), host, kind) == 0
  {
    hide Sum;
    assert LiveLoads(map[], host, kind) == map[] && OfferLoads(map[], host, kind) == map[];
    SumEmpty<nat>();
    SumEmpty<string>();
  }
}
