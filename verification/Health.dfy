/** What the health page counts. */
module Health {
  import opened Types
  import opened TaskIds
  import opened ResourcePlans
  import opened Reactions
  import opened Slots

  function Just<T>(x: T, present: bool): set<T> {
    if present then {x} else {}
  }

  /** The core services recorded as RUNNING on one host. */
  function RunningOn(s: SchedState, host: string): set<Address>
    requires host in s.nodes
  {
    var n := s.nodes[host];
    Just(Address(Registry, host), n.registry.state == RUNNING)
    + Just(Address(Metadata, host), n.metadata.state == RUNNING)
    + Just(Address(Data, host), n.data.state == RUNNING)
  }

  function RunningCore(s: SchedState, hosts: set<string>): set<Address>
    requires hosts <= s.nodes.Keys
  {
    set host, a | host in hosts && a in RunningOn(s, host) :: a
  }

  /** The singletons recorded as RUNNING; one entry for the whole cluster. */
  function RunningSingletons(s: SchedState): set<Address> {
    Just(Address(Api, ""), s.api.state == RUNNING)
    + Just(Address(S3, ""), s.s3.state == RUNNING)
    + Just(Address(Webconsole, ""), s.console.state == RUNNING)
  }

  /** The services the health count covers. */
  function RunningServices(s: SchedState): set<Address> {
    RunningSingletons(s) + RunningCore(s, s.nodes.Keys)
  }

  /** Membership, spelled out. */
  lemma RunningMember(s: SchedState, a: Address)
    ensures a in RunningServices(s) <==>
              && (if IsSingleton(a.service) then a.host == "" else IsCore(a.service) && a.host in s.nodes)
              && ServiceAt(s, a.service, a.host).state == RUNNING
  {
    hide RunningSingletons, RunningCore;
    SingletonMember(s, a);
    CoreMember(s, a);
  }

  lemma SingletonMember(s: SchedState, a: Address)
    ensures a in RunningSingletons(s) <==>
              IsSingleton(a.service) && a.host == "" && ServiceAt(s, a.service, "").state == RUNNING
  {
  }

  lemma CoreMember(s: SchedState, a: Address)
    ensures a in RunningCore(s, s.nodes.Keys) <==>
              IsCore(a.service) && a.host in s.nodes && NodeService(s.nodes[a.host], a.service).state == RUNNING
  {
    if a.host in s.nodes {
      assert a in RunningCore(s, s.nodes.Keys) <==> a in RunningOn(s, a.host);
    }
  }

  /** The task ids recorded for registries, metadata and data services and the singletons. */
  function RecordedIds(s: SchedState): set<string> {
    (set svc: Service | IsSingleton(svc) && ServiceAt(s, svc, "").taskId != "" :: ServiceAt(s, svc, "").taskId)
    + (set host, svc: Service | host in s.nodes && IsCore(svc) && NodeService(s.nodes[host], svc).taskId != ""
         :: NodeService(s.nodes[host], svc).taskId)
  }

  function IdAt(s: SchedState, a: Address): string {
    SlotOf(s, a.service, a.host).taskId
  }

  lemma {:induction false} ImageSize<A, B>(xs: set<A>, ys: set<B>, f: map<A, B>)
    requires f.Keys == xs
    requires forall a, b | a in xs && b in xs && f[a] == f[b] :: a == b
    requires forall y :: y in ys <==> exists a :: a in xs && f[a] == y
    ensures |ys| == |xs|
  {
    if xs == {} {
      assert ys == {};
    } else {
      var a :| a in xs;
      var y := f[a];
      var g := f - {a};
      forall z
        ensures z in ys - {y} <==> exists b :: b in xs - {a} && g[b] == z
      {
        if b :| b in xs && f[b] == z && z != y {
          assert b in xs - {a} && g[b] == z;
        }
      }
      ImageSize(xs - {a}, ys - {y}, g);
    }
  }

  /** A service that counts as running has its own recorded id. */
  lemma RunningHasOwnId(s: SchedState, a: Address, b: Address)
    requires IdInv(s) && a in RunningServices(s) && b in RunningServices(s) && IdAt(s, a) == IdAt(s, b)
    ensures a == b && IdAt(s, a) != ""
  {
    hide TaskId, Name, RunningServices;
    RunningMember(s, a);
    RunningMember(s, b);
    assert SlotOk(a.service, a.host, SlotOf(s, a.service, a.host));
    assert SlotOk(b.service, b.host, SlotOf(s, b.service, b.host));
    IdOfOneService(a.service, IdAt(s, a), a.host);
    IdOfOneService(b.service, IdAt(s, b), b.host);
    IdsApart(a.service, b.service, IdAt(s, a));
    if !IsSingleton(a.service) {
      if a.service == b.service {
        TaskIdInjective(a.service, a.host, b.service, b.host);
      }
    }
  }

  lemma IdOfOneService(svc: Service, id: string, host: string)
    ensures IsIdOf(svc, TaskId(svc, host))
  {
  }

  lemma IdsApart(a: Service, b: Service, id: string)
    requires IsIdOf(a, id) && IsIdOf(b, id)
    ensures a == b
  {
    hide TaskId;
    var h := OwnId(a, id);
    var g := OwnId(b, id);
    TaskIdInjective(a, h, b, g);
  }

  /** In every state with the id invariant, the number of running services is the number of distinct recorded ids. */
  lemma RunningIsRecordedIds(s: SchedState)
    requires IdInv(s)
    ensures |RunningServices(s)| == |RecordedIds(s)|
  {
    hide TaskId, IdInv, RunningServices, RecordedIds, SlotOf;
    var xs := RunningServices(s);
    var f := map a | a in xs :: IdAt(s, a);
    forall a, b | a in xs && b in xs && f[a] == f[b]
      ensures a == b
    {
      RunningHasOwnId(s, a, b);
    }
    forall id
      ensures id in RecordedIds(s) <==> exists a :: a in xs && f[a] == id
    {
      if id in RecordedIds(s) {
        RecordedRuns(s, id);
      }
      if a :| a in xs && f[a] == id {
        RunningRecorded(s, a);
      }
    }
    ImageSize(xs, RecordedIds(s), f);
  }

  /** After every history from a fresh start, restarts included, the health count is the number of recorded ids. */
  lemma HealthCountAlways(cfg: Config, p: Persistent, es: seq<Event>)
    ensures var s := Run(cfg, FreshSched(p), es); |RunningServices(s)| == |RecordedIds(s)|
  {
    hide IdInv;
    IdInvInitially(p);
    IdInvAlways(cfg, FreshSched(p), es);
    RunningIsRecordedIds(Run(cfg, FreshSched(p), es));
  }

  lemma RecordedRuns(s: SchedState, id: string)
    requires IdInv(s) && id in RecordedIds(s)
    ensures exists a :: a in RunningServices(s) && IdAt(s, a) == id
  {
    hide TaskId, RunningServices, IsIdOf;
    if svc: Service :| IsSingleton(svc) && ServiceAt(s, svc, "").taskId != "" && id == ServiceAt(s, svc, "").taskId {
      assert SlotOk(svc, "", SlotOf(s, svc, ""));
      RunningMember(s, Address(svc, ""));
    } else {
      var host, svc: Service :| host in s.nodes && IsCore(svc) && NodeService(s.nodes[host], svc).taskId != ""
                                && id == NodeService(s.nodes[host], svc).taskId;
      assert SlotOk(svc, host, SlotOf(s, svc, host));
      RunningMember(s, Address(svc, host));
    }
  }

  lemma RunningRecorded(s: SchedState, a: Address)
    requires IdInv(s) && a in RunningServices(s)
    ensures IdAt(s, a) in RecordedIds(s)
  {
    hide TaskId, RunningServices, IsIdOf;
    RunningMember(s, a);
    assert SlotOk(a.service, a.host, SlotOf(s, a.service, a.host));
  }

  // ------------------------------------------------------ counting

  lemma DisjointSize<T>(a: set<T>, b: set<T>, c: set<T>)
    requires a !! b && b !! c && a !! c
    ensures |a + b + c| == |a| + |b| + |c|
  {
    assert |a + b| == |a| + |b|;
  }

  lemma SingletonCount(s: SchedState)
    ensures |RunningSingletons(s)| == (if s.api.state == RUNNING then 1 else 0)
                                    + (if s.s3.state == RUNNING then 1 else 0)
                                    + (if s.console.state == RUNNING then 1 else 0)
  {
    DisjointSize(Just(Address(Api, ""), s.api.state == RUNNING),
                 Just(Address(S3, ""), s.s3.state == RUNNING),
                 Just(Address(Webconsole, ""), s.console.state == RUNNING));
  }

  lemma HostCount(s: SchedState, host: string)
    requires host in s.nodes
    ensures |RunningOn(s, host)| == (if s.nodes[host].registry.state == RUNNING then 1 else 0)
                                  + (if s.nodes[host].metadata.state == RUNNING then 1 else 0)
                                  + (if s.nodes[host].data.state == RUNNING then 1 else 0)
  {
    var n := s.nodes[host];
    DisjointSize(Just(Address(Registry, host), n.registry.state == RUNNING),
                 Just(Address(Metadata, host), n.metadata.state == RUNNING),
                 Just(Address(Data, host), n.data.state == RUNNING));
  }

  lemma OnHost(s: SchedState, host: string)
    requires host in s.nodes
    ensures forall a | a in RunningOn(s, host) :: a.host == host && IsCore(a.service)
  {
  }

  lemma CoreCount(s: SchedState, hosts: set<string>, host: string)
    requires hosts <= s.nodes.Keys && host in s.nodes && host !in hosts
    ensures |RunningCore(s, hosts + {host})| == |RunningCore(s, hosts)| + |RunningOn(s, host)|
  {
    hide RunningOn;
    var before, now := RunningCore(s, hosts), RunningOn(s, host);
    forall h | h in hosts + {host}
      ensures forall a | a in RunningOn(s, h) :: a.host == h
    {
      OnHost(s, h);
    }
    assert RunningCore(s, hosts + {host}) == before + now;
    assert before !! now;
  }

  lemma NoHosts(s: SchedState)
    ensures RunningCore(s, {}) == {}
  {
  }

  lemma SingletonsApart(s: SchedState)
    ensures |RunningServices(s)| == |RunningSingletons(s)| + |RunningCore(s, s.nodes.Keys)|
  {
    hide RunningOn;
    forall a | a in RunningCore(s, s.nodes.Keys)
      ensures IsCore(a.service)
    {
      var h :| h in s.nodes.Keys && a in RunningOn(s, h);
      OnHost(s, h);
    }
    assert RunningSingletons(s) !! RunningCore(s, s.nodes.Keys);
  }
}
