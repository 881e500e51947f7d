# Quobyte Mesos scheduler: a verified model

The Quobyte framework runs a storage cluster on Mesos. One scheduler process reacts to resource offers, status
updates, probe replies, HTTP requests and its own restarts, and decides on every host whether to start a prober,
registry, metadata, data or client service, or one of the cluster-wide singletons (API, S3, webconsole). This
project models those reactions and proves what they keep over whole histories, alone and together with a small
Mesos master.

## How it is built

* `Reactions.dfy` gives every callback as a function from the scheduler's state to a new state and a list of driver
  calls; `Launching.dfy` is the part that fills one offer, as a fold of single attempts over an agenda.
  `Scheduler.dfy` and `StateProxy.dfy` hold the same code in the source's own form: a class whose methods update its
  fields, loop over offers, devices and nodes and call the driver, each method proved equal to its reaction.
* `Exact.dfy` says exactly what each callback answers and records, over recorded fields and literal constants,
  independently of the functions the reactions are made of.
* `Slots.dfy` reduces the state to one (state, task id) slot per service and proves the only ways an event can
  change a slot. `History.dfy` proves properties of every history from that.
* `Cluster.dfy` puts a master beside the scheduler: live task instances (two may carry one id), outstanding and
  stale offers, launches that fail, tasks that end. Its environment has obligations that are assumed only where a
  theorem names them: a master that offers no port twice (`Enabled`), loss reports only for ids with no live task
  (`Honest`), nothing unasked (`Warranted`: replies answer probe requests, updates are about launched or reconciled
  ids, an agent offers under one host name), and a clock that never goes back (`OnTime`). A genuine run keeps all of
  them. `Capacity.dfy` adds scalar capacities, `PerHost.dfy` bounds the services that hold no ports.
* `Warranted.dfy` proves where tasks can be live at all when nothing comes unasked; `Startable.dfy` builds the genuine
  runs that get them there; `Failover.dfy` says exactly when a restart endangers a singleton.
* `TaskIds.dfy`, `Resources.dfy`, `HostLists.dfy`, `Policy.dfy`, `Greedy.dfy`, `Health.dfy`, `MemoryString.dfy`,
  `HttpServer.dfy` and `Executor.dfy` model the parts named after them.

`dafny verify dfyconfig.toml` checks everything.

## What turned out not to hold

Each of these is a lemma, with the exact condition where one exists.

* Ids are split at their last dash. A host whose name contains a dash is never probed and never gets any task but a
  prober (`DashedHostOnlyProbers`), while every allowed host without one can be probed and served (`ProbeableIff`,
  `LaunchableIff`).
* When nothing comes unasked, the client is never started on a cluster that starts empty: it begins UNKNOWN, nothing
  but an update for its own id changes that, and its id is never asked about (`PlacesAlways`, `LaunchableIff`).
* A singleton is unique only between restarts. After one, a loss report for any dash-free host's id unlocks it while
  another instance may be live (`LossElsewhereUnlocks`). `TwoAfterOneRestart` is a genuine run that ends with two; the
  loss report in it answers the scheduler's own reconciliation request. A restart is safe exactly when no task of the
  singleton is live at that moment (`RestartSafeIff`). Each restart can cost one more instance and no more than one
  (`SingletonBound`, `SingletonBoundReached`), and reports repair it (`HealingRun`, `HealingFromStart`).
* A "mem" entry without a terminating ";" loses its last digit (`MemReadIffTerminated`). The S3 limit is computed from
  `--s3_resources` but the S3 task gets the webconsole's memory, so the limit can exceed it (`S3LimitAboveRequest`);
  `LimitWithinRequest` says exactly when. The default S3 flags print a negative limit (`DefaultS3LimitNegative`).
* The counting test that holds back non-core services compares numbers only, and a core service may run without being
  listed any more. On a host that reports CLIENT the test opens exactly when there is one such service more than
  listed types without a running service (`ProbedGate`): while every running service is marked it stays shut and only
  core services are started (`ProbedGateWhenMarked`), but a data service that is no longer listed opens it
  (`StaleServiceOpensGate`).
* While no version is set, an offer never has a singleton killed that is recorded on another host, and never the
  client (`ShutdownReaches`).
* A host stays bound to the first slave id it was seen under, so replies from a re-registered agent are ignored
  until a restart (`FirstSlaveIdSticks`).
* An empty POST chunk dispatches the body early (`ChunkingIndependent`).

Where the documentation differs the code is followed: `--restrict_hosts` lets a host through whose name occurs inside
a listed one (docs/usage.md:50; `AllowedIff`, `UnlistedAllowed`), twelve ports are used from `--port_range_base`, not
ten (docs/usage.md:51; `TwelvePorts`), and a version change restarts nothing (`UpdateKillsOnlyReported`). The prober
task is reported FINISHED at once (executor/executor.cpp:36-45), which the scheduler takes for running.

## Model

| member | source | states |
|---|---|---|
| TaskIds.RoutingRoundTrip | scheduler/scheduler.cpp:846-893 | for every service and host, an update for the built id reaches that pair exactly when the host has no dash, otherwise no service |
| TaskIds.RoutedIdIsBuilt | scheduler/scheduler.cpp:872-893 | any id that is routed is the one built for that pair, and the host is dash-free |
| TaskIds.TaskIdInjective | scheduler/scheduler.cpp:541-557 | ids are injective in (service, host) for all host names |
| TaskIds.NoNameExtends | scheduler/scheduler.cpp:846-867 | no service name extends another by a dash suffix |
| ResourcePlans.PlanHasPorts | scheduler/scheduler.cpp:1010-1029 | every service started through makeTask holds its own RPC port |
| ResourcePlans.CorePlansDisjoint | scheduler/scheduler.cpp:449-465 | core services never share a port for any port range base, including one that wraps at 65536 |
| ResourcePlans.PlansDisjointIff | scheduler/scheduler.cpp:449-493 | when the resource flags name no ports, all plans are disjoint iff the extra port flags (0 aside) differ from each other and from other services' range ports |
| ResourcePlans.DefaultPlansDisjoint | scheduler/scheduler.cpp:79-84 | the default port flags meet that |
| ResourcePlans.TwelvePorts | scheduler/scheduler.cpp:449-483 | all services together take twelve different ports from the range, wherever it starts |
| ResourcePlans.PlanByFlags | scheduler/scheduler.cpp:442-493 | the scalars and the exact port set each service asks for, flag by flag |
| HostLists.AllowedIff | scheduler/scheduler.cpp:571-576 | with a comma-separated list, a host is allowed iff its name occurs somewhere in a listed name |
| HostLists.UnlistedAllowed | scheduler/scheduler.cpp:571-576 | with node10 and node11 listed, node1 is allowed |
| Policy.CoreGateExact | scheduler/scheduler.cpp:144-162 | the counting test on a duplicate-free list, exactly: unlisted running services balance listed devices without one |
| Policy.CoreGateMeansAllRunning | scheduler/scheduler.cpp:134-164 | when running services are listed, the gate opens iff every listed device's service runs |
| Launching.OfferLedger | scheduler/scheduler.cpp:676-816 | after every attempt remaining plus debited is the offer, in scalars and ports, and launched port sets are disjoint |
| Launching.LaunchWithinOffer | scheduler/scheduler.cpp:676-816 | the resources carried by one offer's tasks sum to at most the offer |
| Launching.NoDuplicateIds | scheduler/scheduler.cpp:740-816 | tasks of one launch have distinct ids even if the device list repeats types |
| Launching.NoMixedLaunch | scheduler/scheduler.cpp:740-812 | with a duplicate-free list covering the running services a launch never mixes core and non-core services |
| Launching.LaunchedWasWanted | scheduler/scheduler.cpp:676-812 | a launched service was wanted in the state the offer found, and a core one is a listed device |
| GreedyLaunch.GreedyCompleteness | scheduler/scheduler.cpp:676-816 | with disjoint port plans all wanted services are launched iff the offer contains their total; ExactAnswers.DueIsWanted spells out which are wanted |
| GreedyLaunch.StartedInTurn | scheduler/scheduler.cpp:676-816 | whatever the offer holds, a service is started iff it is wanted and its plan fits beside those started before it |
| GreedyLaunch.OfferStartsAllWanted | scheduler/scheduler.cpp:570-816 | the same for the whole handling of an offer; ExactAnswers.StartsAllDueIff states it without the wanted set |
| GreedyLaunch.OrderIrrelevant | scheduler/scheduler.cpp:740-812 | with enough resources the launched set does not depend on the order of the device list |
| Reactions.EveryOfferAnsweredOnce | scheduler/scheduler.cpp:570-838 | the k-th answer of a batch is the only one for the k-th offer: a decline or a non-empty launch |
| Reactions.OfferAnswered | scheduler/scheduler.cpp:570-838 | handling one offer makes exactly one answer, and a launch is the only call made |
| Reactions.BatchIsRun | scheduler/scheduler.cpp:566-570 | a batch leaves the state its offers leave one after the other |
| ExactAnswers.OfferKillsIff | scheduler/scheduler.cpp:570-837 | an offer kills an id iff its host is allowed and known, no prober launch or probe is due, no version is set, and the id is the host's id of a core service or singleton recorded RUNNING |
| ExactAnswers.OfferAsksIff | scheduler/scheduler.cpp:657-674 | a probe request goes out iff a probe is due, to the offering agent, with the configured client directory |
| ExactAnswers.OfferReconcilesIff | scheduler/scheduler.cpp:537-559 | seven literal ids are asked about iff the host is new or probed |
| ExactAnswers.DueIsWanted | scheduler/scheduler.cpp:134-164 | the wanted services, spelled out over slots, device list, role, S3 host name and client mount |
| ExactAnswers.StartsAllDueIff | scheduler/scheduler.cpp:570-816 | an offer that gets past prober and probe starts exactly the due services iff it holds their plans |
| ExactAnswers.StartedIff | scheduler/scheduler.cpp:676-816 | whatever the offer holds, a service is started iff it is due and its plan fits beside the plans of those started ahead of it, singletons and client first, then devices in list order |
| ExactAnswers.ProberStartedIff | scheduler/scheduler.cpp:616-655 | a prober is started iff it is its turn, and alone; nothing else is started unless the offer is served with a version set |
| ExactAnswers.LaunchedTaskFields | scheduler/scheduler.cpp:1031-1081 | every launched task has the offering agent's slave id, its host's id, its service's resources and the current version |
| ExactAnswers.OfferRecords | scheduler/scheduler.cpp:612-812 | everything an offer records for a service: RUNNING and id, STARTING, the shortage message, or nothing |
| ExactAnswers.OfferLeaves | scheduler/scheduler.cpp:570-674 | an offer leaves other hosts and device facts alone and records when the host was offered and probed |
| ExactAnswers.OfferIntroduces | scheduler/scheduler.cpp:528-589 | a host first heard of in an offer is recorded under the offering agent, with nothing known of it |
| ExactAnswers.UpdateOutcome | scheduler/scheduler.cpp:895-971 | service state and calls after any routed update, by Mesos state and recorded fields |
| ExactAnswers.RunningReportIff | scheduler/scheduler.cpp:895-938 | with a version set, a reported task is killed iff it is superfluous, otherwise adopted iff no other id is recorded |
| ExactAnswers.UnroutedOutcome | scheduler/scheduler.cpp:869-893 | an id that is not routed only makes the host after its last dash known |
| ExactAnswers.UpdateElsewhere | scheduler/scheduler.cpp:846-893 | an update leaves every other service as it was |
| ExactAnswers.UpdateNodeOutcome | scheduler/scheduler.cpp:872-887 | a host first heard of in an update is recorded under the update's slave id; what is known of a host stays |
| ExactAnswers.ReplyOutcome | scheduler/scheduler.cpp:980-1000 | what a reply changes on every node, field by field; a malformed one changes nothing |
| ExactAnswers.OtherEvents | scheduler/scheduler.cpp:496-511 | registration asks for all tasks; version posts and restarts call nothing |
| Slots.OfferSlot | scheduler/scheduler.cpp:612-838 | an offer changes a service's state and id only by launching it there, from NOT_RUNNING (prober: not in use) |
| Slots.UpdateSlot | scheduler/scheduler.cpp:869-948 | an update changes only the slot its id is routed to: adoption by RUNNING/FINISHED, release by FAILED/KILLED/LOST/ERROR of the recorded or an unrecorded id |
| Slots.StepSlot | scheduler/scheduler.cpp:566-1000 | the only ways any event can change a slot |
| Slots.LaunchedTask | scheduler/scheduler.cpp:625-816 | every launched task is a prober or was built for the current non-empty version, with its host's id (its fields: ExactAnswers.LaunchedTaskFields) |
| Slots.IdInvAlways | scheduler/scheduler.cpp:691-945 | in every history a service is RUNNING iff an id is recorded, and the id is its own |
| Slots.ShutdownReaches | scheduler/scheduler.cpp:817-836 | with no version set an offer kills a recorded task iff it is no client or prober and was started on the offer's host |
| History.HandOver | scheduler/scheduler.cpp:616-948 | between two launches of a singleton, or of a host's client or prober, a release update for exactly the first id was received |
| History.FailoverSafety | scheduler/scheduler.cpp:122-948 | from persistent state only, nothing but probers is launched before a release update for it, with no adoption since |
| History.PersistentIsLastSet | scheduler/scheduler.cpp:393-439 | framework id and target version are the last values set, across restarts |
| History.RestartStartsOver | scheduler/scheduler.cpp:442-494 | after a restart the scheduler behaves as a fresh one on the stored state |
| WarrantedRuns.PlacesAlways | scheduler/scheduler.cpp:570-998 | when nothing comes unasked, every live task of every run is on an allowed host, only probers are on dashed hosts, no client is live, and only allowed dash-free hosts are asked for devices |
| WarrantedRuns.DashedHostOnlyProbers | scheduler/scheduler.cpp:612-893 | in such runs an offer from a dashed host never leads to a probe request or to any task but a prober |
| Startability.LaunchableIff | scheduler/scheduler.cpp:541-816 | some genuine run from an empty cluster has a service live on a host iff the host is allowed, dash-free unless it is the prober, the service is not the client, and S3 has a host name |
| Startability.ProbeableIff | scheduler/scheduler.cpp:657-674 | some genuine run asks an agent on the host for its devices iff the host is allowed and dash-free |
| Startability.StartRunLeads | scheduler/scheduler.cpp:541-948 | from any restarted scheduler and idle, allowed, dash-free host an explicit genuine run adds one live task of any service but prober and client |
| Startability.ReadyLaunches | scheduler/scheduler.cpp:676-812 | an offer of just the plan of the one waiting service starts that service and no other |
| History.LossElsewhereUnlocks | scheduler/scheduler.cpp:939-945 | with no id recorded, a loss report for a dash-free host's id makes a singleton startable, one for a dashed host does nothing |
| History.ProbedOnlyIfRunning | scheduler/scheduler.cpp:657-674 | a probe request is sent iff the host is allowed, known, its prober runs and the interval has passed; its time is recorded |
| History.ProbeRate | scheduler/scheduler.cpp:657-674 | recorded probe times of one host differ by more than the interval within one lifetime |
| History.ProberLaunchedIffDue | scheduler/scheduler.cpp:616-655 | a prober is launched iff it is due and fits the offer |
| History.ProberKeepAlive | scheduler/scheduler.cpp:616-996 | a prober is launched only more than the keep-alive interval after the agent's last reply |
| History.FirstSlaveIdSticks | scheduler/scheduler.cpp:528-534 | the first slave id sticks; replies under another id change neither device types, validity nor client mount, and do not renew the prober's last-seen time |
| History.LaunchNeeds | scheduler/scheduler.cpp:676-812 | a launch needs valid device facts, a listed device or open gate, and the client mount, role or S3 host name its service asks for |
| History.LaunchFollowsReply | scheduler/scheduler.cpp:740-998 | after a restart only probers are launched on a host until its agent's well-formed reply; the last such reply lists the core device or found the client mount |
| Cluster.PortInvStep | scheduler/scheduler.cpp:740-812 | disjoint ports of live tasks and outstanding offers are kept by every step of the composed system |
| Cluster.ReachableInvariants | scheduler/scheduler.cpp:676-948 | every world reachable from an empty cluster keeps ports disjoint and state and id consistent |
| Cluster.PerHostExclusion | scheduler/scheduler.cpp:740-812 | in every reachable state at most one live task per port-holding service and host, whatever updates arrive |
| PerHostBounds.PerHostBound | scheduler/scheduler.cpp:616-738 | in every honest run at most one client is live per host, and at most one prober more than there were restarts |
| Cluster.ExcessNeverGrows | scheduler/scheduler.cpp:676-948 | from any state no step but a restart lets another live singleton task become excess |
| Cluster.SingletonBound | scheduler/scheduler.cpp:676-948 | from an empty cluster, after r restarts at most r excess and r + 1 live tasks of a singleton |
| SingletonFailover.SingletonBoundReached | scheduler/scheduler.cpp:676-948 | for every r some genuine run restarts r times and ends with r + 1 live tasks of a singleton |
| SingletonFailover.TwoAfterOneRestart | scheduler/scheduler.cpp:541-559 | the failing run itself, genuine in every step: one restart, two live tasks |
| SingletonFailover.RestartSafeIff | scheduler/scheduler.cpp:676-948 | every genuine continuation after a restart keeps at most one live task of a singleton iff none was live at the restart |
| SingletonFailover.SafeRestarts | scheduler/scheduler.cpp:676-948 | in every honest run whose restarts find no task of a singleton live, none is ever excess and at most one is live |
| Cluster.RecordedUnique | scheduler/scheduler.cpp:676-726 | ports alone leave at most one live task under the recorded id |
| Cluster.ExcessReported | scheduler/scheduler.cpp:895-938 | a RUNNING report of a routable excess task adopts it or kills it |
| Cluster.HealingRun | scheduler/scheduler.cpp:895-938 | over any honest run without a restart: if every task excess at first is reported RUNNING at some point and killed tasks end, none is excess and at most one live at the end |
| WarrantedRuns.HealingFromStart | scheduler/scheduler.cpp:895-938 | the same wherever a warranted run from an empty cluster has led, with no proviso on hosts or invariants |
| Cluster.ShutdownProgress | scheduler/scheduler.cpp:676-971 | while no version is set the live non-probers only shrink, by exactly one per task that ends |
| Cluster.ShutdownKills | scheduler/scheduler.cpp:950-971 | every non-terminal report of a routable non-prober task is answered by a kill while no version is set |
| Cluster.ShutdownRun | scheduler/scheduler.cpp:950-971 | over any run without a version: if every non-prober task (on dash-free hosts) is reported alive at some point and killed tasks end, only probers are left |
| WarrantedRuns.ShutdownFromStart | scheduler/scheduler.cpp:950-971 | the same wherever a warranted run from an empty cluster has led, with no proviso on hosts |
| Cluster.UpdateKillsOnlyReported | scheduler/scheduler.cpp:923-977 | an update kills at most the reported task; with a version set only on a RUNNING/FINISHED report, so a version mismatch kills nothing |
| Cluster.LaunchedVersion | scheduler/scheduler.cpp:1047-1081 | every task from makeTask carries the version current at its launch |
| Capacity.AnswerLoad | scheduler/scheduler.cpp:612-816 | answering an offer replaces it by tasks that ask for no more, per host and scalar |
| Capacity.CapacityRespected | scheduler/scheduler.cpp:612-816 | under a conserving master no run exceeds a host's capacity |
| Health.RunningIsRecordedIds | scheduler/scheduler.cpp:1141-1166 | the health count is the number of distinct recorded ids |
| Health.HealthCountAlways | scheduler/scheduler.cpp:1141-1166 | after every history the health count is the number of distinct recorded ids |
| Health.RunningMember | scheduler/scheduler.cpp:1141-1166 | the counted services are the singletons and the known hosts' core services recorded RUNNING |
| MemoryString.MemRoundTrip | scheduler/scheduler.cpp:211-231 | a terminated "mem" entry is read back exactly, for every int32 size, prefix and suffix |
| MemoryString.MemEntryRead | scheduler/scheduler.cpp:211-231 | a terminated entry reads as its signed number, whatever white space precedes it and whatever follows the digits |
| MemoryString.MemWithoutNumber | scheduler/scheduler.cpp:211-231 | no "mem" entry, or one without a number, reads as -1 |
| MemoryString.MemUnterminated | scheduler/scheduler.cpp:217-231 | an unterminated entry loses its last digit |
| MemoryString.MemReadIffTerminated | scheduler/scheduler.cpp:211-231 | the size is read correctly iff a ";" follows it |
| MemoryString.LimitWithinRequest | scheduler/scheduler.cpp:269-299 | a printed limit against the memory the task asks for: exactly when it is within it and when it is not negative; for S3 the memory is the webconsole's |
| MemoryString.LimitsByFlags | scheduler/scheduler.cpp:269-299 | flag by flag, each limit but S3's is its task's memory less the registry's or metadata's extra RAM |
| MemoryString.S3LimitAboveRequest | scheduler/scheduler.cpp:479-483 | flags for which the S3 limit is 6656 MB and the S3 task asks for 512 MB |
| MemoryString.DefaultS3LimitNegative | scheduler/scheduler.cpp:289-292 | the default S3 flags print -1024 |
| HttpServers.ChunkingIndependent | scheduler/http_server.cpp:58-77 | a POST is dispatched once plus once per empty chunk, and the last body is the concatenation |
| HttpServers.VersionPostChunked | scheduler/http_server.cpp:58-77 | the stored version does not depend on how the body was split |
| HttpServers.OtherVerbs | scheduler/http_server.cpp:58-77 | every call of another verb is dispatched with what is stored and stores nothing |
| HttpServers.Connection.HandleRequest | scheduler/http_server.cpp:50-77 | one call, by verb and stored body: when it is dispatched, what is stored, the size acknowledged, the version stored and the page |
| Executors.InspectMount | executor/executor.cpp:88-117 | a device mount adds exactly the types marked by marker files or setup lines |
| Executors.MarksByFiles | executor/executor.cpp:88-117 | what marks each type, by file system, marker file and setup line |
| Executors.Probe | executor/executor.cpp:76-139 | the reply lists CLIENT iff its directory exists, then exactly the marked types once each, registry before metadata before data |
| Executors.ProbedGate | executor/executor.cpp:120-131 | on a probed host the gate opens iff the running services not marked any more are as many as marked types without a running service, plus one with CLIENT |
| Executors.ProbedGateWhenMarked | executor/executor.cpp:122-127 | while every running service is marked, a CLIENT entry leaves only core services to start, and without one the gate is the all-running test |
| Startability.StaleServiceOpensGate | scheduler/scheduler.cpp:993-996 | a genuine run in which a data service runs, the agent then lists any one other type instead, CLIENT included, and the gate is open |
| StateProxies.SchedulerStateProxy.constructor | scheduler/scheduler.cpp:393-402 | a new proxy starts from the stored value |
| StateProxies.SchedulerStateProxy.SetFrameworkId | scheduler/scheduler.cpp:408-411 | memory and store agree on the new framework id |
| StateProxies.SchedulerStateProxy.SetTargetVersion | scheduler/scheduler.cpp:413-416 | memory and store agree on the new version |
| StateProxies.SchedulerStateProxy.Erase | scheduler/scheduler.cpp:436-439 | memory and store are both cleared |
| Schedulers.QuobyteScheduler.constructor | scheduler/scheduler.cpp:442-494 | the resource table holds every service's plan and the state is fresh |
| Schedulers.QuobyteScheduler.PrepareServiceResources | scheduler/scheduler.cpp:1010-1029 | earlier entries stay; a new entry asks for the flag's scalars and exactly its ports, the service's two and a nonzero extra one |
| Schedulers.QuobyteScheduler.OnRegistered | scheduler/scheduler.cpp:496-504 | stores the framework id and asks for reconciliation |
| Schedulers.QuobyteScheduler.AddHost | scheduler/scheduler.cpp:528-534 | the host is known afterwards, nothing is known about a new one, and no node known before has changed |
| Schedulers.QuobyteScheduler.ReconcileHost | scheduler/scheduler.cpp:537-559 | asks about seven ids of the host, the client's not among them |
| Schedulers.QuobyteScheduler.LaunchServices | scheduler/scheduler.cpp:676-812 | the in-place launch code computes the fold of attempts |
| Schedulers.QuobyteScheduler.LaunchDevices | scheduler/scheduler.cpp:740-812 | the device loop computes the attempts of the device services in list order |
| Schedulers.QuobyteScheduler.KillHostServices | scheduler/scheduler.cpp:817-836 | the shutdown branch kills what is recorded as RUNNING, under the offer's host |
| Schedulers.QuobyteScheduler.ConsiderOffer | scheduler/scheduler.cpp:570-838 | one loop iteration is the reaction to one offer, in state and driver calls |
| Schedulers.QuobyteScheduler.ResourceOffers | scheduler/scheduler.cpp:566-839 | the batch loop is the reactions in order |
| Schedulers.QuobyteScheduler.StatusUpdate | scheduler/scheduler.cpp:869-978 | statusUpdate is the reaction to an update |
| Schedulers.Failover | scheduler/scheduler.cpp:393-402 | a new proxy and scheduler on the same durable cell are in the state a restart leads to |
| Schedulers.QuobyteScheduler.FrameworkMessage | scheduler/scheduler.cpp:980-1000 | every node recorded under the slave id takes the reply; a malformed one changes nothing |
| Schedulers.QuobyteScheduler.CountRunningServices | scheduler/scheduler.cpp:1141-1166 | the loop counts the running singletons and core services |
| Schedulers.QuobyteScheduler.HandleHttp | scheduler/scheduler.cpp:1168-1199 | a POST under the version path stores its body; version and health pages; every other request changes nothing |

## Left out

- Thread interleaving between HTTP and driver callbacks: the code has no locks; every callback is one atomic step.
- Clock: an offer takes five readings in program order; a status update and a probe reply take one reading each.
- Mesos `Resources` text, roles and floating point: scalars are fixed-point naturals and ports a set; the port text of
  `buildResourceString` is represented by the ports it denotes; the reserved-role test is a free boolean per singleton.
- int32 overflow of `--port_range_base + n` and of a limit with a negative extra-RAM flag; the conversion of ports to
  uint16 is modelled.
- Executor ids, container, Docker and discovery info, shell command text beyond memory limits, labels of status
  updates (they only reach a log line), `#if 0` and bridge-networking code.
- The text format of the stored state: the durable cell holds the message itself, and stores are complete when made.
- HTML pages, the archive download and libmicrohttpd responses; `main`, daemon start and stop.
- Prober requests with an initialize_path, which the scheduler never sends.
- CapacityRespected: assumes a master that offers only what is free, because offers are the master's decision.
- SingletonBound: assumes a release update for an id is delivered only when no task with that id is live; without
  it the scheduler has no way to tell.
- Schedulers.QuobyteScheduler.HandleHttp: does not render the pages other than version and health; they are None.
- Updates about tasks of an earlier framework instance: runs start from an empty cluster, so no client is left over.
- An executor's own life: a reply answers a probe request made to its agent at any earlier time.
