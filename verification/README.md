# NexusLab simulator: a verified model of its engine, transport, collectives, scheduler, routing and telemetry

NexusLab simulates training clusters: jobs compute, exchange gradients with ring all-reduce over a
packet fabric, share GPUs through a scheduler, and are observed by telemetry. This project models that
core in Dafny and proves what the simulator is built on, for all inputs and all runs:

- **The run.** When the event queue drains, every collective is finished, every job has ended or waits
  for GPUs it cannot get, every submitted transfer has completed and no chunk is left on a link. The
  checks that would throw "unfinished active training job" or "collective remained pending" are
  unreachable, and without state changes of the topology no `std::logic_error` is thrown at all. Each
  `pump` ends, also for collectives that finish synchronously.
- **The data.** For every number of ranks the ring leaves each rank with every shard reduced exactly
  once, through the executor as it is: a round starts only when the one before it has nothing pending,
  and a collective that reports success has delivered what was planned and holds the whole sum.
- **The fabric.** Every chunk is in exactly one place, every transfer's bytes and chunks are accounted
  for in every reachable state, completions are emitted once, and every link's counters, order and busy
  time follow from its own history.
- **The scheduler.** Ownership, assignments and worker lists agree after every event, one admission pass
  is enough, and `compact` placement is optimal in racks and in ring edges that cross racks.
- **The routes.** Path enumeration returns exactly the shortest paths, the cache always answers as a fresh
  enumeration would, the path counter agrees with the enumeration, and importing a topology gives back
  the graph that was exported, however it was built.
- **The telemetry.** The live summary is the fold of the retained records, each job's phases are the
  nanoseconds it spent in them, and every sample is the state at its boundary.

## How it is organised

One module per component. Where the source updates objects in place there are classes
(`Simulation`, `DirectedLinkQueue`, `DirectedLinkService`, `TransportRuntime`, `RingExecutor`,
`ResourceInventory`, `WorkloadEngine`, `TrainingDispatcher`, `Walker`, `PathService`, `TopologyGraph`,
`MetricRegistry`, `SummaryBuilder`, `TelemetrySession`) whose methods are proved against value
functions; the invariants are predicates on values, kept by small lemmas, one per step.

| files | component |
|---|---|
| Prelude, Events, Sorting | shared vocabulary, the event type and its order, sorting as a function |
| Timing | exact serialization delay on 64-bit words |
| Simulation | the discrete-event engine |
| Links, LinkService | one direction of a link: queue, serializer, history |
| Topology, Builders, Rebuild, Graphs, Import | graph, builders, order independence, the class, import |
| TransportState, TransportSteps, TransportLedger, TransportModel, Transport | chunks and transfers |
| RingPlanner, RingState, RingSteps, RingTables, RingModel, RingExecutor | ring all-reduce |
| RackOptimality, Placement, Inventory | GPU placement and ownership |
| JobState, JobSteps, Cluster, ClusterModel, Workload, Engine | training jobs |
| Training | the dispatcher, whole runs and their report |
| Routes, Search, Walks, Paths, Summary | shortest paths, their enumeration, cache and count |
| Metrics, Attribution, Telemetry | metric series, the live summary, the session |

A thrown exception is a `Throw` result; limit and overflow errors end the run. A guard that throws
`std::logic_error` is either an `assert` that is proved, or an error that the contract rules out.
Where an event has just been dispatched, the contract speaks of the live events with that event put back.

## Model

| member | source | states |
|---|---|---|
| Timing.SerializationDelay | simulator/src/transport/timing.cpp:55-87 | for all 64-bit inputs the result is exactly ceil(bytes * 8,000,000,000 / bandwidth), and none precisely when an input is zero or that value leaves 64 bits; no intermediate word overflows |
| Timing.MultiplyFraction | simulator/src/transport/timing.cpp:25-51 | the 64-turn shift-and-subtract loop returns exact quotient and remainder of numerator * multiplier / denominator |
| Timing.SplitDelay | simulator/src/transport/timing.cpp:63-84 | whole seconds plus fractional quotient plus one for a remainder is the ceiling of the whole |
| Timing.DoubleStep | simulator/src/transport/timing.cpp:30-36 | doubling the multiplier's prefix doubles quotient and remainder with one carry, and stays in range |
| Simulations.Simulation.Schedule | simulator/src/sim/simulation.cpp:36-73 | throws exactly when finished, in the past or out of IDs, changing nothing; otherwise adds one live event with the next ID |
| Simulations.Simulation.Cancel | simulator/src/sim/simulation.cpp:75-105 | succeeds exactly for an event still queued and not yet cancelled; the event is then no longer live |
| Simulations.Simulation.DispatchNext | simulator/src/sim/simulation.cpp:228-242 | skips cancelled events and dispatches the minimum of the live ones by timestamp, priority and ID; none exactly when nothing is live |
| Simulations.Simulation.Run | simulator/include/nexuslab/sim/simulation.hpp:103-136 | for every handler behaviour: each dispatched event was first among those live, the clock never goes back, no event runs twice or after a cancel, and issued IDs = dispatched + cancelled + pending |
| Simulations.LiveSize | simulator/src/sim/simulation.cpp:244-258 | in every reachable state the issued IDs are exactly the dispatched, the ever cancelled and the live ones |
| Links.DirectedLinkQueue.Admit | simulator/src/transport/link_queue.cpp:64-89 | serves at once, queues with marking, or drops, as the specified decision says; waiting bytes stay the sum of the waiting chunks and within capacity |
| Links.DirectedLinkQueue.CompleteService | simulator/src/transport/link_queue.cpp:91-108 | removes exactly the head of the service order and starts the next; the subtraction never underflows |
| Links.DirectedLinkQueue.Drain | simulator/src/transport/link_queue.cpp:110-120 | hands back everything on the link in service order and leaves it empty |
| Links.LinkConserves | simulator/src/transport/link_service.cpp:55-146 | over every run of a link: chunks leave in admission order, enqueued = completed + drained + present, the drop counters are exactly what was rejected, drained or refused, and busy time is the time with an active chunk and never exceeds the clock |
| LinkServices.DirectedLinkService.Admit | simulator/src/transport/link_service.cpp:55-92 | the counters settled beforehand always match what the queue then decides; nothing changes on a throw; a completion is scheduled exactly when service starts |
| LinkServices.DirectedLinkService.HandleCompletion | simulator/src/transport/link_service.cpp:93-122 | a logic error exactly when the event is not the awaited completion of the active chunk; otherwise the head leaves, the next starts and its completion is scheduled |
| LinkServices.DirectedLinkService.RecordLinkDown | simulator/src/transport/link_service.cpp:123-126 | counts a chunk that found the link down and changes nothing else |
| LinkServices.DirectedLinkService.ReconcileDown | simulator/src/transport/link_service.cpp:128-146 | cancels the pending completion and returns everything on the link, in order; throws exactly when that completion is not live |
| TransportModel.FabricLinksConserve | simulator/src/transport/runtime.cpp:171-284 | every link of every reachable transport state has a history up to now that explains its order, counters and busy time |
| Transport.TransportRuntime.Create | simulator/src/transport/runtime.cpp:16-33 | accepts exactly positive limits and distinct well-formed configurations of fabric arcs, and starts idle and in order |
| Transport.TransportRuntime.HandleArrival | simulator/src/transport/runtime.cpp:171-239 | the arriving chunk is delivered, refused by a link that is down, dropped by a full buffer or queued, exactly as route, topology and queue say; every invariant of the fabric is kept and no guard fires |
| Transport.TransportRuntime.HandleCompletion | simulator/src/transport/runtime.cpp:241-284 | the head of the link's queue propagates to its next hop and the next chunk starts; the fabric stays in order and no guard fires |
| Transport.TransportRuntime.HandleLinkState | simulator/src/transport/runtime.cpp:286-320 | accepted exactly for a known fabric link; going down drains both directions and settles what was on them, every other link and chunk is untouched, and every arc that is not operational is idle and empty |
| Transport.TransportRuntime.ReconcileUnavailable | simulator/src/transport/failure.cpp:59-70 | drains exactly the arcs that are not operational; only chunks stranded on them are dropped |
| Transport.TransportRuntime.HandlePortState | simulator/src/transport/failure.cpp:41-48 | accepted exactly when the setter accepts; afterwards no arc that is not operational holds a chunk, and all others are untouched |
| Transport.TransportRuntime.HandleSwitchState | simulator/src/transport/failure.cpp:50-57 | the same for switches |
| Transport.TransportRuntime.MarkDropped | simulator/src/transport/runtime.cpp:413-437 | every drained chunk is settled as dropped and no other chunk changes |
| Transport.TransportRuntime.RecordTerminal | simulator/src/transport/progress.cpp:43-103 | the outcome is counted once, and a completion is emitted exactly when the last chunk has ended, successful exactly when nothing was dropped |
| Transport.TransportRuntime.TransferSnapshot | simulator/src/transport/progress.cpp:105-148 | total = registered + awaiting + waiting + active + propagating + delivered + dropped, in bytes and in chunks, each share being exactly the chunks of that category |
| Transport.TransportRuntime.RegisterChunk | simulator/src/transport/runtime.cpp:35-72 | accepts exactly the registrable chunks and otherwise changes nothing |
| Transport.TransportRuntime.ValidateRoute | simulator/src/transport/runtime.cpp:352-395 | accepts exactly contiguous routes of configured fabric arcs within the hop limit between the given ends |
| Transport.TransportRuntime.ValidateTiming | simulator/src/transport/progress.cpp:19-41 | accepts exactly routes whose unqueued arrival times are all representable |
| Transport.TransportRuntime.ScheduleInitialArrival | simulator/src/transport/runtime.cpp:117-147 | launches a registered chunk with exactly one live arrival event, or changes nothing |
| Transport.TransportRuntime.SubmitTransfer | simulator/src/transport/runtime.cpp:74-115 | a fresh transfer whose chunks add up to its bytes, every one launched; no other transfer changes, and nothing changes on a throw unless IDs run out |
| Transport.AllBytes | simulator/src/transport/runtime.cpp:74-115 | the chunks a transfer is cut into add up to the transfer |
| TransportLedger.SharesPartition | simulator/src/transport/progress.cpp:105-148 | the categories of a snapshot split the transit states without overlap |
| TransportModel.QuietFabric | simulator/src/transport/runtime.cpp:171-320 | with no transport event pending, every submitted transfer has completed and every link is empty |
| RingPlanner.PlanRound | simulator/src/collective/planner.cpp:32-50 | throws exactly for bad dimensions, phase or round; otherwise rank r sends the specified shard to rank r + 1 |
| RingPlanner.ShardPermutation | simulator/src/collective/planner.cpp:41-44 | in every round the shards are a permutation of the ranks, with the holder of a shard as its inverse |
| RingPlanner.SendsWhatItDoesNotReceive | simulator/src/collective/planner.cpp:41-47 | no rank receives the shard it is sending, so the deliveries of a round cannot interfere |
| RingPlanner.RoundMovesEverything | simulator/src/collective/planner.cpp:40-48 | each round moves exactly the bytes of the vector |
| RingPlanner.PlannedVolumeIsMoved | simulator/src/collective/planner.cpp:22-31 | all 2(n - 1) rounds together move exactly the planned volume |
| RingPlanner.PlanFollowsColumn | simulator/src/collective/planner.cpp:32-50 | the planned transfer of a shard is the next step of that shard's journey |
| RingPlanner.ReduceScatterCorrect | simulator/src/collective/planner.cpp:32-50 | after n - 1 rounds rank r holds shard (r + 1) mod n with every contribution exactly once, for every n |
| RingPlanner.AllReduceCorrect | simulator/src/collective/planner.cpp:32-50 | after 2(n - 1) rounds every rank holds every shard with every contribution exactly once, for every n |
| RingSteps.BarrierReached | simulator/src/collective/runtime.cpp:169-187 | once nothing is pending and nothing failed, every shard has taken its step and the bytes of the round are delivered |
| RingSteps.FinishKeeps | simulator/src/collective/runtime.cpp:188-226 | success means that delivered equals planned and every rank holds the whole sum |
| RingModel.PendingIsOutstanding | simulator/src/collective/runtime.cpp:76-168 | in every reachable state `pending` is the number of outstanding local and fabric transfers of the collective |
| RingModel.QuietRing | simulator/src/collective/runtime.cpp:128-226 | when nothing is pending anywhere, every collective has finished and reported its result |
| RingExecutors.RingExecutor.Submit | simulator/src/collective/runtime.cpp:20-51 | a new collective with the next ID; a ring of one finishes at once, any other starts its first round; all invariants are kept and no logic error is thrown |
| RingExecutors.RingExecutor.StartRound | simulator/src/collective/runtime.cpp:59-75 | every nonempty shard is issued, and the collective can finish here only by failing |
| RingExecutors.RingExecutor.Issue | simulator/src/collective/runtime.cpp:76-127 | a transfer is issued locally or over the fabric and recorded as outstanding, or fails the collective for want of a route |
| RingExecutors.RingExecutor.HandleLocal | simulator/src/collective/runtime.cpp:128-144 | the local transfer is counted once, then the collective waits, finishes or starts its next round, exactly as its record says |
| RingExecutors.RingExecutor.HandleTransfer | simulator/src/collective/runtime.cpp:145-168 | the same for a fabric transfer, with its delivered bytes; a loss marks the collective as failed |
| RingExecutors.RingExecutor.Advance | simulator/src/collective/runtime.cpp:169-187 | waits while transfers are pending, finishes after a failure, a cancellation or the last round, and otherwise starts exactly the next round |
| RingExecutors.RingExecutor.Finish | simulator/src/collective/runtime.cpp:188-226 | a collective finishes once and reports one result; the delivered-bytes check never fires |
| RingExecutors.RingExecutor.Cancel | simulator/src/collective/runtime.cpp:227-233 | marks an unfinished collective as cancelled, changes nothing of a finished one |
| RackOptimality.FewestRacks | simulator/src/scheduling/policy.cpp:36-54 | the first k GPUs of the compact order touch as few racks as any k free GPUs can |
| RackOptimality.FewestCrossings | simulator/src/scheduling/policy.cpp:36-54 | in that rank order the ring crosses racks as rarely as any k free GPUs in any order can |
| Placements.CompactOrder | simulator/src/scheduling/policy.cpp:36-54 | a permutation of the free GPUs, rack by rack, fullest rack first |
| Placements.RackLocalOrder | simulator/src/scheduling/policy.cpp:55-66 | a permutation whose first k share one rack whenever some rack has k |
| Placements.Place | simulator/src/scheduling/policy.cpp:70-98 | rejected, placed or waiting exactly by capacity; a placement is k distinct free healthy GPUs, the pinned ones if any, and best by what its policy promises |
| Inventory.ResourceInventory.Create | simulator/src/scheduling/inventory.cpp:9-18 | every GPU of the graph, free and healthy, in ID order, within the size limits |
| Inventory.ResourceInventory.Allocate | simulator/src/scheduling/inventory.cpp:20-39 | all of the GPUs become the job's or none does, exactly when all are distinct, free and healthy |
| Inventory.ResourceInventory.Release | simulator/src/scheduling/inventory.cpp:40-46 | exactly the job's GPUs become free |
| Inventory.ReleaseUndoesAllocate | simulator/src/scheduling/inventory.cpp:20-46 | releasing what was allocated restores the inventory |
| Inventory.ResourceInventory.SetHealth | simulator/src/scheduling/inventory.cpp:47-55 | changes one GPU's health and reports its owner; throws exactly for an unknown GPU |
| Inventory.MeasureLocality | simulator/src/scheduling/inventory.cpp:68-87 | the numbers of racks, of NICs and of ring edges between racks |
| Inventory.Fragmentation | simulator/src/scheduling/inventory.cpp:56-67 | free GPUs outside the rack that has most of them |
| JobState.OffsetIsCeiling | simulator/src/workload/engine.cpp:169-198 | ready offsets are exactly ceil(duration * fraction / events), without forming the product |
| JobState.LastOffset | simulator/src/workload/engine.cpp:169-198 | the last bucket is ready exactly when the worker's compute ends |
| JobState.BucketsCover | simulator/src/workload/engine.cpp:236-252 | the buckets of a step add up to the gradient |
| Workloads.Inspect | simulator/src/workload/metrics.cpp:9-47 | compute + idle = workers * (end - allocated), waiting + that span = elapsed, a succeeded job computed exactly steps * sum of durations, and compute never exceeds allocated time |
| Workloads.ActiveFits | simulator/src/workload/metrics.cpp:9-47 | the GPU time of a running job never exceeds what it was allocated, nor 64 bits |
| Engines.WorkloadEngine.Validate | simulator/src/workload/engine.cpp:36-70 | accepts exactly well-formed specifications and returns the number of buckets |
| Engines.WorkloadEngine.Schedule | simulator/src/workload/engine.cpp:72-92 | adds the job with the next ID and its one arrival event, or changes nothing |
| Engines.WorkloadEngine.ScheduleControl | simulator/src/workload/engine.cpp:94-103 | a control event for a known job, or nothing |
| Engines.WorkloadEngine.StartStep | simulator/src/workload/engine.cpp:169-198 | one ready event per bucket a worker reports, each live exactly once |
| Engines.WorkloadEngine.Finish | simulator/src/workload/metrics.cpp:48-90 | the job ends with its events cancelled, its GPUs released and its time settled; every other job is untouched and all invariants hold |
| Engines.WorkloadEngine.StartCollective | simulator/src/workload/engine.cpp:236-252 | the next bucket is submitted exactly when every worker has it ready and none is under way |
| Engines.WorkloadEngine.ComputeReadyEvent | simulator/src/workload/engine.cpp:199-234 | the awaited ready event is consumed once, the bucket counts one more worker, and the next collective starts exactly when it can; no other job changes and no guard fires |
| Engines.WorkloadEngine.ArrivalEvent | simulator/src/workload/engine.cpp:139-160 | with a scheduler the job waits; without one it runs on the GPUs it names, or fails exactly when one of them is taken; no other job changes and ownership stays consistent |
| Engines.WorkloadEngine.GpuStateEvent | simulator/src/workload/scheduling.cpp:21-31 | a GPU that fails takes its job along, so no owned GPU is unhealthy, and another admission pass is due |
| Engines.WorkloadEngine.HandleEvent | simulator/src/workload/engine.cpp:105-137 | every workload event keeps all invariants and throws no logic error |
| Engines.WorkloadEngine.HandleResult | simulator/src/workload/engine.cpp:254-293 | the result is awaited by its job, which fails, goes on to its next bucket or step, or succeeds, exactly as outcome, bucket and step say; no other job changes, and fewer results can still be consumed at once |
| Engines.WorkloadEngine.Admit | simulator/src/workload/scheduling.cpp:58-108 | one waiting job is rejected exactly if it never fits, placed exactly if it fits now, and otherwise left waiting |
| Engines.WorkloadEngine.DispatchWaiting | simulator/src/workload/scheduling.cpp:32-57 | after the single pass no waiting job could be placed on the inventory as it is |
| ClusterModel.QuietJobs | simulator/src/workload/run.cpp:11-24 | with no workload event pending and every result consumed, every job has ended or waits |
| Training.TrainingDispatcher.Pump | simulator/include/nexuslab/workload/dispatcher.hpp:48-62 | ends, because every result consumed leaves a smaller load, and leaves nothing to consume and no admission due; no logic error |
| Training.TrainingDispatcher.Dispatch | simulator/include/nexuslab/workload/dispatcher.hpp:18-45 | every event keeps the three runtimes in agreement; a logic error can come only from a state change |
| Training.TrainingDispatcher.Run | simulator/include/nexuslab/sim/simulation.hpp:103-136 | a run that completes has drained: collectives finished, jobs ended or waiting in vain, transfers completed, links empty; a run that fails reports the error, never a logic error if no state change was scheduled |
| Training.TrainingDispatcher.AppendWaiting | simulator/src/workload/run.cpp:11-24 | after a completed run every job that has not ended is reported as waiting; the unfinished-job check never fires |
| Training.TrainingDispatcher.Report | simulator/src/workload/run.cpp:67-94 | the report holds every collective's result and every job; the pending-collective check never fires |
| Training.RunTraining | simulator/src/workload/run.cpp:26-100 | for every scenario: a report is made only of a drained run with status Completed, and without topology changes no logic error is thrown |
| Paths.MeasureDistances | simulator/src/routing/paths.cpp:27-50 | the breadth-first search yields exactly the hop distances to the destination |
| Paths.Walker.Walk | simulator/src/routing/paths.cpp:65-87 | the shared-path recursion appends exactly the descending ways, or stops exactly when there are more than the limits allow |
| Paths.Enumerate | simulator/src/routing/paths.cpp:27-64 | exactly the minimum-hop operational fabric paths, each once, in ascending order; throws exactly for bad endpoints, and a limit error only if the limits are exceeded |
| Paths.AnswerUnique | simulator/src/routing/paths.cpp:27-64 | there is only one such answer |
| Routes.ShortestIsSimple | simulator/src/routing/paths.cpp:27-64 | the paths are loop-free |
| Paths.PathService.Lookup | simulator/src/routing/paths.cpp:97-126 | returns what a fresh enumeration of the graph as it is now would, for any state changes since the last lookup; pairs and entries stay within limits and match the statistics |
| Paths.PathService.EvictOldest | simulator/src/routing/paths.cpp:88-96 | the order queue is never empty here and no subtraction underflows |
| Paths.ChangesBetweenLookups | simulator/src/topology/graph.cpp:192-244 | any number of state changes is one: equal revisions mean an equal graph |
| PathSummaries.ShortestPathSummary | simulator/src/topology/graph.cpp:287-340 | the true hop distance and the exact number of shortest operational paths; overflow is thrown only if some node has more than 64 bits can count |
| Routes.ShortestOnFabric | simulator/src/topology/graph.cpp:293-340 | between NICs and switches the shortest paths over all links are those over the fabric |
| PathSummaries.CountIsEnumerated | simulator/src/topology/graph.cpp:293-340 | the count equals the number of paths enumeration lists, though the counter also crosses GPU attachments |
| PathSummaries.NoneIsEnumerated | simulator/src/topology/graph.cpp:293-340 | where the counter finds no path, enumeration lists none |
| Topology.LinkDownIsLocal | simulator/src/topology/graph.cpp:192-208 | setting a link down takes down its own two directions only |
| Builders.ApplyBuilt | simulator/src/topology/graph.cpp:94-188 | every builder call keeps dense IDs, exact adjacency lists and the structure of GPU attachments |
| Rebuild.ApplyReplays | simulator/src/topology/graph.cpp:94-188 | a graph equals the one built by replaying racks, NICs, switches and links in table order, whatever the order of its own construction |
| Graphs.ApplyCanonical | simulator/src/topology/graph.cpp:94-188 | every builder call keeps that property in any operational state |
| Graphs.CanonicalRoutes | simulator/src/topology/graph.cpp:387-437 | adjacency is exact and attachments are well formed in every graph that builders and setters produce |
| Graphs.TopologyGraph.AddRack | simulator/src/topology/graph.cpp:94-98 | appends an empty rack in place and keeps the invariant |
| Graphs.TopologyGraph.AddNic | simulator/src/topology/graph.cpp:100-111 | accepts exactly a known rack; otherwise nothing changes |
| Graphs.TopologyGraph.AddGpu | simulator/src/topology/graph.cpp:113-138 | accepts exactly a known NIC, and adds GPU, ports, link and both adjacencies |
| Graphs.TopologyGraph.AddLeafSwitch | simulator/src/topology/graph.cpp:140-151 | accepts exactly a known rack |
| Graphs.TopologyGraph.AddSpineSwitch | simulator/src/topology/graph.cpp:153-158 | appends a switch without a rack |
| Graphs.TopologyGraph.ConnectFabric | simulator/src/topology/graph.cpp:160-188 | accepts exactly compatible, distinct, unconnected endpoints, and adds ports, link and both adjacencies |
| Graphs.TopologyGraph.SetLinkStateTo | simulator/src/topology/graph.cpp:192-208 | sets the state, with the revision moving exactly when the graph changes |
| Graphs.TopologyGraph.SetPortStateTo | simulator/src/topology/graph.cpp:210-226 | the same for ports |
| Graphs.TopologyGraph.SetSwitchStateTo | simulator/src/topology/graph.cpp:228-244 | the same for switches |
| Import.Reconstruct | simulator/src/topology/import.cpp:274-375 | whatever is accepted has exactly the tables given; and the tables of every graph that builders and setters can produce are accepted and yield that graph, adjacency included, with one revision per resource that is down |
| Metrics.MetricRegistry.Update | simulator/src/telemetry/metrics.cpp:461-485 | increment, set and observe are all or nothing, and throw exactly what their preflight throws |
| Metrics.MetricRegistry.Validate | simulator/src/telemetry/metrics.cpp:487-517 | reports the error an update would throw, and none exactly when it would succeed |
| Metrics.UpdateKeeps | simulator/src/telemetry/metrics.cpp:399-485 | every counter is the sum, every gauge the last and every histogram the exact bucket counts of the values its series was given, within the series limit |
| Metrics.HistogramsBalance | simulator/src/telemetry/metrics.cpp:471-485 | the buckets of a histogram add up to its count, which is the number of observations |
| Attribution.TerminalFits | simulator/src/telemetry/summary.cpp:189-211 | once the terminal metrics have been validated together, none of the three increments can fail |
| Attribution.ReplayExplained | simulator/src/telemetry/summary.cpp:67-211 | a summary folded from records says what the records say: each bucket is the number of nanoseconds the job was in that phase, and each series holds exactly its values |
| Attribution.DurationsFit | simulator/src/telemetry/summary.cpp:156-187 | a transition never throws a duration overflow |
| Attribution.Accounted | simulator/src/telemetry/summary.cpp:54-60 | the six buckets add up to last accounted time minus first observation, so the accounted sum never overflows |
| Attribution.SummaryBuilder.Validate | simulator/src/telemetry/summary.cpp:67-92 | throws exactly when consuming would |
| Attribution.SummaryBuilder.Consume | simulator/src/telemetry/summary.cpp:94-114 | all or nothing; after validation nothing fails part-way, and the summary stays the fold of its records |
| Attribution.SummaryBuilder.Finalize | simulator/src/telemetry/summary.cpp:116-133 | every job that has not ended is accounted up to the end, without underflow or overflow |
| Telemetry.TelemetrySession.Record | simulator/src/telemetry/session.cpp:33-84 | a refused record leaves records and summary alone; an accepted one is folded in, retained by mode with the next ID, and every limit is respected |
| Telemetry.TelemetrySession.Finalize | simulator/src/telemetry/session.cpp:86-101 | samples up to and including the end, then closes the summary |
| Telemetry.TelemetrySession.EmitSamples | simulator/src/telemetry/session.cpp:103-122 | passes exactly the boundaries up to the limit and samples each, or stops at the sample limit |
| Telemetry.TelemetrySession.SkipBoundaries | simulator/src/telemetry/session.cpp:124-144 | the one-step skip reaches exactly the boundary the loop would |
| Telemetry.Skipped | simulator/src/telemetry/session.cpp:135-143 | whole intervals from the next boundary lead to the last boundary up to the limit |
| Telemetry.SampledBefore | simulator/src/telemetry/session.cpp:66-68 | sampling before a record is consumed keeps every sample at the state the records up to its boundary leave |
| Telemetry.FullModeReplays | simulator/src/telemetry/session.cpp:33-101 | in Full mode the live summary is at every moment the fold of `consume` over the retained records |

## Left out

- Routing policies, `ecmp_hash`, routing decisions and their limit: a route is an arbitrary outcome (a path, no path, or a limit error) per flow, so the results hold for every policy; the path service that feeds them is modelled on its own.
- Termination of a run: `Simulation.Run` and `TrainingDispatcher.Run` take the number of dispatches as a parameter and report a run that needs more as unfinished; that every training run is finite is not proved.
- The run loop of `simulation.hpp` is written twice, once with scripted handlers and once for the training dispatcher, because the handler is a template parameter in the source.
- Telemetry emission by the transport, collective and workload handlers: no-ops here; the telemetry session is modelled on arbitrary observations.
- Order of samples inside one frame and of metric snapshots: a frame is a map; the source appends in key order. Catalog text, units, serialization and correlation edge kinds are not modelled.
- Links.LinkConserves: link counters are unbounded naturals; `add_traffic` overflow is not modelled. Busy time is proved never to exceed the clock, so its own overflow check cannot fire.
- Transport.TransportRuntime.HandleArrival: link services are held as values and worked on in place by a `DirectedLinkService` made from the value; aliasing of services is not captured.
- Engines.WorkloadEngine.Validate: the configured limits of the workload engine (jobs, timeline, placement records) are not modelled, nor are the timeline and the placement log.
- Engines.WorkloadEngine.HandleEvent: reason strings of job ends and placements are not modelled.
- Training.RunTraining: the graph is any graph builders and setters can produce, rather than the generated Clos fabric; state changes of the topology may be scheduled, which the source's scenario cannot; the maximum waiting bytes of the report are left out.
- Placements.Place: the score of the `random` policy is an arbitrary order; for that policy only candidacy is stated.
- Import.Reconstruct: YAML parsing is not modelled, and `validate_topology` is an arbitrary predicate of the graph.
- Generation of Clos and other topology families, export, DOT output and topology validation.
- Scenario parsing, the command line, report printing, digests and trace hashing.
- The Mersenne Twister and random draws of the simulation.
- `std::priority_queue`, `std::map` and `std::sort` are a minimum-selecting map, Dafny maps and a sorted permutation.
- Distance vectors of the path search are maps from node to hops; ready events of a job are rows per worker instead of one flat vector.
