# Verified model of the Cosmos-RL control plane

Cosmos-RL trains language and world models by reinforcement learning with separate *policy* replicas (which train)
and *rollout* replicas (which generate), steered by one controller. This project models its control plane in Dafny
and proves what the rest of the system relies on. Each module stands for one component:

| modules | component |
|---|---|
| `SliceInfo`, `ShardAssignment`, `ShardPlan`, `Rendezvous`, `SyncOrder`, `SyncExact` | weight synchronisation: every policy rank computes a send list and every rollout rank a receive list from shard descriptors; the lists are dual, cannot deadlock, and move every element exactly once |
| `MeshNumbering`, `MeshTiles`, `MeshSync` | the mixed-radix numbering of ranks, that the shards built from it tile a tensor, and synchronisation between two meshes |
| `PartAlgebra`, `PartStates`, `Balance`, `MiniBatches` | Karmarkar-Karp balancing on mutable sets and states, and token-bounded mini-batches |
| `ControllerModel` | the controller's state and what each handler does to it; a handler that raises yields None |
| `ControllerFlow`, `ControllerStaleness` | what steps and the other events change, and bounded staleness over every run |
| `ControllerStop`, `ControllerSignal`, `ControllerRankStop`, `ControllerStart` | the stop signal from the start of training on, and exactly when it is lost |
| `ControllerQueues`, `ControllerLedger`, `ControllerLockStep`, `ControllerDelivery` | conservation of rollouts, lock step and delivery, over every run |
| `ControllerMesh`, `ControllerLoads`, `ControllerWeights`, `ControllerRaises` | dense meshes, the loaded flags, the weight-loading protocol, and exactly when a handler raises, over every run |
| `ControllerWitnesses` | runs from the start in which a promise is broken |
| `ControllerLoops`, `Controller` | the same handlers as loops and as methods of an object, proved to do what `ControllerModel` says |
| `Broadcast` | the key-value-store command broadcast as per-rank program counters over a shared store |
| `PromptQuota` | throttling and weight-version quotas of prompt fetches |
| `Placement` | the next-fit GPU allocator |
| `Checkpoint` | checkpoint retention |
| `Arithmetic`, `Common` | Python's floor division and integer facts; results, flattened and duplicate-free sequences |

The controller is modelled twice on purpose. `Controller.StatusManager` has the source's fields and loops; each method's
contract equates its new state with a function of `ControllerModel`. The theorems are about those functions and all
finite sequences of events, so they hold of the methods.

`dafny verify dfyconfig.toml` checks the whole project.

## Where the code and its promises differ

- **Receive plans and pipeline stages.** Generating the receive list asserts that each parameter group yields some
  instruction, on every rank. A rank whose stage holds no member of a group gets an error (`SyncExact.GroupOffStageFails`);
  `SyncExact.RecvSucceedsIff` is the exact condition.
- **Fetch before weights.** If all rollouts end with nothing left to train before the policies are initialised, as on a
  resumed run, the extra last fetch goes to every arrived policy replica, also to those that have no weights yet
  (`ControllerWitnesses.FetchBeforeWeights`). The weight protocol holds throughout a run if and only if this never
  happens (`ControllerWeights.WeightProtocol`); `ControllerWeights.TooEarly` is the condition, on the event and the state
  before it.
- **Staleness, departures.** The filter estimates a rollout's step from the number of policy replicas at that moment. When
  one leaves, queued rollouts come up later and can be too old (`ControllerWitnesses.AgedByDeparture`); the bound is kept
  throughout a run if and only if no departure does that (`ControllerStaleness.BoundedStaleness`).
- **Stop signal, an unstarted step.** Rollouts can be queued before the last policy replica arrives. Initialisation then
  makes all replicas ready and tries to start nothing, and neither does the end of the rollouts if steps are left: a full
  step stays queued, no replica trains, and the last fetch never comes (`ControllerWitnesses.QueuedBeforeReady`). With
  steps left at initialisation it happens if and only if a step's rollouts are queued then and no rollout is buffered
  between then and the end (`ControllerStart.StopSignalFromStart`).
- **Stop signal, no step left.** If the steps are counted to be as many as were done, because the samples are too few for
  one or a resumed run had finished, the end of the rollouts is taken for the end of training and nothing is published
  (`ControllerWitnesses.TooFewSamples`); the signal is lost if and only if no step was started.
- **Stop signal, dispatch by rank.** The end-of-rollout handler counts all rank queues together, a step needs each of
  them, and only the shared queue is cleared. `ControllerWitnesses.SumIsNotEnough` is a run that never stops;
  `ControllerRankStop.RankStopIff` is the exact condition.
- **Stop signal, departures.** If the last rollout replica still generating leaves instead of reporting its end, nobody
  evaluates the end condition (`ControllerWitnesses.LastOneLeaves` is such a run); training then ends if and only if the
  queue already holds the rollouts of all steps left and a replica is training (`ControllerSignal.LeavingStopIff`). And
  the rollouts are told to stop only if the first one, by start time, is in the mesh
  (`ControllerStop.RolloutsToldToStopIff`).
- **Weights gone.** When the replicas that hold the weights have left, before initialisation or all of them later, the
  next policy replica that needs weights raises (`ControllerLoads.RegistrationRaisesIff`).
- **Quota without replicas.** With no policy replica the quota is zero and the assertion in the tagging loop fails at the
  second prompt (`PromptQuota.NoReplicasBreakTheQuota`); with a retry limit, an empty fetch of an untagged version raises
  (`PromptQuota.FetchSucceedsIff`).
- **Retained checkpoints.** The list is the last ones saved or the directory that was best *before* this save followed by
  the last ones but one. If this save improves on a best that is the oldest of a full list, it is neither of the two shapes
  one would expect until the next save (`Checkpoint.ShapeIff`, with `Checkpoint.SparedInVain` as an example). With
  `max_keep` 1, 0 or below -1 the best can be deleted (`Checkpoint.KeepsBestIff`).

## Assumptions of the main results

- Weight synchronisation: the policy shards of a parameter tile the tensor and equal regions have equal descriptors
  (discharged for two meshes by `MeshSync.MeshSyncIsExact`); totals of one dimension divide one another and its size; the
  ranks' sorted name lists follow one common order and groups are disjoint.
- Controller runs: atoms of a policy replica have ranks below its size, and a replica reports only fetches it has not
  reported yet. A run ends where a handler raises; `ControllerRaises.HandlersRaiseIff` says exactly when that is.
- Mesh density: no policy replica leaves after training has finished, since the code then no longer rebuilds the mesh.
- Staleness is about the shared queue. The stop signal is about a fixed set of policy replicas from initialisation on, of
  which only those in training report (`ControllerStop.Orderly`), and with `ControllerStart` and `ControllerSignal` about
  the shared queue. That reports succeed needs enough samples in flight (`ControllerStop.Covered`), which `train_ack`
  asserts.
- Validation is off.

## Model

| member | source | states |
|---|---|---|
| `SyncExact.SyncIsExact` | cosmos_rl/utils/parallelism_map.py:1053-1386 | **Main result.** For tiling policy shards, executing a rollout rank's generated receive list writes every position of every parameter it holds exactly once, with the policy's value at the same global index; any number of dimensions and ranks |
| `SyncExact.ExactlyOneWriter` | cosmos_rl/utils/parallelism_map.py:1243-1386 | Exactly one policy rank's message writes a given position of a rollout shard |
| `SyncExact.WriterIsServer` | cosmos_rl/utils/parallelism_map.py:267-297 | That rank is the server the assignment picks among the policy ranks holding the same shard |
| `SyncExact.WritesIffCovered` | cosmos_rl/utils/dim_slice_info.py:211-239 | A transfer writes a position if and only if the policy's shard covers the corresponding global index |
| `SyncExact.SourceIsSame` | cosmos_rl/utils/dim_slice_info.py:211-239 | What a transfer brings to a position is the policy's element of the same global position |
| `SyncExact.TransferAt` | cosmos_rl/utils/dim_slice_info.py:211-239 | In each dimension both frames' slices are defined, have one extent and start at the same global index |
| `SyncExact.PartDefined` | cosmos_rl/utils/dim_slice_info.py:89-111 | The slicing assertions hold on both sides of every generated transfer |
| `SyncExact.CosmosSlice` | cosmos_rl/utils/dim_slice_info.py:112-130 | Slicing by a dictionary of strategies, in any order, is the per-dimension slice of the view |
| `SyncExact.RecvSucceedsIff` | cosmos_rl/utils/parallelism_map.py:1243-1386 | With tiling policies the receive list is generated without error if and only if the rank holds a member of every parameter group |
| `SyncExact.GroupOffStageFails` | cosmos_rl/utils/parallelism_map.py:1374-1381 | Concrete two-stage layout in which that error is raised for one rank though every parameter can be sent |
| `SyncOrder.PlanProjects` | cosmos_rl/utils/parallelism_map.py:1066-1189 | Every rank's generated list, flattened, is the projection of one global order (parameter, policy rank, rollout rank) |
| `SyncOrder.PlansAreDual` | cosmos_rl/utils/parallelism_map.py:1256-1381 | What policy rank p sends to rollout rank r is, message by message and in order, what r receives from p |
| `SyncOrder.SyncNeverStuck` | cosmos_rl/utils/parallelism_map.py:1053-1386 | With blocking in-order sends and receives no interleaving of the ranks gets stuck, and all runs have the same length |
| `Rendezvous.NeverStuck` | cosmos_rl/utils/parallelism_map.py:1053-1386 | Any lists that project one order can always be run to the end, from every partial run |
| `Rendezvous.EnabledMeets` | cosmos_rl/utils/parallelism_map.py:1053-1386 | When sender and receiver can exchange they are at the same message of the common order |
| `Rendezvous.ExchangeKeepsOrder` | cosmos_rl/utils/parallelism_map.py:1053-1386 | An exchange removes one message and keeps every list a projection of the rest |
| `ShardPlan.GenerateSendInsts` | cosmos_rl/utils/parallelism_map.py:1053-1195 | The send loop yields exactly the plan of transfers, ungrouped parameters first, then group by group |
| `ShardPlan.GenerateRecvInsts` | cosmos_rl/utils/parallelism_map.py:1243-1386 | The receive loop yields the same plan, or an error exactly when some parameter or group has no instruction |
| `ShardPlan.SendInstsForParam` | cosmos_rl/utils/parallelism_map.py:1080-1119 | One parameter's instructions: one for each rollout rank served that overlaps in every dimension |
| `ShardPlan.RecvInstsForParam` | cosmos_rl/utils/parallelism_map.py:1270-1305 | The same on the receiving side |
| `ShardPlan.SplitStrategies` | cosmos_rl/utils/parallelism_map.py:1090-1105 | Visiting the dimensions in any order gives both frames' strategies, or none at the first dimension without overlap |
| `ShardPlan.GetDupRanks` | cosmos_rl/utils/parallelism_map.py:1197-1241 | The ranks that hold the same descriptor of a parameter, each once and in order |
| `ShardPlan.HoldersExactly` | cosmos_rl/utils/parallelism_map.py:1197-1241 | A rank is listed exactly if it holds the parameter with that descriptor |
| `ShardPlan.GroupOkIff` | cosmos_rl/utils/parallelism_map.py:1321-1381 | A group passes the non-empty assertion exactly if one of its held members has an instruction |
| `SliceInfo.SimplifyKeepsIndices` | cosmos_rl/utils/dim_slice_info.py:67-74 | Simplifying never changes the selected indices |
| `SliceInfo.SimplifyLowestTerms` | cosmos_rl/utils/dim_slice_info.py:67-74 | The simplified numbers have no common divisor but one |
| `SliceInfo.UnifyKeepsIndices` | cosmos_rl/utils/dim_slice_info.py:133-154 | Unification gives one denominator and the same selected indices |
| `SliceInfo.MergeIsNested` | cosmos_rl/utils/dim_slice_info.py:197-208 | Slicing by the outer and then the inner slice selects what the merged slice selects |
| `SliceInfo.MergeEmptyOuter` | cosmos_rl/utils/dim_slice_info.py:197-208 | An empty outer slice stays empty |
| `SliceInfo.OverlapFacts` | cosmos_rl/utils/dim_slice_info.py:211-239 | Every assertion on the way to the overlap holds for comparable slices |
| `SliceInfo.OverlapIffShared` | cosmos_rl/utils/dim_slice_info.py:157-176 | There is an overlap if and only if some index is selected by both |
| `SliceInfo.OverlapSameGlobalStart` | cosmos_rl/utils/dim_slice_info.py:179-239 | Both local slices start at the same global index and have the same length |
| `SliceInfo.OverlapSelectsShared` | cosmos_rl/utils/dim_slice_info.py:179-239 | The transferred indices are exactly those both shards select |
| `ShardAssignment.PolicyToRolloutAssign` | cosmos_rl/utils/parallelism_map.py:267-297 | The assignment loop yields exactly the pairs of chunks, for each policy |
| `ShardAssignment.ServesExactlyOne` | cosmos_rl/utils/parallelism_map.py:267-297 | Every rollout rank is served by exactly one policy rank |
| `ShardAssignment.FairShare` | cosmos_rl/utils/parallelism_map.py:267-297 | No policy rank serves more than ceil(rollouts / policies) |
| `MeshNumbering.BuildCoordinates` | cosmos_rl/utils/parallelism.py:477-520 | The iterated array_split gives every rank its mixed-radix digits in (pp, dp_replicate, dp_shard, cp, tp) |
| `MeshNumbering.ValueOfDigits` | cosmos_rl/utils/parallelism.py:477-520 | The digits determine the rank |
| `MeshNumbering.DigitsOfValue` | cosmos_rl/utils/parallelism.py:477-520 | Every coordinate vector is that of its rank: the numbering is a bijection |
| `MeshTiles.ParallelDims.Validate` | cosmos_rl/utils/parallelism.py:132-164 | Validation settles the degrees, or fails exactly when they are not acceptable |
| `MeshTiles.OpenShardAccepted` | cosmos_rl/utils/parallelism.py:132-164 | An open sharding degree (-1) is accepted exactly when the other degrees divide the world size |
| `MeshTiles.ParallelDims.BuildMeshInfo` | cosmos_rl/utils/parallelism.py:477-532 | Every rank's entry names its five coordinates and its fused ranks, each the partial number that division leaves: dp = rank / (cp * tp) % (dp_replicate * dp_shard), dp_shard_cp, dp_cp_tp, and pp_cp_tp as the stage followed by the number within (cp, tp); the sizes of all nine dimensions |
| `MeshTiles.PartialNumbers` | cosmos_rl/utils/parallelism.py:509-532 | The digits of neighbouring dimensions put together are the rank's number with the other dimensions divided out |
| `MeshTiles.ParallelDims.GetFullMeshRankInfo` | cosmos_rl/utils/parallelism_map.py:161-186 | What the mesh object answers for a rank are the slices of the rank's place |
| `MeshTiles.RankOfPlace` | cosmos_rl/utils/parallelism.py:477-532 | The fused place of a rank determines the rank |
| `MeshTiles.PlaceOfRank` | cosmos_rl/utils/parallelism.py:477-532 | Every place in the mesh is that of its rank |
| `MeshTiles.PlaceHolds` | cosmos_rl/utils/parallelism_map.py:206-247 | Every rank holds one tile of a sharded dimension, as one numbered copy |
| `MeshTiles.HolderHolds` | cosmos_rl/utils/parallelism_map.py:225-247 | Every copy of every tile is held by some rank of the stage |
| `MeshTiles.EquallyHeld` | cosmos_rl/utils/parallelism_map.py:225-247 | Per pipeline stage every tile is held by equally many ranks |
| `MeshTiles.GenerateLocalShardInfo` | cosmos_rl/utils/parallelism_map.py:299-328 | The descriptors are the slices along the given mesh dimensions, single or merged |
| `MeshTiles.SliceIsTile` | cosmos_rl/utils/parallelism_map.py:188-223 | Sharding along tp, dp_shard_cp, both merged or dp_cp_tp yields the rank's tile |
| `MeshTiles.MeshTilesTensor` | cosmos_rl/utils/parallelism_map.py:299-328 | Sharding along independent axes that divide the tensor tiles it: the hypothesis of SyncIsExact is discharged |
| `MeshSync.MeshSyncIsExact` | cosmos_rl/utils/parallelism_map.py:1053-1386 | **Main result.** For two meshes, with shards computed from their numberings, and a parameter whose layouts divide it: exactly the ranks of the stage hold it, and each rollout rank's receive list writes every position of its shard exactly once with the policy's value at the same global index |
| `MeshSync.MeshInputsValid` | cosmos_rl/utils/parallelism_map.py:1053-1386 | Shards computed on two meshes whose cuttings are nested satisfy all assertions of the slice algebra |
| `MeshSync.LocalShardInfoForParams` | cosmos_rl/utils/parallelism_map.py:330-383 | A rank holds exactly the listed parameters of its stage, sliced along their mesh dimensions; an error exactly if one of them cannot be sliced |
| `MeshSync.ShardInfos` | cosmos_rl/utils/parallelism_map.py:124-159 | The shards of all ranks of a numbered mesh, or an error exactly if one rank cannot slice a parameter |
| `MeshSync.NestedComparable` | cosmos_rl/utils/dim_slice_info.py:157-176 | Tiles of nested cuttings can be compared |
| `Balance.KarmarkarKarp` | cosmos_rl/utils/balance_seqlen.py:98-128 | Succeeds exactly for a non-empty list that divides evenly if equal sizes are asked; every index in exactly one part, sums within the longest item (or the widest group gap), equal sizes on request |
| `Balance.StateIsBalanced` | cosmos_rl/utils/balance_seqlen.py:121-128 | A state with all items yields a partition with these properties |
| `PartAlgebra.PairedWithin` | cosmos_rl/utils/balance_seqlen.py:67-82 | Merging two descending states in reverse order keeps all sums within the larger of the two spreads |
| `PartAlgebra.MergedGood` | cosmos_rl/utils/balance_seqlen.py:67-82 | A merge keeps items, totals, order, the number of non-empty sets and the spread bound |
| `PartAlgebra.DescendingFilledFirst` | cosmos_rl/utils/balance_seqlen.py:41-70 | With m items the first min(m, k) sets are the non-empty ones |
| `PartAlgebra.MergedAllOfSize` | cosmos_rl/utils/balance_seqlen.py:67-82 | Equal sizes stay equal |
| `PartStates.State.Merge` | cosmos_rl/utils/balance_seqlen.py:67-70 | The in-place merge of two states is the merge of their contents; the other state is left as it was |
| `PartStates.State.GetPartitions` | cosmos_rl/utils/balance_seqlen.py:58-65 | The index lists of the sets, in order |
| `PartStates.SortSets` | cosmos_rl/utils/balance_seqlen.py:41-56 | Sorting the set objects in descending order |
| `Balance.FillHeap` | cosmos_rl/utils/balance_seqlen.py:98-112 | The heap starts with one state per item, or per group of k consecutive sorted items |
| `Balance.Reduce` | cosmos_rl/utils/balance_seqlen.py:114-121 | Merging the two least states until one is left keeps what every round keeps |
| `MiniBatches.GetSeqlenBalancedPartitions` | cosmos_rl/utils/balance_seqlen.py:132-179 | Succeeds if and only if there are enough items (and they divide evenly): none of the final assertions can fire |
| `MiniBatches.CheckAndSortPartitions` | cosmos_rl/utils/balance_seqlen.py:164-174 | The check accepts exactly k non-empty parts that see every index |
| `MiniBatches.RearrangeMiniBatches` | cosmos_rl/utils/balance_seqlen.py:187-262 | The exact success condition; all mini-batches non-empty, below twice the token limit, together a permutation of the batch that the index lists map back; heaviest first on request |
| `MiniBatches.TokenBound` | cosmos_rl/utils/balance_seqlen.py:208-262 | Every part of a balanced partition stays strictly below twice the limit |
| `MiniBatches.CountIsEnough` | cosmos_rl/utils/balance_seqlen.py:214-236 | The count suffices for all tokens and never exceeds the number of items by this rank's own choice |
| `MiniBatches.SplitSucceeds` | cosmos_rl/utils/balance_seqlen.py:214-247 | With a token, and no minimum or peer asking for more mini-batches than items, the split succeeds |
| `Arithmetic.CeilDivIsCeiling` | cosmos_rl/utils/balance_seqlen.py:182-183 | ceildiv is the ceiling |
| `ControllerStaleness.BoundedStaleness` | cosmos_rl/dispatcher/status.py:799-832 | **Main result.** With the shared queue, over every run from the start with replicas coming and going: queued rollouts stay young enough for the steps their places come up in, throughout the run, if and only if no departure of a policy replica ages them; and then every rollout dispatched for global step g has (g - 1) - weight_version <= allowed_outdated_steps |
| `ControllerStaleness.EventStaleIff` | cosmos_rl/dispatcher/status.py:799-832 | An event keeps this if and only if it is not such a departure, a predicate of the event and the state before it: the queue read at the lower pace of the replicas that stay |
| `ControllerStaleness.StayingNeverAges` | cosmos_rl/dispatcher/status.py:349-369 | In particular no run without departures of policy replicas is affected |
| `ControllerStaleness.StalenessFromEmptyQueue` | cosmos_rl/dispatcher/status.py:799-832 | The same from any state with an empty shared queue, for the steps from there on |
| `ControllerWitnesses.AgedByDeparture` | cosmos_rl/dispatcher/status.py:349-369 | A run from the start after which the departure of one of two policy replicas leaves a queued rollout a step too old for its place |
| `ControllerStaleness.FilterLeavesSlack` | cosmos_rl/dispatcher/status.py:799-832 | The rollouts that pass the filter get queue places early enough for their age |
| `ControllerStaleness.TriggerKeepsStale` | cosmos_rl/dispatcher/status.py:1266-1323 | Starting a step keeps the bound for everything queued and still to be queued |
| `ControllerFlow.RolloutEventsUntrained` | cosmos_rl/dispatcher/status.py:1492-1670 | Rollout replicas coming and going change nothing of the training state but what is published |
| `ControllerStart.StopSignalFromStart` | cosmos_rl/dispatcher/run_web_panel.py:434-483 | **Main result.** The stop signal over whole runs from the start, with the shared queue: any arrivals up to initialisation, any orderly events, the end of all rollouts. Then reports alone lead to the last fetch, and the state is safe whatever comes after, if and only if `LosesSignal` does not hold before the end; with steps left at initialisation that is if and only if a step's rollouts were queued then and none was buffered between; with all steps done, or too few samples for one, if and only if no step was started |
| `ControllerStart.InitialisedSignal` | cosmos_rl/dispatcher/status.py:501-617 | Initialising the policies leaves a step unstarted if and only if its rollouts are queued and steps are left: the hook makes all replicas ready and tries to start nothing |
| `ControllerSignal.EndDecides` | cosmos_rl/dispatcher/run_web_panel.py:434-483 | The end of the last rollout replica, in any initialised state: the handler does not raise, the state is safe, and (with samples enough in flight) reports lead to the last fetch, if and only if the last fetch is out, the extra one is issued, or steps are left and a replica is training |
| `ControllerSignal.StopSignalKeptIff` | cosmos_rl/dispatcher/run_web_panel.py:434-483 | From any initialised state with steps left, with any orderly events before and after the end of all rollouts: the last fetch is out or reports lead to it, if and only if it is not so that a step's rollouts were queued at the beginning with nobody trying to start it and none was buffered since |
| `ControllerSignal.SafeIsExact` | cosmos_rl/dispatcher/status.py:1256-1340 | In every initialised state with steps left, safe means what it should: reports alone lead to the last fetch if and only if it is out, or the queue holds all steps left and a replica is training |
| `ControllerSignal.StopSignalArrives` | cosmos_rl/dispatcher/status.py:1256-1340 | From a safe state reports alone lead to the last fetch |
| `ControllerSignal.SharedStopIff` | cosmos_rl/dispatcher/status.py:1190-1208 | With the shared queue, reports alone reach the last step if and only if it is reached, or the queue holds the rollouts of all steps left and a replica is training |
| `ControllerSignal.EventStuck` | cosmos_rl/dispatcher/status.py:731-784 | With steps left, a step is unstarted after an event if and only if it was before and the event buffers no rollout |
| `ControllerStop.ConcludeProvided` | cosmos_rl/dispatcher/run_web_panel.py:434-483 | The end-of-rollout decision leaves the last fetch out, or steps left with all their rollouts queued |
| `ControllerStop.SomeoneRuns` | cosmos_rl/dispatcher/status.py:1246-1340 | While steps are left and supplied some replica is training, so a report is to come |
| `ControllerStop.AckProgress` | cosmos_rl/dispatcher/status.py:941-1148 | Every report meanwhile succeeds, keeps the supply, and completes the step or leaves fewer replicas training |
| `ControllerStop.TriggerSettles` | cosmos_rl/dispatcher/status.py:1246-1340 | After a trigger no step that could start is left waiting |
| `ControllerStart.InitialisedSteadyIff` | cosmos_rl/dispatcher/status.py:501-617 | Initialising the policies leaves a steady state if and only if steps are left and no step could start at once |
| `ControllerStart.InitialisedRankSteadyIff` | cosmos_rl/dispatcher/status.py:501-617 | When dispatching by rank, if and only if steps are left: the rank queues are new |
| `ControllerWitnesses.QueuedBeforeReady` | cosmos_rl/dispatcher/status.py:501-617 | A run from the start in which two rollouts, one step, are queued before the second of two policy replicas arrives: after the end of the rollouts all are ready, one step is left with its rollouts queued, and no reports lead to it |
| `ControllerWitnesses.TooFewSamples` | cosmos_rl/dispatcher/run_web_panel.py:453-462 | A run from the start with one sample for two policy replicas: no step is counted, the end of the rollouts publishes nothing, and no reports lead to the last fetch |
| `ControllerSignal.LeavingStopIff` | cosmos_rl/dispatcher/status.py:1492-1508 | When the last rollout replica still generating leaves instead of reporting its end, reports lead to the last step if and only if it is reached, or the queue already held the rollouts of all steps left and a replica was training; had it reported its end, the state would be safe unless a step had been left unstarted |
| `ControllerWitnesses.LastOneLeaves` | cosmos_rl/dispatcher/status.py:1492-1508 | A run from the start in which the last rollout replica leaves during the first of five steps: no reports lead to the last step |
| `ControllerStop.RolloutsToldToStopIff` | cosmos_rl/dispatcher/command.py:346-376 | After the last step a rollout replica is told to stop if and only if it has arrived, is in the mesh, and so is the first rollout replica |
| `ControllerRankStop.RankStopIff` | cosmos_rl/dispatcher/status.py:1190-1208 | With dispatch by rank, reports alone reach the last step if and only if every rank's own queue holds the rollouts of all steps left |
| `ControllerWitnesses.SumIsNotEnough` | cosmos_rl/dispatcher/run_web_panel.py:441-451 | A run from the start, with two ranks, in which the end of the rollouts finds one step's worth pending in all queues together, leaves one step to go, and no reports lead to it |
| `ControllerLedger.RolloutsConserved` | cosmos_rl/dispatcher/status.py:731-784 | **Main result.** Over every run with replicas coming and going: every buffered rollout is dispatched, cleared at the end or still queued, once; with the shared queue in order; one batch per real fetch and replica; training exactly if one fetch is unreported |
| `ControllerLockStep.LockStep` | cosmos_rl/dispatcher/status.py:1246-1340 | **Main result.** Over every run: an event that publishes a fetch with rollouts to any replica finds every arrived replica with every fetch reported (the event's own report included), and gives each of them exactly one such fetch and one batch |
| `ControllerLockStep.EventLockStep` | cosmos_rl/dispatcher/status.py:228-1340 | Every event starts one step for all arrived replicas, or none for anybody |
| `ControllerDelivery.RolloutsDelivered` | cosmos_rl/dispatcher/status.py:1288-1323 | **Main result.** Over every run: what the policy replicas received, those that left included, is together exactly what the steps dispatched |
| `ControllerDelivery.SharesAreDealt` | cosmos_rl/dispatcher/status.py:1318-1323 | All shares together are what was dealt from the front of the shared queue |
| `ControllerDelivery.EventDelivers` | cosmos_rl/dispatcher/status.py:349-1340 | Every event keeps what was received and what was dispatched in balance |
| `ControllerLedger.EventLedger` | cosmos_rl/dispatcher/status.py:349-1340 | Every event keeps the books |
| `ControllerQueues.ShareAt` | cosmos_rl/dispatcher/status.py:1318-1323 | The j-th rollout a replica gets is the one of its turn in the j-th dealing round |
| `ControllerQueues.RearrangedKeeps` | cosmos_rl/dispatcher/status.py:484-499 | Redistributing the rank queues keeps every rollout and puts it in slot prompt_idx % n |
| `ControllerQueues.ServedKeeps` | cosmos_rl/dispatcher/status.py:1294-1317 | What is dealt by rank and what stays are together what was queued |
| `ControllerMesh.MeshStaysDense` | cosmos_rl/dispatcher/status.py:349-369 | **Main result.** After any interleaving of arrivals, departures, reports and rollouts, once initialised and with no departure after training finished: the ranks are dense, every stream's last BuildMesh is that mesh, and dispatching by rank there are n routed queues |
| `ControllerMesh.DenseRanks` | cosmos_rl/dispatcher/command.py:133-145 | Then each rank below n belongs to exactly one arrived replica and equals its entry in the last mesh it was told |
| `ControllerMesh.RebuildMakesMesh` | cosmos_rl/dispatcher/status.py:474-499 | Rebuilding makes the mesh dense whatever it was |
| `ControllerMesh.MeshIsBijection` | cosmos_rl/dispatcher/command.py:133-145 | The published rank map is a bijection onto 0..n-1 |
| `ControllerMesh.EventSeated` | cosmos_rl/dispatcher/status.py:349-617 | Every event, departures at any time among them, keeps ranks to arrived replicas and a rank queue for each of them |
| `ControllerMesh.TriggerHasQueues` | cosmos_rl/dispatcher/status.py:1288-1323 | Hence starting a step with rollouts never runs into a missing queue |
| `ControllerRaises.HandlersRaiseIff` | cosmos_rl/dispatcher/status.py:89-1670 | **Main result.** In every state a run reaches, a handler raises if and only if the event is refused: a repeated or mismatched atom, weights nobody can pass on, an unknown or incomplete replica, a version ahead of the step, rollouts by rank before there are ranks, too few samples in flight; no other assertion fires |
| `ControllerRaises.GroupRaisesIff` | cosmos_rl/dispatcher/run_web_panel.py:485-514 | A group of rollouts raises if and only if one is ahead of the step, or one has to be buffered by rank before initialisation |
| `ControllerRaises.AckRaisesIff` | cosmos_rl/dispatcher/status.py:919-1151 | A report raises if and only if the replica is unknown or incomplete, or it is the last report of a step with fewer samples in flight than the step used |
| `ControllerRaises.EndRaisesIff` | cosmos_rl/dispatcher/run_web_panel.py:434-483 | The end of a rollout replica raises if and only if the extra fetch is due, by rank, before initialisation |
| `ControllerRaises.RolloutRaisesIff` | cosmos_rl/dispatcher/status.py:1510-1670 | An atom of a rollout replica raises if and only if it repeats or its group size differs; never because too many have arrived |
| `ControllerRaises.NoQueuesIff` | cosmos_rl/dispatcher/status.py:731-753 | Dispatching by rank, there are no rank queues exactly before initialisation |
| `ControllerWeights.WeightProtocol` | cosmos_rl/dispatcher/status.py:371-617 | **Main result.** Over every run, departures at any time included: in each stream a fetch, a send of weights or a trainable-only update comes after a command that gave all weights, throughout the run, if and only if the extra last fetch is never issued while an arrived policy replica has no weights; a replica is then regarded as loaded exactly if it was given them, and after initialisation all arrived policies are |
| `ControllerWeights.EventSoundIff` | cosmos_rl/dispatcher/run_web_panel.py:434-483 | An event keeps the protocol if and only if it is not such an extra fetch, a predicate of the event and the state before it |
| `ControllerWeights.TooEarlyBreaks` | cosmos_rl/dispatcher/run_web_panel.py:464-483 | The extra fetch issued then reaches a replica that was never given weights |
| `ControllerWitnesses.FetchBeforeWeights` | cosmos_rl/dispatcher/run_web_panel.py:434-483 | A run from the start, resumed at step 5 with two of three policy replicas there, in which this happens |
| `ControllerWeights.EventWeights` | cosmos_rl/dispatcher/status.py:1153-1188 | Every other event keeps the protocol |
| `ControllerLoads.RegistrationRaisesIff` | cosmos_rl/dispatcher/status.py:371-472 | Registering a policy atom raises if and only if it repeats or its group size differs, or it completes a replica that needs weights and nobody is left to pass them on; the other assertions never fire. No condition on the run but that its events are regular |
| `ControllerLoads.EventFlags` | cosmos_rl/dispatcher/status.py:371-617 | Every regular event, an extra fetch issued too early among them, keeps the loaded flags in order: only arrived policy replicas are loaded, and after initialisation all arrived ones |
| `ControllerWeights.SendWeights` | cosmos_rl/dispatcher/command.py:283-308 | Policy-to-rollout transfers keep the protocol: trainable-only exactly for loaded destinations |
| `ControllerWeights.BroadcastWeights` | cosmos_rl/dispatcher/command.py:346-370 | Rollout broadcasts keep the protocol, skipping replicas outside the mesh |
| `Controller.StatusManager.TryTriggerDataFetchAndTraining` | cosmos_rl/dispatcher/status.py:1246-1340 | The handler as a field-updating method does exactly what its specification function says |
| `Controller.StatusManager.DispatchRollouts` | cosmos_rl/dispatcher/status.py:1288-1323 | The dealing loops of both dispatch modes, against the specification |
| `Controller.StatusManager.PutAll` | cosmos_rl/dispatcher/status.py:755-784 | Buffers rollouts one by one, with the on-policy break |
| `Controller.StatusManager.FilterOutdatedRollouts` | cosmos_rl/dispatcher/status.py:799-832 | Keeps exactly the fresh rollouts; fails exactly if one is ahead of the step |
| `Controller.StatusManager.PutRolloutGroup` | cosmos_rl/dispatcher/run_web_panel.py:485-514 | Filter, then buffer |
| `Controller.StatusManager.RecomputeTotalSteps` | cosmos_rl/dispatcher/status.py:243-271 | Steps by remaining samples, capped, unless finished or nobody has arrived |
| `Controller.StatusManager.HandleTrainAck` | cosmos_rl/dispatcher/status.py:919-1151 | The last report synchronises weights if due and tries the next step |
| `Controller.StatusManager.TriggerWeightSync` | cosmos_rl/dispatcher/status.py:1153-1188 | Policy to first rollout, then to all rollouts of the mesh |
| `Controller.StatusManager.HandleRolloutEnd` | cosmos_rl/dispatcher/run_web_panel.py:434-483 | Ends, recomputes, and issues the extra last fetch |
| `Controller.StatusManager.RegisterPolicyAtom` | cosmos_rl/dispatcher/status.py:371-472 | Registration of a policy atom, with every branch of the post-register hook |
| `Controller.StatusManager.UnregisterPolicyReplica` | cosmos_rl/dispatcher/status.py:349-369 | Departure of a policy replica |
| `Controller.StatusManager.RegisterRolloutAtom` | cosmos_rl/dispatcher/status.py:1510-1556 | Registration of a rollout atom |
| `Controller.StatusManager.UnregisterRolloutReplica` | cosmos_rl/dispatcher/status.py:1492-1508 | Departure of a rollout replica |
| `Controller.StatusManager.RebuildPolicies` | cosmos_rl/dispatcher/status.py:474-499 | Mesh, steps and rank queues rebuilt |
| `Controller.StatusManager.Handle` | cosmos_rl/dispatcher/status.py:89-1670 | Every event is handled as its specification function says, raising exactly when it does |
| `ControllerLoops.BuildMeshLoop` | cosmos_rl/dispatcher/command.py:133-145 | Ranking and publishing one by one gives the mesh |
| `ControllerLoops.DealLoop` | cosmos_rl/dispatcher/status.py:1318-1323 | Taking each rollout from the front, in rounds, gives every replica its share |
| `ControllerLoops.RankDealLoop` | cosmos_rl/dispatcher/status.py:1295-1317 | Sorting and serving each rank's queue |
| `ControllerLoops.RearrangeLoop` | cosmos_rl/dispatcher/status.py:484-499 | The redistribution loop |
| `Broadcast.BroadcastIsSafe` | cosmos_rl/utils/distributed.py:816-858 | **Main result.** For any number of ranks and any interleaving: the c-th command returned on every rank is the c-th packed; counters differ by at most one; two rounds of keys at most; nobody waits for or reads a removed key |
| `Broadcast.NeverStuck` | cosmos_rl/utils/distributed.py:816-858 | Unless all have finished the same round, some rank can take a step of it |
| `Broadcast.WorkDecreases` | cosmos_rl/utils/distributed.py:816-858 | Steps that start no round use up a bounded amount of work, in any order |
| `Broadcast.RoundCompletes` | cosmos_rl/utils/distributed.py:816-858 | From every state the invariant allows, the ranks finish the started rounds with the same commands |
| `Broadcast.StepKeepsInv` | cosmos_rl/utils/distributed.py:829-858 | Every step of every rank keeps the exact contents of the store |
| `PromptQuota.QuotaHolds` | cosmos_rl/dispatcher/controller.py:323-371 | **Main result.** Over any run of joins, leaves and fetches, while nothing has left and a policy replica is there, no version is tagged on more prompts than one step needs |
| `PromptQuota.FetchSucceedsIff` | cosmos_rl/dispatcher/controller.py:323-405 | The exact condition under which a controlled fetch succeeds; with a replica the quota's assertion never fails, and it never counts too many retries |
| `PromptQuota.NoReplicasBreakTheQuota` | cosmos_rl/dispatcher/controller.py:340-358 | Without a policy replica the second prompt of a batch breaks the assertion |
| `PromptQuota.TagsInOrder` | cosmos_rl/dispatcher/controller.py:338-375 | Tags never decrease, each is counted once, every version passed over is full |
| `PromptQuota.QuotaKept` | cosmos_rl/dispatcher/controller.py:340-375 | The assertion in the loop cannot fail when no count exceeds a positive quota |
| `PromptQuota.TagPayloads` | cosmos_rl/dispatcher/controller.py:338-375 | The tagging loops, with termination of the skip loop |
| `PromptQuota.Dispatcher.GetBatchedPrompt` | cosmos_rl/dispatcher/controller.py:237-438 | A training fetch: throttle, tags, retry check, samples in flight |
| `Placement.PlacementIsSound` | cosmos_rl/launcher/utility.py:495-570 | **Main result.** When every replica fits on one node: each is placed once with exactly its GPUs; nodes are packed without sharing; fewer than 2 * demand / gpus_per_node + 1 nodes; the launcher's capacity assertion holds |
| `Placement.PackedDisjoint` | cosmos_rl/launcher/utility.py:711-739 | No GPU of a node is given to two of its commands |
| `Placement.NodesBound` | cosmos_rl/launcher/utility.py:696-709 | Any two neighbouring nodes together use more than one node's GPUs |
| `Placement.NodesManager.ReplicaPlacement` | cosmos_rl/launcher/utility.py:495-570 | Policies, rollouts, references, then the last flush, against the specification |
| `Placement.NodesManager.ReplicaPlacementForRole` | cosmos_rl/launcher/utility.py:637-739 | The placing loop |
| `Placement.NodesManager.Flush` | cosmos_rl/launcher/utility.py:572-578 | Appends to the current node, creating it if need be |
| `Placement.PlacedUses` | cosmos_rl/launcher/launch_all.py:773-780 | The GPUs given out are exactly those the launcher counts as required |
| `Checkpoint.Retention` | cosmos_rl/utils/checkpoint.py:711-747 | **Main result.** For max_keep >= 2, after any saves: the best is retained; the list is the last max_keep saved, or the directory that was best before the save followed by the last max_keep - 1; exactly the others were deleted, once each |
| `Checkpoint.KeepsBestIff` | cosmos_rl/utils/checkpoint.py:711-747 | The best survives every run if and only if max_keep is -1 or at least 2 |
| `Checkpoint.ShapeIff` | cosmos_rl/utils/checkpoint.py:711-756 | The list is the last max_keep, or the current best followed by the last max_keep - 1, if and only if the save does not improve on a best that is the oldest of a full list |
| `Checkpoint.SparedInVain` | cosmos_rl/utils/checkpoint.py:711-756 | Three saves, with room for two, after which it is neither |
| `Checkpoint.BestIsFirstBest` | cosmos_rl/utils/checkpoint.py:750-756 | The recorded best is the first save with the best score |
| `Checkpoint.CheckpointManager.SaveCheck` | cosmos_rl/utils/checkpoint.py:711-756 | One save, against the specification, and what it asks to delete |

## Left out

- HTTP, Redis, NCCL, ZMQ, msgpack and torch: publishing is an append to a per-replica log, tensors are functions of an index, packing a command is the identity.
- The state after a handler has raised: a run ends there.
- Heap aliasing of replicas: replicas are values in an insertion-ordered dictionary (a map and its key order), updated by reassigning the entry, so sharing one replica object between the two managers is not captured.
- Real time: start times are event parameters and a heartbeat death is a departure at any moment.
- Rollout registration with policies of equal start time: ties go to the earlier registration, the code orders them by name first.
- Validation, SFT, colocated mode, profiling, logging and report aggregation in the controller; whether a fetch asks for a checkpoint.
- The one-off flag of the first weight-sync check in the policy-to-rollout command.
- Completions (text, token ids, end-of-sequence handling): a rollout is its prompt index, weight version and a tag.
- DAPO tagging and its throttle, and the data fetcher's own per-rank bookkeeping: a fetch returns some number of prompts up to the one asked for.
- The timeout path of the store broadcast, and a source rank that changes between rounds; a wait for several keys passes them one by one. A world of one rank returns the command at once and is not a run of the protocol.
- Inference of shard descriptors from DTensor, vLLM or TensorRT modules, and the merging of parameter groups and name lists across ranks in `post_set_shard_infos`: descriptors, groups and sorted names are inputs.
- Expert parallelism in `ParallelDims` validation.
- The internal array order of `heapq`: popping yields some least state.
- The collective maximum of mini-batch counts: the peers' counts are a parameter. Lengths are not negative.
- Replicas that need several nodes, and the `colocated_separated` mode with its rollback; command strings, URLs, log files and environments of placed replicas.
- Checkpoint files, S3, symlinks, best-score files and resumed lists: a directory is its step, scores are reals, and the list starts empty.
- The gradient bucketing loop, activation offloading, reward clients, simulators and the command-line interface.
