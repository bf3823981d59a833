# Checkpoint engine and rollout runtime: a Dafny model

The repository has two parts. `checkpoint-engine` keeps model weights in pinned host memory and updates inference
workers in place; `swe-rl` runs coding agents in remote containers, admits them under a resource budget, checkpoints
and restores their containers, and prepares their conversations for training. This project models the parts of both
that carry invariants, and proves what they are for.

**Weight update** (`Tensors`, `ParameterServer`, `Grouping`, `BucketSchedule`, `Worker`, `UpdateProtocol`,
`UpdateSteps`, `Delivery`, `DeliveryExact`, `UpdateSetup`).
Tensors are byte sequences. Registration packs them into 256-byte-aligned memory buffers, every owner's buffers are cut
into transfer buckets with scatter ranges, buckets are given to receiver ranks, and an update broadcasts them round by
round through a buffer of two slots that a worker process on every rank reads over a REQ/REP socket. The protocol is a
state machine over the steps of N ranks and N workers; a broadcast is asynchronous, and until it lands the slot of a
receiving rank holds arbitrary bytes; `UpdateSteps` says what can hold a step up and what every broadcast leaves in the
buffer. The end of the chain is `Delivery.EveryWorkerGetsEverything`: whatever the
interleaving, the update ends, and every worker has then loaded every registered tensor exactly once, byte for byte.
Whose memory a bucket is copied from is part of the model, and `DeliveryExact.DeliversIff` says exactly when the right
bytes arrive. `UpdateSetup.PrepareUpdate` goes the whole way from the parameters of every rank to such an update.

**Admission scheduling** (`Scheduler`, `SchedulerRuns`, `SchedulerOrder`, `OnlineScheduler`, `PromptPlanner`). The admission rules are
functions of the scheduler's state; the class `OnlineEnvDockerScheduler` updates its fields in place and is proved to do
exactly what they say; `SchedulerRuns` proves conservation, caps, deadlock freedom and budget safety over all runs of
the scheduler and its callers; `SchedulerOrder` proves first-in first-out order, when a blocked head moves, and that an
attempt is refused for the stated reasons only; `PromptPlanner` proves the offline packer and its bound on the number of waves.

**Agent loop** (`TailModel`, `AgentLoop`, `AgentRuns`, `AgentHistory`, `AgentPolicy`, `AgentRunner`). The remote environment is a state that executed
actions change, and a ready checkpoint is a snapshot of it. What the outside decides in a turn (how long the model
thinks, what a checkpoint request answers, whether an action runs or the container dies, whether a rerun succeeds) is
an arbitrary script. For every script the whole rolled-back state equals the replay of the turns that were retained;
`AgentHistory` says which turns of the script these are and what the conversation and the log hold of each, and
`AgentPolicy` says when each policy asks for a checkpoint.

**Resharding** (`QkvSharding`, `TensorParallel`, `ShardLayout`, `Packing`, `Resharding`). Tensors are lists of rows; names are a
datatype with one constructor for each kind that the source's name tests tell apart. Fused query/key/value sharding is
modelled with all its fallbacks, and `ShardLayout` says in positions of the whole tensor what every rank holds.

**Conversation algorithms** (`ContextManager`, `LossMask`). Cutting a conversation to a token budget, building the
training mask, and reading the reply spans back from it.

Bytes and counts are unbounded integers; costs, waits and resources are reals. Loops and in-place updates of the source
are loops and in-place updates here, each proved equal to a function whose properties the lemmas then state. The names
`Mul`, `Quot` and `Times` are products and quotients that proofs can hide.

## Where the code and its description differ

Each entry has an exact condition, for all inputs, and a concrete input on which the code fails.

- Discount above 1. A request that fits may push the counted reservations over the budget once it is admitted if
  `realtime_local_active_discount` exceeds 1, because the request is tested undiscounted and counted discounted.
  `SchedulerRuns.FittingIsSafeIff`: fitting is safe exactly when the discount is at most 1 or never applied.
  `SchedulerRuns.DiscountAboveOneOverruns` is a run from the empty scheduler that overruns its budget.
- Requeue threshold 1. Head-of-line admission can rotate the line for ever. `SchedulerRules.HeadOfLineEndsIff` states
  exactly when the loop ends; `SchedulerRuns.ThresholdOneSpins` is a run into a state where it does not.
- Peer-to-peer update without the staging buffer. The bucket is copied from the memory pool of the receiver's own
  process, not from the owner's (`checkpoint-engine/checkpoint_engine/ps.py:1253`). `DeliveryExact.ModeDeliversIff`: the
  registered bytes arrive, whatever they are, exactly if the update is peer-to-peer with the staging buffer, or every
  bucket is given to the process that holds its owner's memory. `DeliveryExact.WrongBytesLoaded` is a run that ends with a wrong byte loaded.
  After `load_metas` an owner's rank numbers another cluster, so a process that holds an owner's memory is not told by
  equal rank numbers: the model keeps every receiver's own memory apart.
- Fused QKV guard. The code tests whether the query rows divide by the ranks, not whether the query heads do, so a shard
  may start inside a head. `QkvSharding.WholeHeadsIff` states when none does; `QkvSharding.FourteenHeadsTorn` has one.
- Gate and up projections whose halves do not divide by the ranks lose rows: `TensorParallel.GateUpRoundTripIff`, with
  `TensorParallel.GateRowsLost`.
- A fused gate and up bias is split like any other bias and not, like its weight, by halves.
  `ShardLayout.BiasMatchesWeightIff`: with different rows, the ranks get the bias rows of their part of the weight exactly
  without tensor parallelism or with an odd number of rows.
- Packing deletes the members of an incomplete q/k/v or gate/up group without a trace: `Packing.SurvivesIff`, with
  `Packing.LoneQueryLost`.
- An empty list of log probabilities, as opposed to none, fails the length assertion as soon as there is a token:
  `LossMask.BuiltIff` covers it, and `LossMask.EmptyLogprobsFail` has the smallest case.
- Broadcast ranks for a list of ranks with repetitions: the map has the last index of a rank where the process group
  uses the first (`BucketSchedule.BcastRankAgrees`, with `BucketSchedule.RepeatedRankDisagrees`).
- Reply spans. Spans read back from a mask are its runs of ones, so replies without a token between them run together
  and empty ones vanish: `LossMask.SpansAreRepliesIff` states exactly when the spans are the replies;
  `LossMask.EmptyReplyVanishes` has a reply without a span.

## Model

| member | source | states |
|---|---|---|
| Tensors.AlignSize | checkpoint-engine/checkpoint_engine/ps.py:132-137 | the aligned size holds the tensor and wastes less than 256 bytes |
| Tensors.BytesOfShape | checkpoint-engine/checkpoint_engine/ps.py:136-137 | a scalar takes one item, and a further dimension multiplies the bytes |
| Tensors.TotalSizeAligned | checkpoint-engine/checkpoint_engine/ps.py:133-137 | every offset, a sum of aligned sizes, is a multiple of 256 |
| Tensors.OffsetsDisjoint | checkpoint-engine/checkpoint_engine/ps.py:497-508 | a tensor's aligned place ends before the place of any later tensor starts |
| Tensors.HoldsConcat | checkpoint-engine/checkpoint_engine/ps.py:473-511 | buffers laid end to end hold the concatenation of what they hold |
| Tensors.HoldsSlice | checkpoint-engine/checkpoint_engine/ps.py:560-571 | a run of consecutive tensors is held by the matching slice of the bytes |
| ParameterServer.PackMemoryBuckets | checkpoint-engine/checkpoint_engine/ps.py:464-471 | the memory buckets are the parameters in order, none is empty, each is within the bucket size, and each is closed only when the next parameter no longer fits |
| ParameterServer.RegisterTensor | checkpoint-engine/checkpoint_engine/ps.py:482-483 | copies a tensor's bytes to its place in the buffer and changes nothing else |
| ParameterServer.FillBuffer | checkpoint-engine/checkpoint_engine/ps.py:478-510 | a freshly allocated buffer ends up holding every tensor of its bucket at its offset |
| ParameterServer.RegisterCheckpoint | checkpoint-engine/checkpoint_engine/ps.py:444-513 | the pool's metadata is that of the parameters in order, its bytes hold all of them, and its buffers are filled as far as the bucket size allows; an empty checkpoint gives an empty pool |
| ParameterServer.CutBuffer | checkpoint-engine/checkpoint_engine/ps.py:558-571 | cutting one memory buffer extends the cut of the stream so far to the end of that buffer |
| ParameterServer.CutOwner | checkpoint-engine/checkpoint_engine/ps.py:556-574 | an owner's buckets tile its parameters in order and its bytes without gap or overlap, each within the bucket size and closed only when the next parameter no longer fits; the size assertion holds exactly when the owner has bytes |
| ParameterServer.CutSized | checkpoint-engine/checkpoint_engine/ps.py:569-574 | the ranges of every bucket of a cut add up to the size of its items |
| ParameterServer.ContiguousPayload | checkpoint-engine/checkpoint_engine/ps.py:1068-1083 | scatter ranges that cover a piece of the owner's stream select exactly the bytes of that piece |
| ParameterServer.CopyToBuffer | checkpoint-engine/checkpoint_engine/ps.py:1056-1086 | the front of the buffer becomes the bucket's payload, the rest is untouched, and both size assertions hold |
| ParameterServer.ToNamedTensor | checkpoint-engine/checkpoint_engine/ps.py:140-153 | announces every item at the start offset plus the aligned sizes before it |
| Worker.ExtractWeights | checkpoint-engine/checkpoint_engine/worker.py:30-44 | returns for every announced item the bytes of its size at its offset |
| Worker.ExtractNamed | checkpoint-engine/checkpoint_engine/worker.py:30-44 | extraction undoes naming: a block that holds some tensors gives back exactly these, wherever it stands in the buffer |
| Worker.AnyBytesHold | checkpoint-engine/checkpoint_engine/worker.py:30-44 | whatever bytes of the right size are read back are tensors of the announced types and shapes, held by those bytes |
| BucketSchedule.DetectBucketSize | checkpoint-engine/checkpoint_engine/ps.py:1009-1054 | every tensor fits the bucket, and its size is the greatest multiple of 256 of which three (or two) fit the free memory and that is within the configured cap or is the largest tensor; the staging buffer is dropped, and the update refused, exactly when a third, or half, of the memory is too small |
| BucketSchedule.LargestTensor | checkpoint-engine/checkpoint_engine/ps.py:1028-1032 | the loops find the greatest aligned size of all gathered parameters |
| BucketSchedule.DetectedFits | checkpoint-engine/checkpoint_engine/ps.py:1009-1054 | a size detected for that greatest one fits every tensor of every owner |
| BucketSchedule.GenH2dBuckets | checkpoint-engine/checkpoint_engine/ps.py:547-575 | the buckets of all owners are their cuts in owner order, or some owner has no bytes |
| BucketSchedule.AssignRound | checkpoint-engine/checkpoint_engine/ps.py:624-640 | one assignment round takes the next buckets in order, uses the receivers in order and no owner device twice, and stops only at a repeated device |
| BucketSchedule.AssignReceiverRanks | checkpoint-engine/checkpoint_engine/ps.py:587-642 | the loop ends for a nonempty topology, the assigned buckets are the grouped buckets read column by column; the first round has min(groups, owner devices) receivers, and a later round has as many unless the next bucket's device is in it already or nothing is left |
| BucketSchedule.ActualTopoExact | checkpoint-engine/checkpoint_engine/ps.py:576-579 | the topology used is the local groups that hold a requested rank, in order, each cut to the requested ranks |
| BucketSchedule.AssignmentShared | checkpoint-engine/checkpoint_engine/ps.py:587-642 | the receivers of every round are the least requested ranks of the first such groups; no owner device twice in a round; nobody who could receive is left out |
| BucketSchedule.AssignmentKeepsBuckets | checkpoint-engine/checkpoint_engine/ps.py:576-642 | the assignment is a permutation of the buckets, keeps the order of each device's buckets, and uses requested ranks only |
| BucketSchedule.RoundReceiversDistinct | checkpoint-engine/checkpoint_engine/ps.py:610-640 | no round uses a receiver twice |
| BucketSchedule.PlanReceivers | checkpoint-engine/checkpoint_engine/ps.py:576-584 | without requested ranks every owner sends its own buckets; with them, the requested ranks share a permutation of the buckets in full rounds as above |
| BucketSchedule.GetBcastRankMap | checkpoint-engine/checkpoint_engine/ps.py:653-664 | the identity without requested ranks, else every rank's last index in the list |
| BucketSchedule.BcastRankAgrees | checkpoint-engine/checkpoint_engine/ps.py:653-664 | the map agrees with the position of a rank in its process group exactly when ranks are distinct |
| BucketSchedule.RepeatedRankDisagrees | checkpoint-engine/checkpoint_engine/ps.py:653-664 | for the ranks [3, 3] the map and the process group differ |
| Grouping.GroupBy | checkpoint-engine/checkpoint_engine/ps.py:603-608 | the dictionary of lists has one row for each key, in order of first appearance, each row in input order |
| Grouping.FirstOfEach | checkpoint-engine/checkpoint_engine/ps.py:614-621 | read column by column, the groups start with one element of each key |
| Grouping.GroupedColumnMajor | checkpoint-engine/checkpoint_engine/ps.py:614-621 | grouping and reading column by column is a permutation that keeps every key's order |
| UpdateProtocol.InitialInv | checkpoint-engine/checkpoint_engine/ps.py:1195-1221 | the start of an update satisfies the invariant |
| UpdateProtocol.NextInv | checkpoint-engine/checkpoint_engine/ps.py:1222-1268 | every step of every rank and worker keeps it: slots, staging buffers, sockets, worker states and barriers |
| UpdateProtocol.WorkerReads | checkpoint-engine/checkpoint_engine/worker.py:59-78 | a worker that handles a round's message reads exactly that round's tensors, whenever it reads |
| UpdateProtocol.OtherSlot | checkpoint-engine/checkpoint_engine/ps.py:1247-1255 | writing one slot leaves the other alone |
| UpdateProtocol.SourceHolds | checkpoint-engine/checkpoint_engine/ps.py:1249-1260 | while others still take a round's broadcast, the sending rank's slot is intact |
| UpdateProtocol.ReachableInv | checkpoint-engine/checkpoint_engine/ps.py:1206-1268 | the invariant holds after every run of N ranks and their workers |
| UpdateProtocol.UpdateSafe | checkpoint-engine/checkpoint_engine/ps.py:1206-1268 | in every reachable state no REQ/REP or buffer assertion has failed, and a worker reads exactly the tensors of the announced round, having loaded exactly the earlier ones |
| UpdateProtocol.NoDeadlock | checkpoint-engine/checkpoint_engine/ps.py:1222-1268 | while some rank has not finished, some rank or worker can take a step |
| UpdateProtocol.RunsAreShort | checkpoint-engine/checkpoint_engine/ps.py:1222-1268 | every step uses up some of a bounded amount of work |
| UpdateProtocol.UpdateCompletes | checkpoint-engine/checkpoint_engine/ps.py:1206-1268 | every run is bounded, and one that can go no further has finished on every rank, with every worker ended after loading all rounds |
| UpdateProtocol.SomeRunCompletes | checkpoint-engine/checkpoint_engine/ps.py:1206-1268 | and there is such a run |
| UpdateProtocol.UnreadableStops | checkpoint-engine/checkpoint_engine/ps.py:1068-1083 | a bucket whose ranges are not in the memory it is copied from keeps its sender from finishing in every run |
| UpdateSteps.SlotsAlternate | checkpoint-engine/checkpoint_engine/ps.py:1247-1248 | the first round uses the first slot and the slots alternate |
| UpdateSteps.HeldUpOnly | checkpoint-engine/checkpoint_engine/ps.py:1222-1268 | in every reachable state a rank is held up only by its worker's reply or by ranks not yet at its barrier, a broadcast only by its sender, and a worker by nothing |
| UpdateSteps.IssuedBytes | checkpoint-engine/checkpoint_engine/ps.py:1247-1255 | issuing a broadcast puts the round's bucket into the sender's slot, from either memory, and leaves anything in the slots of the others; nothing else changes |
| UpdateSteps.LandedBytes | checkpoint-engine/checkpoint_engine/ps.py:1254-1255 | when it lands the slot holds the round's bucket and nothing else has changed |
| UpdateSteps.AlwaysInTurn | checkpoint-engine/checkpoint_engine/worker.py:59-78 | no message is sent with a reply outstanding; a worker maps the buffer first and once, loads after that, and is told to end after all rounds |
| Delivery.CutDelivers | checkpoint-engine/checkpoint_engine/ps.py:556-575 | the buckets of a cut, read through their ranges, carry exactly the registered tensors in order |
| Delivery.CutsCarry | checkpoint-engine/checkpoint_engine/ps.py:554-575 | so do the buckets of all owners together |
| Delivery.UpdateRounds | checkpoint-engine/checkpoint_engine/ps.py:1197-1237 | the rounds are the i-th buckets of all receivers before the next ones |
| Delivery.RoundsInOrder | checkpoint-engine/checkpoint_engine/ps.py:1224-1237 | a later round is in a later column or has another receiver |
| Delivery.ScheduledIsValid | checkpoint-engine/checkpoint_engine/ps.py:1183-1223 | a schedule whose buckets can be read meets what the protocol relies on: fitting buckets that hold the tensors they are read as, known receivers, ordered columns |
| Delivery.DeliversCopied | checkpoint-engine/checkpoint_engine/ps.py:1224-1262 | the rounds deliver, in order, what each bucket is copied as |
| Delivery.ExpectedIsRegistered | checkpoint-engine/checkpoint_engine/ps.py:1183-1262 | what should be loaded, bucket by bucket, is every registered tensor exactly once |
| Delivery.PlannedDelivers | checkpoint-engine/checkpoint_engine/ps.py:1183-1262 | with every bucket copied from its owner, the rounds deliver exactly the registered tensors |
| Delivery.EveryWorkerGetsEverything | checkpoint-engine/checkpoint_engine/ps.py:1154-1268 | for every interleaving the update ends, and every worker has then loaded every tensor of every owner exactly once, with name, type, shape and bytes |
| DeliveryExact.ReadableDelivers | checkpoint-engine/checkpoint_engine/ps.py:1224-1262 | when all buckets can be read, the update can finish, and delivers exactly if the copies are the registered tensors |
| DeliveryExact.DeliversIff | checkpoint-engine/checkpoint_engine/ps.py:1224-1253 | the registered tensors arrive in every full run, for all contents of all memories, exactly if every bucket is copied from the memory its owner registered |
| DeliveryExact.ModeDeliversIff | checkpoint-engine/checkpoint_engine/ps.py:1224-1253 | that is, in peer-to-peer mode with the staging buffer always, and else exactly if every bucket goes to the process that holds its owner's memory |
| DeliveryExact.WrongBytesLoaded | checkpoint-engine/checkpoint_engine/ps.py:1247-1253 | two owners of one byte each, rank 0, no staging buffer: a run that ends with the second owner's parameter loaded with the first owner's byte |
| UpdateSetup.RegisterShards | checkpoint-engine/checkpoint_engine/ps.py:886-899 | the owners are the ranks that registered anything, and together hold all parameters |
| UpdateSetup.SizeBuckets | checkpoint-engine/checkpoint_engine/ps.py:1009-1054 | the size detected from the gathered metadata fits every owner's tensors and is the greatest allowed for the largest registered tensor |
| UpdateSetup.PlanUpdate | checkpoint-engine/checkpoint_engine/ps.py:1183-1223 | cutting all owners, assigning receivers and mapping ranks yields a schedule in both modes, with the receivers and the rank map of the mode; it fails exactly on an owner without bytes |
| UpdateSetup.PrepareUpdate | checkpoint-engine/checkpoint_engine/ps.py:1154-1223 | from the parameters of all ranks to an update, with the exact reasons for refusing one, the exact use of the staging buffer, the greatest allowed bucket size, the receivers of the mode, and the exact condition under which it delivers what was registered |
| SchedulerRules.Predict | swe-rl/online_env_docker_scheduler.py:892-953 | predictions are positive in memory and CPU and, with defaults that are not negative, not negative on disk; history is claimed only for profiles with enough samples |
| SchedulerRules.PredictionIsLeast | swe-rl/online_env_docker_scheduler.py:892-953 | the prediction is the least reservation above the floor, the observed profile and, without enough samples, the cold-start defaults; history exactly with enough samples |
| SchedulerRules.WithoutExact | swe-rl/online_env_docker_scheduler.py:1384 | taking an admitted prompt out leaves the others in their order |
| SchedulerRules.InsertAt | swe-rl/online_env_docker_scheduler.py:1365-1370 | a deferred head goes behind at least one other request and stays within the line |
| SchedulerRules.RequeuePermutes | swe-rl/online_env_docker_scheduler.py:1365-1371 | a deferral keeps the prompts of the line |
| SchedulerRules.DeferralProgress | swe-rl/online_env_docker_scheduler.py:1356-1361 | a deferral brings the head-of-line loop nearer to its end |
| SchedulerRules.HeadOfLineSound | swe-rl/online_env_docker_scheduler.py:1312-1363 | head-of-line admission keeps the prompts of the line, and an admitted one fits, or is forced onto an empty cluster |
| SchedulerRules.HeadOfLineEndsIff | swe-rl/online_env_docker_scheduler.py:1320-1363 | the loop ends exactly when the requeue threshold is not 1, or at most one prompt waits, or a head in the rotated window stops it |
| OnlineScheduler.RefreshedAt | swe-rl/online_env_docker_scheduler.py:955-968 | a live update reaches exactly the first requests of its key, up to the cap; a reached request gets the new prediction and a fresh block counter and keeps all else |
| OnlineScheduler.RefreshedIsRepredicted | swe-rl/online_env_docker_scheduler.py:955-968 | it changes no request's identity or place |
| OnlineScheduler.Refresh | swe-rl/online_env_docker_scheduler.py:955-968 | the loop with its early exit computes that update |
| OnlineScheduler.OnlineEnvDockerScheduler.Enqueue | swe-rl/online_env_docker_scheduler.py:568-569 | appends the request and changes nothing else |
| OnlineScheduler.OnlineEnvDockerScheduler.MarkAdmitted | swe-rl/online_env_docker_scheduler.py:1380-1395 | moves the prompt from pending to active, adds its reservation and counts it in the window |
| OnlineScheduler.OnlineEnvDockerScheduler.DeferHeadRequest | swe-rl/online_env_docker_scheduler.py:1365-1371 | puts the head back behind the offset with a fresh counter |
| OnlineScheduler.OnlineEnvDockerScheduler.AdmitHeadOfLine | swe-rl/online_env_docker_scheduler.py:1312-1363 | the loop over the fields does what the head-of-line rule says |
| OnlineScheduler.OnlineEnvDockerScheduler.ChooseReordered | swe-rl/online_env_docker_scheduler.py:1258-1310 | the first fitting request of greatest score, else the oldest forced one, else none |
| OnlineScheduler.OnlineEnvDockerScheduler.AdmitNextUnlocked | swe-rl/online_env_docker_scheduler.py:1214-1310 | one admission attempt, with its caps and either mode, does what the rules say |
| OnlineScheduler.OnlineEnvDockerScheduler.RefreshPendingPredictions | swe-rl/online_env_docker_scheduler.py:955-968 | updates the line with the configured cap and changes nothing else |
| OnlineScheduler.OnlineEnvDockerScheduler.FinishPrompt | swe-rl/online_env_docker_scheduler.py:699-776 | releases the reservation of an active prompt, refreshes its key and resets the window; an unknown prompt changes nothing |
| OnlineScheduler.OnlineEnvDockerScheduler.ResetAdmissionWindow | swe-rl/online_env_docker_scheduler.py:1397-1398 | resets the window count only |
| SchedulerRuns.TotalRemove | swe-rl/online_env_docker_scheduler.py:1384-1394 | the sum of reservations does not depend on an order of the prompts |
| SchedulerRuns.AdmitSound | swe-rl/online_env_docker_scheduler.py:1214-1310 | in either mode an attempt moves one admissible prompt to active, or only reorders the line; and never beyond a cap |
| SchedulerRuns.StepInv | swe-rl/online_env_docker_scheduler.py:538-776 | every step of the scheduler and its callers keeps the invariant |
| SchedulerRuns.ReachableInv | swe-rl/online_env_docker_scheduler.py:538-776 | in every reachable state each enqueued prompt is in exactly one place, the cached aggregate is the sum of the active reservations, and the caps hold |
| SchedulerRuns.ReleaseIsExact | swe-rl/online_env_docker_scheduler.py:709 | in every run, finishing a prompt gives back exactly its reservation; the clamping subtraction never clamps |
| SchedulerRuns.NeverRepaired | swe-rl/online_env_docker_scheduler.py:594-610 | in every run, a caller that wakes up with its ticket, and one that finishes, finds its active record |
| SchedulerRuns.IdleOpen | swe-rl/online_env_docker_scheduler.py:1218-1230 | with nothing active no cap is reached and the head-of-line loop stops at its first head |
| SchedulerRuns.IdleProgress | swe-rl/online_env_docker_scheduler.py:1214-1363 | whenever a run has nothing active and something pending, an attempt admits a prompt, in both modes, for every budget and cap |
| SchedulerRuns.FittingIsSafeIff | swe-rl/online_env_docker_scheduler.py:1033-1069 | fitting requests keep the counted reservations within the budget exactly when the discount is at most 1 or never applied |
| SchedulerRuns.DiscountAboveOneOverruns | swe-rl/online_env_docker_scheduler.py:1033-1069 | with discount 2 a run of two admissions under one budget overruns it |
| SchedulerRuns.ThresholdOneSpins | swe-rl/online_env_docker_scheduler.py:1312-1378 | with threshold 1 a run reaches a state in which the head-of-line loop never ends |
| SchedulerRuns.OverBudgetBlocks | swe-rl/online_env_docker_scheduler.py:1400-1407 | reservations over the budget keep every further request out |
| SchedulerRuns.BudgetSafe | swe-rl/online_env_docker_scheduler.py:1253-1352 | with one budget and a discount in (0,1], in every reachable state the counted reservations are within it or one oversized prompt is alone, and then nothing else is admitted |
| SchedulerOrder.FirstEnqueuedFirst | swe-rl/online_env_docker_scheduler.py:1312-1395 | in head-of-line mode without requeueing, at any time of any run the prompts ever admitted are the first of the line and the others wait in the order of their arrival |
| SchedulerOrder.BlockedHeadCounts | swe-rl/online_env_docker_scheduler.py:1345-1363 | a blocked head is counted once by every attempt and stays the head below the threshold |
| SchedulerOrder.BlockedHeadMoves | swe-rl/online_env_docker_scheduler.py:1356-1371 | at exactly its threshold-th block it goes behind exactly as many others as configured, at least one and at most all, and the attempt goes on |
| SchedulerOrder.CountsWeighted | swe-rl/online_env_docker_scheduler.py:1033-1069 | a request fits exactly if the reservations, weighted by the discount where live data is used, leave room in all four dimensions, and is forced exactly if nothing counts and it never fits |
| SchedulerOrder.ReorderRefusedIff | swe-rl/online_env_docker_scheduler.py:1214-1310 | in reorder mode an attempt is refused exactly if nothing waits, a cap is reached, or every prompt must wait |
| SchedulerOrder.HeadRefused | swe-rl/online_env_docker_scheduler.py:1214-1363 | a refused head-of-line attempt leaves a head that must wait, unless nothing waits or a cap is reached; without requeueing exactly the first head decides |
| SchedulerOrder.WindowCounts | swe-rl/online_env_docker_scheduler.py:1395-1398 | in every run the window counts the prompts admitted since the last release or refresh |
| SchedulerOrder.ReservedIsSum | swe-rl/online_env_docker_scheduler.py:1384-1394 | in every run the reservation is the sum over the active prompts in each dimension |
| SchedulerOrder.StartupCapHolds | swe-rl/online_env_docker_scheduler.py:1218-1230 | while the startup cap stands there are never more active prompts than it allows |
| PromptPlanner.Choice | swe-rl/online_env_docker_scheduler.py:868-886 | the first request of greatest score among those that fit, or none if none fits |
| PromptPlanner.PlanPromptOrder | swe-rl/online_env_docker_scheduler.py:833-890 | the planning loop ends and returns the greedy order |
| PromptPlanner.OrderPermutes | swe-rl/online_env_docker_scheduler.py:863-890 | the order is a permutation of the requests |
| PromptPlanner.WavesPacked | swe-rl/online_env_docker_scheduler.py:866-888 | every wave is within the budget and ends only when the next request no longer fitted |
| PromptPlanner.PlanIsPacked | swe-rl/online_env_docker_scheduler.py:833-890 | whatever the scores, also if they change from turn to turn: first waves of requests that can fit, packed as above, then all oversized requests in arrival order |
| PromptPlanner.PlanWaveBound | swe-rl/online_env_docker_scheduler.py:833-890 | with a positive budget there are at most twice as many waves as the fitting requests amount to in budgets, plus one |
| TailModel.FromWaits | swe-rl/checkpoint_policy_runtime.py:37-43 | the loop builds the sorted positive waits with the sums of all their prefixes |
| TailModel.BisectRight | swe-rl/checkpoint_policy_runtime.py:53-57 | bisection returns the number of entries not above the key |
| TailModel.OverheadIsMean | swe-rl/checkpoint_policy_runtime.py:61-74 | the fast form is the mean exposed overhead over the recorded waits longer than the time waited, for every budget, and lies between 0 and a budget that is not negative |
| TailModel.TailProbabilityIsRatio | swe-rl/checkpoint_policy_runtime.py:49-59 | the conditional tail probability is the survivor ratio of the recorded waits |
| TailModel.TailProbabilityFalls | swe-rl/checkpoint_policy_runtime.py:49-59 | it never grows with the horizon and is a probability |
| AgentLoop.TrimmedReplay | swe-rl/generate_with_swe_remote.py:882-889 | cutting the lists of a replay at a step gives the lists of the shorter replay |
| AgentLoop.WaitOk | swe-rl/generate_with_swe_remote.py:568-851 | whatever the policy decides and the server answers while waiting, the checkpoint record stays tied to the retained turns |
| AgentLoop.RecoveredOk | swe-rl/generate_with_swe_remote.py:904-989 | recovery by rerun or by base restart gives the replay of a prefix of the retained turns, with its environment and costs |
| AgentLoop.TurnConsistent | swe-rl/generate_with_swe_remote.py:1092-1329 | one turn of the loop keeps the whole state equal to the replay of the retained turns |
| AgentLoop.RollbackConsistent | swe-rl/generate_with_swe_remote.py:1092-1329 | so does every run with any number of faults, and the ready checkpoint is the replay of the turns it covers |
| AgentRuns.LoopHead | swe-rl/generate_with_swe_remote.py:1092-1329 | two messages for every retained turn, contexts and texts in place, the environment after exactly the logged actions, cumulative costs as sums of the log |
| AgentRuns.ProtectedIsRetained | swe-rl/generate_with_swe_remote.py:626-636 | the protected costs are the sums over the logged steps before the resume step of the ready checkpoint |
| AgentRuns.RedoIsDiscarded | swe-rl/checkpoint_policy_runtime.py:83-105 | the redo cost is the cost of exactly the steps a resume discards, and no clamp is active |
| AgentRuns.CostsConserved | swe-rl/generate_with_swe_remote.py:747-770 | this holds at every decision of every wait of every run |
| AgentRuns.FaultsLeaveNoTrace | swe-rl/generate_with_swe_remote.py:1092-1329 | a run with faults ends in the state that a run without faults and checkpoints reaches on the retained turns |
| AgentRuns.TurnBound | swe-rl/generate_with_swe_remote.py:1092-1329 | with F faults the loop takes at most (F + 1) * step_limit turns under every policy |
| AgentRuns.WaitReachesBoundary | swe-rl/generate_with_swe_remote.py:711-746 | a fixed policy ends a nominal wait with the boundary of the step ready, and does not checkpoint a ready boundary again |
| AgentRuns.FixedPolicyRework | swe-rl/generate_with_swe_remote.py:711-746 | in nominal runs a fault in step s resumes at s under `always`, at s - s mod 3 under `every-3`, after any number of earlier faults |
| AgentHistory.LoopRecorded | swe-rl/generate_with_swe_remote.py:1092-1329 | at every loop head of every run, faults included: retained turn i is the last turn taken at step i; a reply without a command is answered with that error and logged nowhere; a command ran, is the one log entry of its step with its execution and times, and is answered with its own result and the number of turns that remain |
| AgentHistory.SubmissionRecorded | swe-rl/generate_with_swe_remote.py:1261-1319 | a submitted run stopped at the last turn taken at its step: its command ran, submits, is the last log entry and has no answer |
| AgentPolicy.QuietPolicies | swe-rl/generate_with_swe_remote.py:699-848 | the policies without checkpoints, and the adaptive one without a model, leave the record alone |
| AgentPolicy.WaitSaves | swe-rl/generate_with_swe_remote.py:568-851 | a wait saves the current environment, step and costs, or nothing, and nothing unless a request was granted |
| AgentPolicy.AskedOnSchedule | swe-rl/generate_with_swe_remote.py:711-743 | without faults the fixed policies have asked once at every step, or every third step, but the first |
| AgentPolicy.AdaptiveAsksIff | swe-rl/checkpoint_policy_runtime.py:122-151 | in every wait of every run the adaptive policy asks exactly when it is late enough, not tried yet, and the logged cost a fault would discard, times its probability and the share of waits that outlast a checkpoint, exceeds the mean exposed overhead; otherwise nothing changes |
| AgentRunner.CheckpointState.AttemptCreate | swe-rl/generate_with_swe_remote.py:568-662 | a ready answer saves environment, step and protected costs; other answers change nothing |
| AgentRunner.CheckpointState.FixedCheckpoint | swe-rl/generate_with_swe_remote.py:711-743 | marks the boundary as attempted and counts attempt, success and busy skip |
| AgentRunner.CheckpointState.ProbeCheckpoint | swe-rl/generate_with_swe_remote.py:796-841 | counts the probe and its outcome |
| AgentRunner.CheckpointState.PollBubble | swe-rl/generate_with_swe_remote.py:699-848 | one pass of the waiting loop with all its completion checks does what the rule says |
| AgentRunner.CheckpointState.WaitForLlm | swe-rl/generate_with_swe_remote.py:665-851 | so does the whole wait |
| AgentRunner.CheckpointState.RecoverFromInjectedFault | swe-rl/generate_with_swe_remote.py:904-989 | rerun restores the saved environment and protected costs, otherwise everything is reset to the base |
| AgentRunner.AgentRun.Rollback | swe-rl/generate_with_swe_remote.py:1268-1275 | all lists are cut back together at the resume step |
| AgentRunner.AgentRun.Turn | swe-rl/generate_with_swe_remote.py:1093-1329 | one pass of the loop body computes the turn rule, with its exits |
| AgentRunner.AgentRun.Run | swe-rl/generate_with_swe_remote.py:1092-1329 | the loop over local lists computes the run |
| QkvSharding.ColumnRoundTrip | checkpoint-engine/checkpoint_engine/persistent_ps.py:792-803 | column-parallel shards put together are the tensor |
| QkvSharding.LocalGroup | checkpoint-engine/checkpoint_engine/persistent_ps.py:713-747 | the key/value head of a query head is the same by the local and by the global rule, in the split and in the replicated case |
| QkvSharding.AttentionPreserved | checkpoint-engine/checkpoint_engine/persistent_ps.py:662-754 | every rank holds whole heads, query head j of rank i is global head i * m + j, and its key and value heads are those of that head |
| QkvSharding.WholeHeadsIff | checkpoint-engine/checkpoint_engine/persistent_ps.py:698-714 | shards start at head boundaries exactly when the query heads divide |
| QkvSharding.FourteenHeadsTorn | checkpoint-engine/checkpoint_engine/persistent_ps.py:698-714 | 14 query heads of 64 rows over 4 ranks: the second rank starts inside head 3 |
| QkvSharding.QkvRoundTrip | checkpoint-engine/checkpoint_engine/persistent_ps.py:662-754 | every query, key and value row is recoverable from the shards, in every mode |
| TensorParallel.GateUpRoundTripIff | checkpoint-engine/checkpoint_engine/persistent_ps.py:757-789 | gate and up rows come back exactly when each half divides over the ranks or the row count is odd |
| TensorParallel.GateRowsLost | checkpoint-engine/checkpoint_engine/persistent_ps.py:757-789 | two gate and two up rows over four ranks: all shards are empty |
| TensorParallel.RowRoundTrip | checkpoint-engine/checkpoint_engine/persistent_ps.py:806-817 | row-parallel shards put together are the tensor |
| TensorParallel.TpRoundTripIff | checkpoint-engine/checkpoint_engine/persistent_ps.py:564-649 | a named weight comes back from its shards exactly when its gate and up halves divide, if it has any |
| TensorParallel.ShardedWhenNonEmpty | checkpoint-engine/checkpoint_engine/persistent_ps.py:564-754 | a nonempty weight has a shard for every rank unless it is a fused projection without key/value heads |
| ShardLayout.ColumnParts | checkpoint-engine/checkpoint_engine/persistent_ps.py:792-803 | column parallel: rank i holds rows i * (rows / tp) up to (i + 1) * (rows / tp), or every rank all rows when they do not divide |
| ShardLayout.RowParts | checkpoint-engine/checkpoint_engine/persistent_ps.py:806-817 | row parallel: the same for the columns of every row |
| ShardLayout.HalvesParts | checkpoint-engine/checkpoint_engine/persistent_ps.py:757-789 | gate and up: rank i holds its share of the upper half and then its share of the lower half |
| ShardLayout.FusedParts | checkpoint-engine/checkpoint_engine/persistent_ps.py:662-754 | query, key and value: which of copies, plain split, division by zero and fused split happens, in terms of the head counts, and where each of the three parts of a rank starts and ends |
| ShardLayout.ShardHeld | checkpoint-engine/checkpoint_engine/persistent_ps.py:564-649 | every rank holds exactly its own part of every kind of weight; norms and replicated weights are held in full |
| ShardLayout.BiasMatchesWeightIff | checkpoint-engine/checkpoint_engine/persistent_ps.py:626-645 | a fused gate and up bias with different rows is split as its weight is exactly without tensor parallelism or with an odd number of rows |
| Packing.TensorDict.PackLayers | checkpoint-engine/checkpoint_engine/persistent_ps.py:477-561 | the dictionary ends up as the packed one, in whatever order the layers are visited |
| Packing.TensorDict.PackLayer | checkpoint-engine/checkpoint_engine/persistent_ps.py:494-561 | one layer's projections are taken out and its complete groups put back fused |
| Packing.PackUnpack | checkpoint-engine/checkpoint_engine/persistent_ps.py:477-561 | from a packed unfused checkpoint every weight comes back under its own name |
| Packing.SurvivesIff | checkpoint-engine/checkpoint_engine/persistent_ps.py:510-561 | a projection survives packing exactly when its whole group is there |
| Packing.LoneQueryLost | checkpoint-engine/checkpoint_engine/persistent_ps.py:510-561 | a lone query projection is packed to nothing |
| Packing.FusedLayout | checkpoint-engine/checkpoint_engine/persistent_ps.py:538-561 | a fused weight is the query, key and value rows, or the gate and up rows, in this order |
| Resharding.ComputePpBoundaries | checkpoint-engine/checkpoint_engine/persistent_ps.py:463-475 | the loop returns every rank's boundaries |
| Resharding.BoundariesTile | checkpoint-engine/checkpoint_engine/persistent_ps.py:463-475 | the boundaries follow each other from layer 0 to the last without gap or overlap |
| Resharding.SpanSizes | checkpoint-engine/checkpoint_engine/persistent_ps.py:463-475 | every pipeline rank before the last has layers / pp layers and the last has the others |
| Resharding.LayerOnOneRank | checkpoint-engine/checkpoint_engine/persistent_ps.py:240-252 | a layer below the count is on exactly one pipeline rank, the one the search finds; others are on none |
| Resharding.ReshardWeights | checkpoint-engine/checkpoint_engine/persistent_ps.py:229-277 | every rank pair gets exactly the shards of its packed weights; an unshardable weight is an error |
| Resharding.PlacedWhere | checkpoint-engine/checkpoint_engine/persistent_ps.py:240-277 | layer weights are on the ranks of their pipeline stage, others on all, layers past the count on none |
| Resharding.PlacedHolds | checkpoint-engine/checkpoint_engine/persistent_ps.py:240-277 | every rank pair holds its own part of each weight that is placed there |
| Resharding.PlacementRoundTrip | checkpoint-engine/checkpoint_engine/persistent_ps.py:240-277 | the shards of all ranks together hold every packed weight and nothing else |
| Resharding.ReshardRoundTrip | checkpoint-engine/checkpoint_engine/persistent_ps.py:229-277 | pack, shard, place, gather, join and unpack give back exactly the original named weights |
| ContextManager.SplitIntoTurnPairs | swe-rl/swe_context_manager.py:45-61 | the loop pairs every reply with a following user message and leaves other messages alone |
| ContextManager.TurnsCoverBody | swe-rl/swe_context_manager.py:45-61 | the turns are the messages, in order |
| ContextManager.FillHead | swe-rl/swe_context_manager.py:116-124 | the head is the longest prefix of turns within its budget |
| ContextManager.FillTail | swe-rl/swe_context_manager.py:127-137 | the tail is the longest suffix behind the head within its budget |
| ContextManager.GetContextMessages | swe-rl/swe_context_manager.py:64-162 | the loops assemble the managed conversation, with every early return |
| ContextManager.ManagedExactly | swe-rl/swe_context_manager.py:64-162 | a conversation that fits or has at most one turn is unchanged; without room, two messages and a marker for all turns; else the greatest head within its share of the room, the greatest tail within the rest, and a marker for the turns between them |
| ContextManager.TurnCostIs | swe-rl/swe_context_manager.py:32-42 | a turn costs what it adds to a conversation of one system and one user message |
| ContextManager.ManagedFits | swe-rl/swe_context_manager.py:91-162 | with an additive tokenizer: prompts, a prefix of turns, a marker with the exact number left out, a suffix; something is left out; the limit is kept but for the marker's extra length |
| ContextManager.LoopConversation | swe-rl/generate_with_swe_remote.py:1102-1109 | on every conversation of the agent loop, faults included, the turns are exactly the retained ones |
| LossMask.EosEnd | swe-rl/message_utils.py:93-99 | the position behind the last end-of-sequence token, or the length without one |
| LossMask.GetResponseIdsAndLossMask | swe-rl/message_utils.py:55-139 | the loop builds ids, mask and log probabilities, or stops with the first error |
| LossMask.BuiltIff | swe-rl/message_utils.py:82-137 | it succeeds exactly when every message starts with the prompt and ends behind it, roles are known and log probabilities fit, empty lists included |
| LossMask.EmptyLogprobsFail | swe-rl/message_utils.py:82-137 | one user token with an empty list of log probabilities fails, and is built without one |
| LossMask.BuiltShape | swe-rl/message_utils.py:136-139 | ids are all tokens in order, with one mask entry and, if asked for, one log probability each |
| LossMask.FirstError | swe-rl/message_utils.py:55-139 | a failed build stops with the error of the first message that is wrong |
| LossMask.LogprobsOfReply | swe-rl/message_utils.py:109-130 | the log probabilities over the span of the k-th reply are exactly the k-th list |
| LossMask.LogprobsZero | swe-rl/message_utils.py:109-130 | and 0.0 wherever the mask is 0 |
| LossMask.ExtractAssistantTurnSpans | swe-rl/generate_with_swe_remote.py:81-98 | the scanning loop returns, for every mask, its maximal runs of ones, all of them, in increasing order |
| LossMask.SpansUnique | swe-rl/generate_with_swe_remote.py:81-98 | there are no other spans that are separate and contain exactly the ones |
| LossMask.RepliesCover | swe-rl/message_utils.py:87-134 | a built mask has its ones exactly at the generated tokens of the replies |
| LossMask.SpansAreRepliesIff | swe-rl/generate_with_swe_remote.py:81-98 | reading a built mask gives one span for each reply, in order, exactly if no reply is empty and no two follow each other without a token between them |
| LossMask.EmptyReplyVanishes | swe-rl/generate_with_swe_remote.py:81-98 | a reply that is the generation prompt alone gets no span |
| LossMask.SpansAreReplies | swe-rl/generate_with_swe_remote.py:81-98 | which is so for a nonempty generation prompt and nonempty replies |
| LossMask.SpanHoldsReply | swe-rl/message_utils.py:87-134 | the span of a reply holds exactly its tokens between the prompt and the end of its last end-of-sequence token |

## Left out

- Sorting parameters by name, and reading and merging checkpoint files: the sorted list is the input.
- The thread pool that copies tensors in completion order: the copies go to disjoint places and are modelled in order.
- CUDA, NCCL, RDMA, ZMQ, IPC handles and process groups, except as copy, broadcast, barrier, send and receive.
- The collectives and the request thread around the update rounds, and the cleanup after them.
- Receiver assignment for an empty local topology, where the source's loop does not progress: a precondition.
- Distinct owner devices among the i-th buckets of different receivers: only assignment rounds have them.
- Exceptions inside the update, but for failed assertions and copies out of range: these stop the rank, and are proved not to occur when the buckets can be read. Time limits of the collectives are left out.
- The live part of the server budget, its polling, lease statistics and profile persistence: budgets, startup caps and new predictions are inputs.
- The packing score: an arbitrary function of a request, in the planner of the residual and the turn as well.
- Forming the process group: with a list of ranks that has repetitions it is never complete, and no update starts.
- Generation of prompt ids: they are taken to be distinct. Cancellation of a waiting caller, which the source does not clean up.
- Rounding of floating-point sums in the aggregate reservation, in costs and in prefix sums: reals.
- PromptPlanner.PlanWaveBound: assumes requests that are not negative in any dimension; a negative default disk rate would break it.
- Recovery calls that themselves raise, a missing container limiter, and execution errors after which the container's state is unknown.
- The step index that the server echoes for a checkpoint, which is taken to be the one sent.
- Process rewards, patch extraction, phase events and logs of the agent loop; the final diff.
- AgentRuns.CostsConserved: assumes that measured reply times are not negative, which the source does not clamp.
- Detecting the model configuration from weights, normalising names, and checkpoints that are fused already in part of a layer.
- ContextManager.ManagedFits: assumes an additive tokenizer and a head ratio between 0 and 1; chat templates need not be additive.
- Training scripts, converters, plotting, configuration parsing and everything else in the repository.
