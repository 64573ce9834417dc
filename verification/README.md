# Verified models of a bucket-based training system

The system trains models through a shared store of named artifacts (the bucket). An
orchestrator and workers never talk to each other; they only read and write the bucket. This
project models the parts where that is hard to get right, and proves what they keep:

- **Streaming pipeline** (`Pipeline`, `Dataflow`, `WorkerCache`, `StreamingOrch`,
  `StreamingClass`, `StreamingRuns`, `StreamingTheorems`, `StreamingProgress`, `StreamingNames`,
  `StreamingBounds`, `StreamingFinish`, `StreamingRescue`, `StreamingMeaning`, `StreamingPlacement`).
  Forward, backward and outer jobs of an epoch, emission, assignment, retries, evictions, resume,
  deadlines, workers with two caches. The main results are confluence (every interleaving computes
  what one sequential run computes, and that is what a recursion over the artifacts gives), the
  configurations for which it holds, which worker gets which job, and the exact conditions under which an epoch can still be
  finished, by workers alone and together with the orchestrator's retries.
- **SparseLoCo** (`Reals`, `Modulo`, `Chunks`, `Quantizer`, `ChunkFloor`, `SparseTensor`, `ErrorFeedback`,
  `Bytes`, `Broadcast`, `SparseCodec`, `Framing`, `SparseContainer`, `SparseWire`, `WireLayout`,
  `Mean`, `Fleet`, `FleetAgreement`, `FleetMeaning`, `FleetCodecs`, `FleetPacked`, `FleetWorker`). Chunked top-k with two-bit values,
  error feedback, the packed wire format with numpy's slicing and broadcasting, and the fleet of
  ranks that must hold equal parameters and average what they learn. The layers compose: agreement of the fleet rests on the
  container, the container on the codec, the codec on the quantiser.
- **Synchronous rounds** (`PinTable`, `Quorum`, `Placement`, `SyncRounds`, `SyncStalls`,
  `SyncProgress`). Pin table, replica placement, quorums, one reduce per block and round, advance, job deadlines, the
  rounds that wait for ever, and the exact condition under which a round in flight can be finished.
- **Evaluator, ledger, tensor formats** (`Graphs`, `Evaluator`, `Traces`, `Ledger`, `LedgerSummary`,
  `LedgerShares`, `Int8Pack`, `TensorIo`).

`Common`, `Sorting` and `TakingTurns` hold what several modules use. `dafny verify dfyconfig.toml` checks
everything. Nothing was executed: all claims are proofs about the models.

## Conventions

- Tensors are abstract values in the pipeline, rounds and evaluator, and vectors of reals in
  the numeric parts. Rounding to integers is to the nearest with ties to even. The scale of a chunk or
  channel is rounded before it is used: a `Rounding` keeps positive numbers positive, and where a
  result depends on its accuracy the relative error is a parameter `delta` (0 over the reals, 2^-24
  in single precision). On the wire a scale is a bit pattern, and what the rounding makes is a
  number that its bit pattern carries. All other arithmetic is exact.
- Graph evaluation, training, `topk`, JSON text and the operations of the evaluator are
  parameters: every theorem holds for all of them that meet the stated law.
- Heartbeats, the order of events and the listing of the bucket are arguments of steps. So is the time,
  which in the streaming runs and the rounds is one clock for all processes that never runs back.
- A stage is its position in the list of stages; worker ids of the pipeline are numbers that
  stand for ordered ids; URIs are a datatype. Given artifacts have URIs that no job produces.
- Each of these is one step, without a crash inside: emission with its two indexes, a retry
  pass, an advance, and in the rounds a reduce manifest with its marker and outer manifest.
- The imperative code is modelled as classes and loops proved against specification functions:
  `StreamingClass.StreamingOrchestrator`, `WorkerCache.TensorCache`, `ErrorFeedback.Feedback`,
  `FleetWorker.Worker`, `SyncRounds.SyncOrchestrator`, `Graphs.GraphBuilder`, and the methods of
  `Framing`, `Evaluator`, `LedgerSummary`, `PinTable`, `Quorum`, `TensorIo`.

## Where the code does less than one might expect

Each of these has a witness and the exact condition.

- A worker's inputs depend on its cache when one input name of a job stands for two artifacts. A static
  input named like a stage's weights is such a case, and so are weights called `dW_0`; the
  configurations without one are given exactly: `Dataflow.CacheOrderIndependence`,
  `StreamingNames.NamesOkIff`, `StreamingNames.CacheIndependentIff`,
  `StreamingNames.WeightsNameCanClash`, `StreamingNames.SameJobTwoInputs`.
- A restart of the orchestrator ends retries for the epoch in flight, and once a deadline passes the
  epoch can be out of reach for good; without a restart it can be too, once retries are used up or
  while the worker of an expired job stays alive: `StreamingBounds.NoRetryAfterRestart`,
  `StreamingFinish.EpochCanFinish`, `StreamingFinish.Stranded`, `StreamingFinish.RestartCanStrand`,
  `StreamingRescue.TogetherIff`, `StreamingRescue.RetriesCanRunOut`,
  `StreamingRescue.LiveAssigneeHolds`, `StreamingRescue.WaitReached`.
- A restart likewise ends the timeout of the round in flight: `SyncStalls.NoTimeoutAfterRestart`,
  `SyncStalls.StalledForEver`, `SyncStalls.StallReached`.
- A job of a round is never written again, so a round is stuck for good, without any restart, once the 600
  seconds of a job it still needs have passed: `SyncProgress.CanFinishIff`,
  `SyncProgress.OnlyRestartsOrDeadlines`, `SyncProgress.DeadlineCanStrand`,
  `SyncProgress.ReduceCanStrand`.
- A truncated body can decode, even to another index: `SparseCodec.PrefixDecodesIff`,
  `SparseCodec.LastByteMissing`, `SparseCodec.WrongIndexAccepted`, `SparseContainer.WireTruncatedIff`.
- A two-bit tensor that holds a zero does not survive the packed wire, and two ranks then part:
  `SparseCodec.LosslessIff`, `SparseWire.PeerAgreesIff`, `FleetPacked.PackedExactIff`,
  `FleetPacked.PackedWireDiverges`.
- An empty tensor cannot be packed for chunk sizes up to 65536: `SparseCodec.EmptyTensorEncodesIff`.
- A chunk below the scale floor need not be contracted: `Quantizer.FloorContractsIff`,
  `ChunkFloor.ContractsAtIff`, `Quantizer.NothingSentBelow`.
- Peer aggregation does not need an exact wire, only equal wire errors, and diverges at the first
  step where they differ: `FleetAgreement.AgreementIff`, `FleetAgreement.TwoRanksPart`.
- The evaluator checks a blob's declaration at its first read only: `Evaluator.LaterReadsUnchecked`,
  `Evaluator.ScanIff`.
- One more failure can raise a worker's trust, and what is payable to it: `Ledger.PassToFailTrust`,
  `Ledger.FirstFailureCanRaiseTrust`, `Ledger.PassToFailPaysIff`, `Ledger.FailureCanPay`.

## Model

| member | source | states |
|---|---|---|
| Pipeline.EpochMembers | teuton_legacy_v2/streaming.py:543-818 | an epoch's emission is exactly the set of jobs named by the emitted ids of that epoch, each with the task of its id, which JobsAre spells out |
| StreamingMeaning.JobsAre | teuton_legacy_v2/streaming.py:560-792 | the task of an id has the graph, parameters and input artifacts that its kind, epoch, stage and microbatch call for, each input under its name, and its outputs are exactly the artifacts it is the producer of, each under its name |
| Pipeline.TaskWiring | teuton_legacy_v2/streaming.py:560-792 | a job writes only artifacts it is the producer of, and reads only artifacts whose producer comes strictly before it |
| Pipeline.OutputsFunctional | teuton_legacy_v2/streaming.py:560-792 | two outputs of one job with the same URI are the same output |
| Pipeline.EmissionIsTopological | teuton_legacy_v2/streaming.py:543-818 | over all epochs, jobs have pairwise disjoint outputs and nothing is read before the job that writes it |
| Pipeline.FwdConnects | teuton_legacy_v2/streaming.py:560-655 | a stage's forward job reads the previous stage's outputs of the same microbatch and writes its own |
| Pipeline.BwdConnects | teuton_legacy_v2/streaming.py:656-750 | a backward job reads the previous stage's activations and writes the weight gradient, and the input gradient where the stage emits one |
| Pipeline.OuterConnects | teuton_legacy_v2/streaming.py:751-792 | an outer job reads every microbatch's gradient and writes the next epoch's weights |
| Dataflow.CacheOrderIndependence | teuton_legacy_v2/worker.py:530-545 | what a job reads is the same under all caches and stores if and only if no input name stands for two artifacts |
| Dataflow.CacheOrderMatters | teuton_legacy_v2/worker.py:530-545 | otherwise there is a cache under which it reads something else |
| Dataflow.ReferenceFixpoint | teuton_legacy_v2/worker.py:519-613 | executing any job again on the finished sequential run writes only what is there |
| Dataflow.OutcomeValue | teuton_legacy_v2/worker.py:559-575 | a job stores, under the URI of each output, what evaluation gives under that output's name |
| Dataflow.SettledBy | teuton_legacy_v2/streaming.py:543-818 | an artifact's value in the sequential run is settled by the epochs up to its producer's |
| WorkerCache.InsertValid | teuton_legacy_v2/worker.py:347-385 | insertion keeps a duplicate-free order with exactly the cached keys, a byte counter equal to the sum of sizes and within the limit, and adds no binding but its own |
| WorkerCache.InsertEvictsLeast | teuton_legacy_v2/worker.py:347-385 | insertion evicts the shortest oldest-first prefix that makes room |
| WorkerCache.TensorCache.Put | teuton_legacy_v2/worker.py:347-385 | the in-place eviction loop computes the specified insertion and keeps the invariant |
| StreamingOrch.StageTableSpec | teuton_legacy_v2/streaming.py:230-281 | a worker is listed for a stage if and only if a fresh heartbeat of it names the stage and it is not evicted; lists are in order of round-trip time |
| StreamingPlacement.StageListOrder | teuton_legacy_v2/streaming.py:230-281 | the places of a stage's list are those of the heartbeats of the last thirty seconds that name the stage, of workers not evicted, all of them, by round-trip time and then id |
| StreamingPlacement.HostIsLast | teuton_legacy_v2/streaming.py:230-281 | a worker has a host if and only if a fresh heartbeat of it exists, and it is that of the last one listed |
| StreamingPlacement.PickIs | teuton_legacy_v2/streaming.py:315-344 | a microbatch goes in turn to the listed workers on the preferred host, in order of the list, if there are any, else to all listed workers in turn |
| StreamingPlacement.ForwardBalanced | teuton_legacy_v2/streaming.py:560-655 | in the first stage, and in every stage when no host is known, two listed workers never differ by more than one microbatch |
| StreamingPlacement.StaysOnHost | teuton_legacy_v2/streaming.py:560-750 | a microbatch stays on the host it starts on, forward and backward, as far as every stage has a worker there |
| StreamingOrch.EmitSpec | teuton_legacy_v2/streaming.py:543-818 | emission writes exactly the epoch's jobs, each with its task and assignee, and leaves every other manifest |
| StreamingOrch.RetryOneSpec | teuton_legacy_v2/streaming.py:440-515 | looking at one job changes nothing or reassigns that job once; evictions only accumulate |
| StreamingPlacement.ReplacementsAre | teuton_legacy_v2/streaming.py:477-484 | a job may move to exactly the other listed workers of its stage that have not been tried, or to all the others when they all have been |
| StreamingPlacement.RetryMoves | teuton_legacy_v2/streaming.py:440-515 | a job is looked at only with attempts left, an output and no input missing, and its worker gone or on the last attempt; then that worker is evicted exactly on the last attempt, and the job moves to the first worker in the list it may move to, with a new deadline and both workers counted as tried |
| StreamingOrch.RetryScanSpec | teuton_legacy_v2/streaming.py:400-515 | a retry pass reassigns as many jobs as it counts, each once, to another worker of its stage's list, and touches no other |
| StreamingOrch.RetryScanCap | teuton_legacy_v2/streaming.py:400-515 | a pass changes at most the configured number of jobs, or one when the number is below one |
| StreamingClass.StreamingOrchestrator.ListWorkersByStage | teuton_legacy_v2/streaming.py:230-281 | the loops compute the specified stage table |
| StreamingClass.StreamingOrchestrator.BuildEpochJobs | teuton_legacy_v2/streaming.py:560-792 | the nested emission loops produce the jobs of the epoch's tasks in the specified order, each with the task of its id (JobsAre) and its assignee (PickIs) |
| StreamingClass.StreamingOrchestrator.EmitEpochJobs | teuton_legacy_v2/streaming.py:543-818 | emission changes the orchestrator as specified |
| StreamingClass.StreamingOrchestrator.EvictWorker | teuton_legacy_v2/streaming.py:308-313 | eviction adds the worker and nothing else |
| StreamingClass.StreamingOrchestrator.MaybeRetryStaleJobs | teuton_legacy_v2/streaming.py:400-515 | the retry loop, with its early exit, changes the orchestrator as specified |
| StreamingClass.StreamingOrchestrator.Tick | teuton_legacy_v2/streaming.py:349-398 | a tick changes the orchestrator as specified |
| StreamingClass.StreamingOrchestrator.ApplyResume | teuton_legacy_v2/streaming.py:190-220 | resume sets the cursor and completed list as specified |
| StreamingTheorems.TickKeeps | teuton_legacy_v2/streaming.py:349-398 | a tick keeps the invariant that manifests are exactly the jobs of the emitted epochs, adds at most the current epoch, never takes back an eviction, and moves the cursor only past a finished epoch |
| StreamingNames.DecimalReads | teuton_legacy_v2/streaming.py:751-792 | the number in the name of a gradient is written in digits that stand for it, without a leading zero |
| StreamingNames.NamesOkIff | teuton_legacy_v2/streaming.py:560-792 | every emitted job has one artifact per input name if and only if no stage has a clash: a static in scope, the loss target, the activations, a gradient or a microbatch's `dW_<mb>` under the name of the weights, or a static or forward input under the name of another input, each with a different artifact |
| StreamingNames.CacheIndependentIff | teuton_legacy_v2/worker.py:530-545 | what the jobs of a configuration read is the same under all caches if and only if it has no such clash |
| StreamingNames.WeightsNameCanClash | teuton_legacy_v2/streaming.py:560-655 | in training, one static of scope all named like stage 0's weights is a clash, and for the first forward job's own inputs there are a store and a cache under which it reads something else |
| StreamingNames.SameJobTwoInputs | teuton_legacy_v2/worker.py:291-303 | a run in which one worker may pick up one job and, a second later, the same job again, and evaluates it on the static blob the first time and on the weights the second |
| StreamingTheorems.WorkerReadsReference | teuton_legacy_v2/worker.py:318-345 | a worker with any caches reads what the reference run reads |
| StreamingTheorems.Confluence | teuton_legacy_v2/worker.py:519-613 | in every state of every run, under any interleaving of emission, partial and duplicate execution, retry, eviction, restart and caching, each artifact has the value the sequential run gives it; SequentialMeans says what that is |
| StreamingMeaning.SequentialMeans | teuton_legacy_v2/streaming.py:543-818 | the sequential run of n epochs holds exactly the artifacts of these epochs that have a value in a recursion that names no job, each with its value: what is given, or what the graph of the artifact's kind and stage gives under its output name on the values of the artifacts it is made from |
| StreamingMeaning.StoredMeans | teuton_legacy_v2/worker.py:519-613 | in every state of every run each artifact in the bucket has that value |
| StreamingMeaning.RunEvaluates | teuton_legacy_v2/worker.py:519-613 | without any condition on names, each value in flight, and each stored one that was not given, is what evaluation of its producer's graph gives under that output's name on some dictionary of the job's input names |
| StreamingMeaning.WeightsAreSequential | teuton_legacy_v2/streaming.py:376-398 | the weights of epoch E, whenever they exist, are the result of E sequential epochs: the given ones for epoch 0, else what the outer graph of the stage gives under W_new on a dictionary of the weights of the epoch before and all its gradients dW |
| StreamingProgress.CachesTransparent | teuton_legacy_v2/worker.py:318-385 | in every state of every run both caches keep their invariant and a cached read equals a read of the bucket |
| StreamingProgress.EpochDoneCloses | teuton_legacy_v2/streaming.py:376-398 | when the epoch check passes, all done markers exist, in training all next weights, and every input of every job that the tail needs |
| StreamingProgress.ForwardChain | teuton_legacy_v2/streaming.py:517-521 | a done marker at the tail stage vouches for the inputs of every stage before it |
| StreamingProgress.AdvanceSafety | teuton_legacy_v2/streaming.py:376-398 | over every run, in training or not, the completed list is exactly the epochs before the cursor; a tick moves the cursor by one and only when all markers, in training the next weights, and the inputs of all needed jobs exist; nothing but a tick or a resume moves it |
| StreamingProgress.NoDeadlock | teuton_legacy_v2/worker.py:276-302 | in every reachable state with an emitted, unfinished epoch some job has all its inputs and lacks an output |
| StreamingFinish.ExecutionProgress | teuton_legacy_v2/worker.py:519-613 | every completed execution of such a job strictly lowers the number of outputs missing from its epoch |
| StreamingFinish.CanStoreIff | teuton_legacy_v2/worker.py:276-302 | from every reachable state whose epoch is emitted, workers alone can store a set of its outputs that holds what its jobs read from each other if and only if no artifact of it is neither stored nor in flight with its job's deadline passed |
| StreamingFinish.AllOutputsIff | teuton_legacy_v2/worker.py:276-302 | that is so for all outputs of the epoch |
| StreamingFinish.DoneIffStored | teuton_legacy_v2/streaming.py:376-398 | the epoch check passes if and only if every output is stored that it looks at or that a job needed by the tail reads |
| StreamingFinish.EpochCanFinish | teuton_legacy_v2/worker.py:276-302 | workers alone can make the epoch check pass if and only if every job with such an output neither stored nor in flight has no deadline or one that the clock has not passed |
| StreamingFinish.Stranded | teuton_legacy_v2/streaming.py:434-438 | once the orchestrator has lost its start time and such an output is out of reach, no later step of workers or orchestrator finishes the epoch, short of a resume elsewhere |
| StreamingFinish.RestartCanStrand | teuton_legacy_v2/streaming.py:190-220 | every deployment has a run that gets there: emit, restart, let the deadline pass |
| StreamingRescue.TogetherIff | teuton_legacy_v2/streaming.py:400-515 | from every reachable state whose epoch is emitted, some steps of workers and ticks finish the epoch if and only if every needed output that jobs in time cannot make from what is stored or on its way belongs to a job that, at the first time a tick retries, is still in time or has an attempt left; with the start lost there is no such time |
| StreamingRescue.RetriesCanRunOut | teuton_legacy_v2/streaming.py:440-515 | every deployment has a run of ticks, without a restart, after which workers and ticks together cannot finish the epoch: hand a job to worker after worker until its attempts are used up and let its deadline pass |
| StreamingRescue.LiveAssigneeHolds | teuton_legacy_v2/streaming.py:460-470 | without any restart, as long as the worker of an expired job is in the stage table at every tick and the job is not on its last attempt, the job is not retried and the epoch that needs it is not finished |
| StreamingRescue.WaitReached | teuton_legacy_v2/streaming.py:400-515 | every deployment has such a run, with no attempt of the job used |
| StreamingBounds.TickRewrites | teuton_legacy_v2/streaming.py:400-515 | a tick rewrites at most the configured number of manifests; each keeps its task and goes to a different worker that was fresh, served the stage and was not evicted when the tick began |
| StreamingBounds.RetriesBounded | teuton_legacy_v2/streaming.py:400-515 | over a whole run, restarts included, a job's manifest is rewritten at most the maximum number of times |
| StreamingBounds.NoRetryAfterRestart | teuton_legacy_v2/streaming.py:434-438 | after a restart no job of the epoch in flight is reassigned until the cursor moves |
| Chunks.PadFills | bench/sparseloco_moe_validation.py:283-286 | the padding fills the last chunk and is less than one chunk |
| Chunks.ExpandAgrees | bench/sparseloco_moe_validation.py:282-344 | writing out rows equals mapping chunks if and only if it does on every chunk |
| Quantizer.ClampIdle | bench/sparseloco_moe_validation.py:294-297 | with scales rounded to a relative error of up to 1/256 the clamp of the two-bit quantiser never acts |
| Quantizer.EntryResidual | bench/sparseloco_moe_validation.py:294-297 | whatever the scale, quantisation never leaves more of an entry than the entry |
| Quantizer.LargestEntryClose | bench/sparseloco_moe_validation.py:294-297 | the entry that sets the scale is sent up to the scale's relative error, so without loss when that is zero |
| Quantizer.ChunkContraction | bench/sparseloco_moe_validation.py:282-307 | for a chunk of C entries that reaches the floor, what is left has at most 1 - (1 - delta^2)/C of its squared length, which is 1 - 1/C for exact scales |
| Quantizer.ChunkContractionUpToFloor | bench/sparseloco_moe_validation.py:282-307 | for any chunk the same holds up to the square of the floor |
| Quantizer.FloorContractsIff | bench/sparseloco_moe_validation.py:294-297 | with exact scales, all chunks of largest magnitude m are contracted by 1 - 1/C if and only if m is zero, at least the floor, or one or two thirds of it; otherwise the chunk of the one entry m is not |
| ChunkFloor.ContractsAtIff | bench/sparseloco_moe_validation.py:294-297 | the same for a given chunk size C and number k of places kept: with k = 1 the same magnitudes, with more those m at or above the floor, zero, or with 4 C (2 m s - s^2) >= 4 m^2 + (C - 1) s^2 for s a third of the floor |
| Quantizer.NothingSentIff | bench/sparseloco_moe_validation.py:294-297 | nothing is sent of a chunk if and only if twice its largest magnitude is at most the scale |
| Quantizer.NothingSentBelow | bench/sparseloco_moe_validation.py:294-297 | with exact scales that is a sixth of the floor |
| Quantizer.TopKExists | bench/sparseloco_moe_validation.py:290-292 | every chunk has a top-k selection |
| SparseTensor.DensityValid | bench/sparseloco_moe_validation.py:288-288 | settings whose number of kept entries comes from a density up to one are valid: it is between one and the chunk size |
| Quantizer.KeepCountNearest | bench/sparseloco_moe_validation.py:288-288 | more than one entry is kept only where that is the nearest number to the density's share of the chunk |
| SparseTensor.SenderReceiverAgree | bench/sparseloco_moe_validation.py:272-344 | for every tensor, shape and padding, the receiver's decoding equals what the sender subtracts if and only if values are two-bit or every selected entry survives its cast |
| SparseTensor.TwoBitAgrees | bench/sparseloco_moe_validation.py:272-344 | with two-bit values they always agree |
| SparseTensor.TensorContraction | bench/sparseloco_moe_validation.py:282-307 | for every tensor no entry of what is left grows, and the squared length shrinks by 1 - (1 - delta^2)/C up to the floor's square per chunk below the floor |
| SparseTensor.SlackBound | bench/sparseloco_moe_validation.py:295-295 | that slack counts each chunk at most once |
| ErrorFeedback.Feedback.CompressOne | bench/sparseloco_moe_validation.py:360-365 | the buffer becomes the decayed buffer plus the difference less what was sent; nothing else changes |
| ErrorFeedback.Feedback.Compress | bench/sparseloco_moe_validation.py:347-371 | the same for every named difference, with its payload; buffers without a difference stay |
| ErrorFeedback.BufferIsWeightedSum | bench/sparseloco_moe_validation.py:347-371 | over every run from a zero buffer, the buffer is the sum of beta^(T-1-t) (delta_t - sent_t) |
| ErrorFeedback.NothingLostWithoutDecay | bench/sparseloco_moe_validation.py:347-371 | without decay it is the plain sum of all that was not sent |
| ErrorFeedback.BufferStaysBounded | bench/sparseloco_moe_validation.py:347-371 | for a contractive compressor and differences of squared length at most g, over runs of any length, the buffer's squared length never exceeds any b with b (C t - (C-1)(t+1) beta^2) >= (C-1) t (t+1) g + C t eps for some weight t > 0, so the bound falls with the decay |
| ErrorFeedback.TopKBufferStaysBounded | bench/sparseloco_moe_validation.py:282-371 | the top-k compressor, with scales rounded to a relative error delta, is contractive with C/(1 - delta^2) for C, so for every decay of at most one the bound C (C^2-1) g + C^2 eps holds for it |
| ErrorFeedback.TopKBufferWithinSquare | bench/sparseloco_moe_validation.py:282-371 | so does 2 (C-1)(2C-1) g + 2 C eps, with the weight 2 (C-1) |
| Bytes.Unpack2Pack2 | bench/sparseloco_codec.py:53-81 | two-bit packing returns every value snapped to its code |
| Bytes.Unpack12Pack12 | bench/sparseloco_codec.py:84-129 | twelve-bit packing of pairs returns every index |
| Bytes.Unpack16Pack16 | bench/sparseloco_codec.py:84-129 | sixteen-bit packing returns every index |
| SparseCodec.WellFormedEncodes | bench/sparseloco_codec.py:137-183 | every well-formed payload encodes; index packing does not fail when indices are below the chunk size |
| SparseCodec.DecodeEncode | bench/sparseloco_codec.py:149-232 | decoding returns the payload up to zeros of two-bit tensors and consumes the body to its last byte, whatever follows |
| SparseCodec.LosslessIff | bench/sparseloco_codec.py:149-232 | the trip is lossless if and only if the tensor does not both look two-bit and hold a zero |
| SparseCodec.EmptyTensorEncodesIff | bench/sparseloco_codec.py:84-183 | a tensor without elements encodes if and only if its chunk size exceeds 65536 and its header fields fit |
| WireLayout.HeaderLayout | bench/sparseloco_codec.py:21-32 | a body starts with the seven words, the dimensions and the scales at the documented offsets, with two-bit values where all look it and the index width its chunk size calls for |
| WireLayout.ValuesLayout | bench/sparseloco_codec.py:53-81 | two-bit values lie four to a byte behind the scales, the first in the lowest bits; others take a byte each |
| WireLayout.IndexLayout | bench/sparseloco_codec.py:84-111 | the indices follow and end the body: two of twelve bits in three bytes, or two or four bytes each, the lowest first |
| Broadcast.FullPairs | bench/sparseloco_codec.py:112-129 | on the full number of bytes the strided, broadcasting unpacking reads every index in its place |
| Broadcast.ShortPairs | bench/sparseloco_codec.py:117-128 | on fewer bytes it succeeds if and only if there are at least two pairs and one whole pair is left, or there are two pairs and three to five bytes are left |
| SparseCodec.PrefixDecodesIff | bench/sparseloco_codec.py:186-232 | a strict prefix of an encoded tensor decodes if and only if its indices are twelve bits wide and the bytes left of them are of such a number |
| SparseCodec.LastByteMissing | bench/sparseloco_codec.py:117-128 | three or four twelve-bit indices without their last byte decode: to the payload itself, or with a fourth index whose upper bits are the second's; the same payload if and only if there are three or those bits agree |
| SparseCodec.WrongIndexAccepted | bench/sparseloco_codec.py:117-128 | a tensor with the indices 0, 1, 2 and 19 that loses its last byte arrives with the indices 0, 1, 2 and 3 |
| Framing.EncodePayloads | bench/sparseloco_codec.py:240-250 | the loop builds the specified container, or fails with the first failure |
| Framing.DecodePayloads | bench/sparseloco_codec.py:253-275 | the loop that advances a position decodes as specified |
| WireLayout.ContainerLayout | bench/sparseloco_codec.py:11-19 | a container is the letters SLCD, the version 1, the number of entries and the entries one after another |
| WireLayout.EntryLayout | bench/sparseloco_codec.py:15-19 | an entry is the length of its name, the name, the length of its body and the body |
| Framing.ContainerRoundTrip | bench/sparseloco_codec.py:240-275 | a container decodes to its entries, whatever follows it |
| Framing.TruncatedIff | bench/sparseloco_codec.py:240-275 | a strict prefix of a container decodes if and only if it ends in the last body and the codec accepts what is left of that |
| SparseContainer.WireLosslessIff | bench/sparseloco_codec.py:149-275 | a container of sparse payloads decodes to exactly the names sent, and each tensor is unchanged if and only if it hides no zero |
| SparseContainer.WireTruncatedIff | bench/sparseloco_codec.py:149-275 | a strict prefix of a container of sparse payloads decodes if and only if it lacks only bytes of the last tensor's twelve-bit indices and leaves one of the accepted numbers |
| SparseContainer.WideIndicesRejectTruncation | bench/sparseloco_codec.py:149-275 | with wider indices in the last tensor no strict prefix decodes |
| SparseWire.PeerAgreesIff | bench/sparseloco_codec.py:149-232 | through the packed format a peer's dense tensor equals the sender's if and only if not all values look two-bit or no entry of the tensor itself, padding aside, was sent as zero |
| Mean.OntoIsMean | bench/sparseloco_fleet.py:163-174 | own vector first and then the others gives the average of all |
| Mean.CorrectedMeans | bench/sparseloco_fleet.py:163-174 | two averages with corrections in different places are equal if and only if the corrections are |
| FleetWorker.WaitForAllPeers | bench/sparseloco_fleet.py:84-100 | polling returns true exactly when there was a poll and every rank but the own one was found in some poll |
| FleetWorker.SeenAllIff | bench/sparseloco_fleet.py:84-100 | with bodies that stay, that is when the last poll finds every other rank's body |
| FleetWorker.OwnThenOthers | bench/sparseloco_fleet.py:163-174 | the accumulation loop computes the average of what the rank sees |
| FleetWorker.Worker.OuterStep | bench/sparseloco_fleet.py:382-531 | one outer step of a rank (train, compress, upload, wait, average or read the average, apply) is its upload step and then its aggregation step of the fleet, or its halt exactly when it has waited in vain; rank 0 of a star publishes the average, and in a star the new parameters and alpha times the published average make the old ones, entry by entry; AggregationMoves says so for peers |
| FleetWorker.Worker.AveragePeers | bench/sparseloco_fleet.py:444-485 | the average of the rank's own vector and the decoded bodies |
| Fleet.Lockstep | bench/sparseloco_fleet.py:444-531 | under every interleaving no two ranks' completed counts differ by more than one |
| Fleet.NoDeadlock | bench/sparseloco_fleet.py:444-531 | as long as no rank has given up, some rank can go on |
| FleetAgreement.StepsAgreeIff | bench/sparseloco_fleet.py:444-531 | from common parameters two ranks' own averages lead to equal parameters if and only if the wire adds the same to both vectors |
| FleetAgreement.Agreement | bench/sparseloco_fleet.py:307-531 | under every interleaving a rank with t completed steps holds the parameters of the lockstep run; star aggregation needs nothing of the wire, peer aggregation equal wire errors before t; FleetLosesNothing and ExactFleetAverages say what those parameters are |
| FleetAgreement.AgreementIff | bench/sparseloco_fleet.py:444-531 | that condition is exact for two ranks that have just completed a step |
| FleetAgreement.TwoRanksPart | bench/sparseloco_fleet.py:444-531 | two ranks to whose first vectors the wire adds different amounts have a run in which they part in the first step |
| FleetAgreement.ExactWireAgrees | bench/sparseloco_fleet.py:444-485 | a wire that returns what is sent meets it |
| FleetMeaning.AggregationMoves | bench/sparseloco_fleet.py:444-485 | entry by entry, the new parameters and alpha times the mean of the vectors the rank sees make the old parameters |
| FleetMeaning.CollectPublishes | bench/sparseloco_fleet.py:487-512 | rank 0 of a star publishes that mean |
| FleetMeaning.FetchMoves | bench/sparseloco_fleet.py:513-531 | another rank of a star moves by alpha times the published vector in the same way |
| FleetMeaning.ExactFleetAverages | bench/sparseloco_fleet.py:382-531 | with a compressor and wire that lose nothing and a step size of one, under every interleaving, a rank with t completed steps holds the parameters of t rounds in which all ranks train and the results are averaged |
| FleetMeaning.AloneTrains | bench/sparseloco_fleet.py:382-531 | with one rank those are what its own training gives |
| FleetMeaning.FleetLosesNothing | bench/sparseloco_fleet.py:382-531 | for any compressor and step size, without decay and over an exact wire, under every interleaving, a rank's parameters are the initial ones, less alpha times all that the ranks have trained on average, plus what the buffers hold back |
| FleetCodecs.PlainAgreement | bench/sparseloco_fleet.py:108-133 | with two-bit payloads stored whole, peer aggregation agrees at every step of every run |
| FleetPacked.PackedExactIff | bench/sparseloco_fleet.py:108-133 | with any number of named tensors in one container, a peer gets what the sender takes for sent if and only if no tensor hides a zero |
| FleetPacked.PackedAgreement | bench/sparseloco_fleet.py:108-133 | over the packed wire peer aggregation agrees as long as no rank hides a zero in any tensor |
| FleetPacked.PackedWireDiverges | bench/sparseloco_codec.py:164-172 | two ranks of which one sends the entries 3 and 0 and the other 3 and 3 start equal and part in their first step |
| PinTable.BuildPinTable | teuton_legacy_v2/orchestrator.py:173-211 | the loops compute the specified list of every block |
| PinTable.PinnedIff | teuton_legacy_v2/orchestrator.py:173-211 | a worker is in a block's list if and only if it asks for the block, or nobody does and it asks for no block there is |
| PinTable.PinnedNoDuplicates | teuton_legacy_v2/orchestrator.py:173-211 | lists hold no worker twice when no worker asks twice, and lists of askers are in order of cost |
| Placement.FallbackList | teuton_legacy_v2/orchestrator.py:206-209 | place j of the list of a block that nobody asks for holds the free worker with number ub + j, counted round, in order of listing |
| Placement.FallbackSpreads | teuton_legacy_v2/orchestrator.py:206-209 | two such blocks less than the number of free workers apart start at different workers |
| Quorum.EmitInner | teuton_legacy_v2/schedule.py:250-283 | the nested loops make exactly the specified delta keys |
| Quorum.DeltasCounted | teuton_legacy_v2/schedule.py:250-283 | a block has exactly M min(R, P) different deltas |
| Placement.DeltasAre | teuton_legacy_v2/schedule.py:250-283 | a delta of microbatch mb by worker w is emitted if and only if w stands at place mb R + r, counted round, for some replica r below R |
| Placement.InnerBalanced | teuton_legacy_v2/schedule.py:250-283 | with at most as many replicas as workers, two workers of a block never differ by more than one delta |
| Quorum.QuorumReachable | teuton_legacy_v2/orchestrator.py:347-371 | for any target and minimum, all deltas meet the quorum if and only if min(R, P) reaches the target per microbatch, or the minimum once the time is up; by default that is P >= R, and P >= (R+1)/2 rounded down |
| Quorum.CoverageSpreads | teuton_legacy_v2/orchestrator.py:213-218 | coverage gives every block and microbatch R different workers |
| SyncRounds.SyncOrchestrator.MaybeEmitReduces | teuton_legacy_v2/orchestrator.py:341-444 | the loop over blocks emits as specified: nothing behind a marker or below quorum |
| SyncRounds.SyncOrchestrator.EmitInitialRound | teuton_legacy_v2/orchestrator.py:288-339 | records the round, its start, the deadline of its jobs and the deltas its inner steps are to make |
| SyncRounds.SyncOrchestrator.RoundComplete | teuton_legacy_v2/orchestrator.py:496-503 | true exactly when all next-round weights exist |
| SyncRounds.SyncOrchestrator.RunTick | teuton_legacy_v2/orchestrator.py:231-286 | a tick changes the state as specified |
| SyncRounds.RunSafe | teuton_legacy_v2/orchestrator.py:341-444 | over every run each block of a round has at most one reduce emission, with existing inputs, matching arity and a met quorum; values come from what they should; completed rounds are those before the cursor |
| SyncRounds.WeightsComeFromReduce | teuton_legacy_v2/schedule.py:311-374 | weights of a later round are what the outer step makes of the weights before and of the reduce, over exactly the deltas of the one emission for that round and block, which met the quorum |
| SyncStalls.DeltasBounded | teuton_legacy_v2/schedule.py:250-283 | over every run a block emitted to P different servers never has more than M min(R, P) deltas |
| SyncStalls.StarvedBlock | teuton_legacy_v2/orchestrator.py:341-371 | where that is below target and minimum, the block never gets its reduce and the round is never complete, however long the run |
| SyncStalls.NoTimeoutAfterRestart | teuton_legacy_v2/orchestrator.py:356-357 | after a restart, in every later state with the same cursor the round's start is unrecorded and a tick marks a block if and only if its deltas reach the full target |
| SyncStalls.StalledForEver | teuton_legacy_v2/orchestrator.py:341-371 | a round whose block waits for the timeout when a restart comes, with fewer servers than the target asks for, never gets that block's reduce, and the cursor never leaves it |
| SyncStalls.StallReached | teuton_legacy_v2/orchestrator.py:341-371 | a run that gets there with one server, two replicas and the delta that would meet the timed quorum |
| SyncProgress.CanFinishIff | teuton_legacy_v2/worker.py:276-302 | in every state of every run the round in flight can still be finished if and only if every block has its next weights stored or in flight; or, where the outer step reads forward extras, those are on hand or their forward job is in time, and it has a reduce and outer step before their deadline, or no reduce yet and deltas stored, in flight or still to be begun before the round's deadline that reach the target, or the minimum with a timeout that can still come |
| SyncProgress.OnlyRestartsOrDeadlines | teuton_legacy_v2/orchestrator.py:341-371 | while the cursor stays, only a restart, a deadline that passes, or the loss of an execution whose deadline has passed takes that possibility away |
| SyncProgress.PlannedCount | teuton_legacy_v2/schedule.py:250-283 | from its emission on, a block emitted to P different servers has exactly M min(R, P) inner steps |
| SyncProgress.ServersFinishIff | teuton_legacy_v2/orchestrator.py:341-371 | while no job it needs has expired, a round can be finished if and only if every block without its reduce has min(R, P) reaching the target per microbatch, or the minimum with a timeout to come |
| SyncProgress.CoverageFinishes | teuton_legacy_v2/orchestrator.py:213-218 | a round emitted with coverage, and a target of at most all replicas, can be finished in every later state in which no job it needs has expired, restart or not |
| SyncProgress.DeadlineCanStrand | teuton_legacy_v2/schedule.py:162-165 | every deployment, whatever its coverage, has a run of two ticks without a restart after which the round cannot be finished: emit, and let 601 seconds pass |
| SyncProgress.ReduceCanStrand | teuton_legacy_v2/schedule.py:424-463 | every deployment with coverage has a run without a restart in which all deltas are there, every block is marked, and 601 seconds later the round cannot be finished |
| Graphs.GraphBuilder.Input | teuton_legacy_v2/ir.py:291-295 | refuses exactly duplicate names |
| Graphs.GraphBuilder.Param | teuton_legacy_v2/ir.py:297-301 | refuses exactly duplicate names |
| Graphs.GraphBuilder.EmitMulti | teuton_legacy_v2/ir.py:312-361 | accepts exactly known operations with fitting arguments and keywords, numbers them by position, and keeps the graph in order when all references were returned before |
| Evaluator.AnyDimension | teuton_legacy_v2/eval.py:598-618 | a declared dimension of -1 admits every size at its place; without one exactly the declared shape fits |
| Evaluator.ResolveRef | teuton_legacy_v2/eval.py:59-118 | a reference resolves exactly when its value exists and a blob is fit at its first read; a reference to an operation gives the output at its index, counted from the end when negative; the cache gains exactly that blob |
| Evaluator.ResolveKwargs | teuton_legacy_v2/eval.py:129-145 | references inside keywords resolve in order, literals as they are |
| Evaluator.RunDenotes | teuton_legacy_v2/eval.py:622-641 | an operation run on the table yields its recursive meaning |
| Evaluator.LookupDenotes | teuton_legacy_v2/eval.py:59-118 | a reference to an earlier operation finds a filled slot holding its meaning, and gives its output at the index as OpDenotes says |
| Evaluator.Evaluate | teuton_legacy_v2/eval.py:567-653 | on a graph in order the loop succeeds if and only if the graph has a meaning and every blob is as declared at its first read, and returns that meaning, which TraceMeans and MeansTrace give without it |
| Traces.TraceMeans | teuton_legacy_v2/eval.py:567-653 | a list of results in which each is what its operation yields on the outputs at the indices its references name, promoted, is the meaning of the operations, and the outputs are the last entries of their names taken from it |
| Traces.MeansTrace | teuton_legacy_v2/eval.py:567-653 | a graph that has a meaning has such a list, and its outputs are the returned ones |
| Traces.OpDenotes | teuton_legacy_v2/eval.py:59-79 | an operation means what it yields on the results before it, where a reference takes the element at its index |
| Evaluator.ScanIff | teuton_legacy_v2/eval.py:90-117 | the blob checks pass exactly when the first reference to each blob declares it as it is |
| Evaluator.CacheHidesLaterReads | teuton_legacy_v2/eval.py:90-117 | a graph passes those checks if all its references fit, and exactly when the first reference to each blob does |
| Evaluator.LaterReadsUnchecked | teuton_legacy_v2/eval.py:90-93 | a second reference with another shape passes |
| Ledger.TrustBounded | teuton_legacy_v2/validator.py:398-412 | trust lies between zero and one, and is one if and only if no verdict is other than a pass |
| Ledger.PayableBounded | teuton_legacy_v2/validator.py:398-424 | what is payable lies between nothing and the estimate, and is nothing when failures are at least one and passes at most twice the failures |
| LedgerShares.TallyCounts | teuton_legacy_v2/validator.py:386-397 | the tally holds the numbers of items that passed, that failed and that have another verdict |
| LedgerShares.EarnsByCounts | teuton_legacy_v2/validator.py:398-424 | with p passes, f failures and i other verdicts, n together, a receipt earns nothing if it failed and otherwise its claim times q / 4n, where q is 4 (p - 2 f) once there is a failure and 4 p - i before, at least 0 and for an inconclusive receipt at most 2 n; without verdicts it earns its claim |
| LedgerShares.PaidAllIff | teuton_legacy_v2/validator.py:398-424 | a worker is paid all it claims if no verdict of it is other than a pass or it claims nothing, and strictly less otherwise |
| LedgerShares.WholeTrust | teuton_legacy_v2/validator.py:398-412 | trust is 1 if and only if there is no verdict other than a pass |
| LedgerShares.Claims | teuton_legacy_v2/validator.py:444-447 | a receipt without bytes claims its seconds, and a billion bytes read or written claim one more |
| Ledger.PassToFailTrust | teuton_legacy_v2/validator.py:398-412 | turning a pass into a failure raises trust if and only if it is the first failure, more than twelve verdicts are inconclusive and more than three pass |
| Ledger.PassToFailPays | teuton_legacy_v2/validator.py:398-424 | where that does not raise trust, it does not raise what is payable |
| Ledger.PassToFailPaysIff | teuton_legacy_v2/validator.py:398-424 | no worker with given numbers of verdicts can gain from it if and only if it does not raise trust |
| Ledger.FailureCanPay | teuton_legacy_v2/validator.py:398-424 | wherever it does raise trust, some worker with those verdicts is paid more |
| Ledger.InconclusiveToPassPays | teuton_legacy_v2/validator.py:398-424 | turning an inconclusive verdict into a pass lowers neither |
| Ledger.FirstFailureCanRaiseTrust | teuton_legacy_v2/validator.py:398-412 | a worker whose trust a failure raises |
| LedgerSummary.LatestVerdicts | teuton_legacy_v2/validator.py:357-366 | the loop keeps the specified verdict of each receipt |
| LedgerSummary.LatestIsLast | teuton_legacy_v2/validator.py:357-366 | a receipt's verdict is one of its own and none is later |
| LedgerSummary.LatestIsFirst | teuton_legacy_v2/validator.py:357-366 | among verdicts of the latest time the first one listed is chosen |
| LedgerSummary.LatestIgnoresOrder | teuton_legacy_v2/validator.py:357-366 | with distinct check times the chosen verdicts do not depend on the listing order |
| LedgerSummary.Summarize | teuton_legacy_v2/validator.py:348-447 | every worker's row is made of its own receipts, the totals are sums over all receipts, each of which earns the share that the numbers of its worker's verdicts give, and the rows' estimates and payables add up to them in any order of the workers |
| LedgerSummary.ReceiptEarns | teuton_legacy_v2/validator.py:386-424 | what a receipt is paid in the summary is that share, with the numbers of its worker's receipts whose latest verdict is of each kind |
| LedgerSummary.PassedPaid | teuton_legacy_v2/validator.py:398-424 | the row of a worker without verdicts other than passes has trust 1 and pays the sum of its claims |
| LedgerSummary.TotalPaidIff | teuton_legacy_v2/validator.py:371-424 | for non-negative claims the total payable is the total estimate if and only if every receipt with a claim belongs to a worker without verdicts other than passes |
| LedgerSummary.RowCounts | teuton_legacy_v2/validator.py:371-397 | a row counts the receipts of its worker |
| LedgerSummary.TotalBounded | teuton_legacy_v2/validator.py:371-424 | for non-negative claims the total payable lies between nothing and the total estimate |
| LedgerSummary.ReceiptBounded | teuton_legacy_v2/validator.py:414-423 | a receipt earns between nothing and its estimate, and nothing if it failed |
| Int8Pack.ElementError | teuton_legacy_v2/eval.py:437-456 | within 127.499 scales the clamp never acts and an element is off by at most half the scale |
| Int8Pack.UnpackPack | teuton_legacy_v2/eval.py:465-508 | for every shape and channel dimension, with scales stored to a relative error of up to 1/256, unpacking a packed tensor returns every element within half its channel's stored scale |
| Int8Pack.UnpackPackWithin | teuton_legacy_v2/eval.py:465-508 | an element comes back within 0.502 of a 127th of the largest magnitude in its own channel, or of the least scale |
| Int8Pack.ChannelIsCoordinate | teuton_legacy_v2/eval.py:437-456 | the channel of the element at given coordinates is its coordinate along the channel dimension |
| Int8Pack.Pack | teuton_legacy_v2/eval.py:465-482 | the blob has four bytes per channel and one per element |
| TensorIo.ExpectedPayloadBytes | teuton_legacy_v2/tensor_io.py:68-72 | the loop computes the product of the dimensions times the element size |
| TensorIo.DecodeEncode | teuton_legacy_v2/tensor_io.py:75-144 | every tensor comes back from its wire form |
| TensorIo.EncodeDecode | teuton_legacy_v2/tensor_io.py:75-144 | a blob in canonical form that decodes to a tensor is the wire form of that tensor |
| TensorIo.ExtensionRejected | teuton_legacy_v2/tensor_io.py:107-125 | nothing may follow the elements |
| TensorIo.TruncationRejected | teuton_legacy_v2/tensor_io.py:107-125 | no strict prefix of a wire form decodes |

## Left out

- Foreign services: the object store, SSH, containers, chain calls; the bucket is a map.
- Dashboards, command lines, visualisers and telemetry: they do not change protocol state.
- Hashing, signatures, grant encryption, and the record conversions of the protocol: graph ids are taken as injective.
- Fault injection in the worker: workers are honest.
- The asynchronous mode of the fleet: ranks are not meant to agree in it.
- Floating-point error other than that of stored scales: sums, differences, quotients and averages are exact, so the order of summation is not captured.
- Races inside one worker's parallel fetch: each cache call is one step.
- Crashes between two writes of one emission: see Conventions.
- The elementwise and neural-network operations of the evaluator: any deterministic functions.
- The estimate of wire size in the compressor and the byte counts of the fleet: no effect on what is sent.
- The eval jobs of the synchronous rounds, the assignees of forward, reduce and outer jobs and the critical worker: any worker may turn up, and nothing waits for an eval.
- The second that a worker waits before it tries a failed job again: a restarted worker has forgotten the attempt.
- SyncProgress.CanFinishIff: graphs are taken to succeed, a forward job's target and extras of one block land together, and so do an outer step's weights and optimiser state; a lost execution is a step of its own.
- The claimed seconds and bytes in the rows of the ledger: plain sums of fields.
- StreamingProgress.AdvanceSafety: in training the clause about inputs is for configurations in which every stage has a backward and an outer job, because a stage without them vouches for nothing.
- StreamingFinish.EpochCanFinish: graphs are taken to succeed on every dictionary of their task's own input names; a graph that raises can stop an epoch without any deadline.
- StreamingTheorems.Confluence: needs input names of a job to stand for one artifact each; NamesOkIff says which configurations that is, and CacheIndependentIff that in the others what a job reads depends on the cache.
- StreamingRescue.TogetherIff: a job's allowed time is taken as not negative, since otherwise every job is past its deadline when it is written; resume is not among the steps.
- FleetPacked.PackedAgreement: a body that a peer cannot decode stands for zeros instead of an exception, and the lemma is about bodies that decode.
- SparseTensor.TensorContraction: the relative error of a scale is bounded for all scales, so overflow and underflow of single precision are not captured; the agreement results do not need the bound.
- Quantizer.FloorContractsIff: like ContractsAtIff stated for exact scales, because with rounded ones the thirds of the floor are not sent exactly.
- SparseCodec.DecodeEncode: names are taken as bytes, and UTF-8 is not checked; the value of a negative index or a wider integer than the source's types hold is an error of the encoder.
- Evaluator.Evaluate: says which graphs evaluate and to what, not which error is raised first; graphs whose references run forward are evaluated by the loop but have no recursive meaning to compare with.
- TensorIo.DecodeEncode: the header's text is a parameter that reads back as written.
- SyncRounds.RunSafe: an artifact is made by one execution at a time, as a worker runs one job at a time, so a second replica of the same worker does not replace the first one's delta.
