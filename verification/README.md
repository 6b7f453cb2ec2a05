# Verification of the transaction graph and its distributed score computation

This project models the parts of the repository in which concurrency, encoding and arithmetic meet, and proves
properties of the model with Dafny. `dafny verify dfyconfig.toml` checks all of it.

**The distributed graph job** (`dbspgraph`, `bspgraph`, `gravitas`, `depl/monolith/partition`).
`Bsp` says what a job means: what one graph holding every vertex computes in each superstep, with no order of
execution in it. `Engine` is the local engine, updated in place, proved to compute that meaning whatever order the
vertices are taken in. `Protocol` is the distributed job as a transition system: each worker is its main goroutine,
its receive loop and the handler the master runs for it, joined by bounded FIFO links; the master collects and
broadcasts. `ProtocolInvariant`, `ProtocolFrames`, `ProtocolSteps`, `ProtocolMail`, `ProtocolRounds` and
`ProtocolRuns` prove its invariant, `ProtocolTheorems` draws the conclusions: refinement of the single graph, barrier
exactness, exactly-once delivery, agreement of aggregates, freedom from deadlock; `ProtocolNotices` counts the
notifications. `ProtocolProgress` shows that every
run of a job that stops is finite, and so ends with the master finished. `Callbacks` has the loops of the executor
callbacks. `Commit` follows the end of a job while contexts may be cancelled and links may lose their contents at any
moment, and `CommitProgress` shows that it commits when none do. `Gravitas` is the score computation, `Partition` the address range, and `Deployment` puts them together: the
distributed scores.

**The wire codec** (`scorestoreapi/proto`, `txgraphapi/proto`). `Varints` and `Wire` are the layer both generated files
share: varints, lengths, tags, skipping and the record loop (the Protocol Buffers Encoding guide, sections "Base 128
Varints" and "Message Structure"); `WireLoops` has the code's own loops for them. A message type is a schema, a fold
over fields, and the fields it prints; `Messages` gives the eleven types, batches and answers being built from their
elements, and `Printers` the backward printers into a byte array. `WireFormat` spells out the bytes, tag by tag, in
both directions, and what is refused or kept.

**The write-back cache** (`txgraph/store/cdb`). `CacheProtocol` runs any number of writers against three cache lists,
the arrays behind them, their locks and the database, with its foreign keys. A failed flush leaves inserters behind
that go on reading their slices of the array and issue their statements whenever they like; writers are only assumed
to add wallets before transactions and transactions before the processed block. A kind of run (`Faults`) says on which
tables a leftover may read an array that was rewritten since its flush failed, and whether a flush may return nil
after a failed statement. `CacheInvariant` and `CacheSteps` prove the invariant of each kind, `CacheTheorems` draws
the conclusions, and `CacheFailures` gives the runs that fail and so the exact conditions, `CacheCallers` what callers
can do. `Cdb` is the same store as a class, one call at a time, and `Scanner` the two writers that use it.
`BatchUpsert` is one flush, with its workers and channels.

**The pipeline** (`pipeline`). `Pipeline` has the source, FIFO stages, fixed and dynamic pools, broadcasts, the sink,
their unbuffered channels, the error channel and the context as steps; `PipelineProofs`, `PipelineTheorems` and
`PipelineOrder` prove what runs keep, `PipelineProgress` that they end, and `PipelineValues` which values come out.

**Two smaller parts.** `MemoryStore` is the in-memory transaction graph with its index; `Accumulator` the integer
accumulator under concurrent atomic instructions.

`Sums` and `Strings` hold finite sums and the order of strings.

## Properties that fail, and exactly when

* A full range is a partition of the addresses if and only if it has at most 16 parts (`Partition.FullRangeSound`): the
  boundaries are printed without leading zeros, so with more parts the strings are no longer sorted.
* The highest address of the full range, and no other, belongs to no part, because ranges exclude their end
  (`Partition.Top`, `Partition.HighestUnowned`).
* A nil return of `batchUpsert` means that every row was written if and only if no statement failed
  (`BatchUpsert.NilMeaning`); the drain loop can take every done token before the buffered error
  (`BatchUpsert.NilCanHideError`).
* A block marked processed has its transactions in the database, in all runs of a kind, if and only if in that kind no
  inserter of a failed block flush reads the array behind the list after it was emptied in place and written again, and
  no flush hides an error (`CacheFailures.BlocksStoredExactly`). The run that fails (`CacheFailures.LateBlock`), with
  caches larger than one batch: the full block list is flushed, the inserter of the first slice stalls before it reads,
  another one's statement fails and the call returns the error. The caller repeats the call; the block's number is
  cached, so nothing is appended; the flush succeeds and empties the list in place. The next processed block is appended
  into the first cell of the same array while its transactions are in the transaction cache only. The stalled inserter
  resumes and stores its slice, that block included.
* No statement breaks a foreign key, in all runs of a kind, if and only if no inserter of a failed transaction flush
  reads that late and no flush hides an error (`CacheFailures.StatementsLegalExactly`, and `CacheFailures.LateTx` for
  the run). The database refuses such a statement, so its tables stay consistent (`CacheTheorems.WalletsStored`).
  Callers are safe from both if no call enters the store after one has returned an error, as when a single caller stops
  at its first error (`CacheCallers.StoppingIsSafe`, `CacheCallers.SingleCallerStops`), and no flush hides one.
* No accepted row is lost, in all runs of a kind, if and only if no flush hides an error
  (`CacheFailures.NeverLosingExactly`): a hidden error empties the cache all the same.
* A block the sink hands over ends up marked processed if and only if the block cache does not hold it as unprocessed at
  that moment (`Scanner.Consume`): a row whose number is cached is dropped, whatever its flag.

## Model

| member | source | states |
|---|---|---|
| ProtocolRuns.EventKeeps | dbspgraph/master_job_coordinator.go:166-228 | every one of the twelve kinds of step (enter, compute, send, handle, forward, collect, notify, reply, receive, leave and the two master transitions) keeps the invariant: round bookkeeping, routing, local graphs, and the conservation of messages, contributions and counts |
| ProtocolRuns.RunKeeps | dbspgraph/master_job_coordinator.go:144-228 | the invariant holds in every state of every run, for any number of workers, owner function, link capacity of at least one and interleaving |
| ProtocolTheorems.RefinesSingleGraph | bspgraph/graph.go:241-300 | outside the computation of a superstep every worker's graph is its part of the graph that holds all vertices: same vertices, values, active flags, bags of pending messages and aggregates |
| ProtocolTheorems.StopsWithSingleGraph | dbspgraph/executor.go:92-117 | whoever has left the loop left it after the superstep at which the single graph stops, with the single graph's final values |
| ProtocolTheorems.LastUnique | bspgraph/executor.go:83-106 | there is one last superstep, so all participants stop at the same one |
| ProtocolTheorems.FinishedResult | dbspgraph/master_job_coordinator.go:144-162 | when the master has finished, every vertex is on its owner with its final value |
| ProtocolTheorems.FinishedTotals | dbspgraph/executor.go:60-90 | and the master's aggregators hold the final totals |
| ProtocolTheorems.RoundHoldsEveryone | dbspgraph/barrier.go:44-61 | a completed WaitForWorkers round holds one step of that round from each of the distinct workers |
| ProtocolTheorems.OneNotification | dbspgraph/barrier.go:65-105 | a worker is sent at most one notification at a time, only while it waits, and the one it is handed is from the round it waits in |
| ProtocolNotices.NoticesSeen | dbspgraph/barrier.go:65-105 | in every run, the notifications sent to a worker so far are as many as the barriers it has left plus those on their way to it |
| ProtocolNotices.OncePerRound | dbspgraph/barrier.go:65-105 | so each worker is notified exactly once in every completed round, and in the current one exactly if the master has counted it as notified |
| ProtocolTheorems.WithinOneBarrier | dbspgraph/barrier.go:140-176 | no two workers' barrier counts differ by more than one |
| ProtocolTheorems.RelayDelivered | dbspgraph/worker_job_coordinator.go:124-182 | a relay is received by the owner while it is in the superstep of the sending, before it has left that superstep's POST barrier, and enters the queue of the next superstep, never the one being drained |
| ProtocolTheorems.ExactlyOnce | dbspgraph/master_job_coordinator.go:196-219 | every copy of every message sent so far is in exactly one place: an outbox, a link, a handler or the queue it is meant for |
| ProtocolTheorems.NeverAborts | dbspgraph/master_job_coordinator.go:196-213 | with valid destinations no routing error ever cancels the job |
| ProtocolTheorems.AbortsExactly | dbspgraph/master_job_coordinator.go:196-213 | and a run of any job is cancelled exactly by taking a relay that has no owner, or comes from the worker that should hold its vertex; it has no further step |
| ProtocolTheorems.TotalsAgree | dbspgraph/executor.go:163-190 | after a POST barrier the master and every worker past it hold the same value: the start plus every contribution made on any node, each once |
| ProtocolTheorems.NeverStuck | dbspgraph/master_job_coordinator.go:144-191 | until the master has finished some step is enabled, whatever the capacity of the links |
| ProtocolTheorems.LinksBounded | dbspgraph/master_job_coordinator.go:166-219 | no link ever holds more payloads than its capacity |
| ProtocolTheorems.CountAgrees | dbspgraph/executor.go:92-109 | the active count the master broadcasts is the number of vertices the single graph processes in that superstep |
| ProtocolProgress.EventLess | dbspgraph/master_job_coordinator.go:144-228 | every step uses up a part of the work left: barriers to pass, vertices to process, hops of messages |
| ProtocolProgress.RunsAreBounded | bspgraph/executor.go:83-106 | a run of a job that stops has no more steps than the job has work |
| ProtocolProgress.AlwaysFinishes | dbspgraph/master_job_coordinator.go:144-162 | any run, whatever has happened in it, continues to one in which the master has finished |
| Callbacks.Aggregators.MergeDeltas | dbspgraph/executor.go:209-223 | adds each named delta; fails exactly on an unknown name or a value that cannot be decoded, with each delta added or not |
| Callbacks.Aggregators.MergeAll | dbspgraph/executor.go:68-72 | the loop over all steps fails exactly if one of them does; otherwise every aggregator has grown by the sum of the workers' deltas |
| Callbacks.Aggregators.Serialize | dbspgraph/executor.go:225-250 | sends each value, or each change since the last time, which restarts the change; fails exactly on a value that cannot be encoded, with each change restarted or not |
| Callbacks.Aggregators.SetValues | dbspgraph/executor.go:252-266 | installs each broadcast value as current and previous sum; fails exactly on an unknown name or a value that cannot be decoded, with each value installed or not |
| Callbacks.SerializedValues | dbspgraph/executor.go:225-250 | spelled out: at POST each encoding is that of current minus previous sum, which then are equal; in the broadcast that of the current sum |
| Callbacks.WorkerCarries | dbspgraph/executor.go:160-190 | a worker whose accumulators hold the node's sums sends with its POST step the totals the protocol's step carries |
| Callbacks.MasterCarries | dbspgraph/executor.go:60-90 | and the master's broadcast carries its current totals |
| Callbacks.WorkerInstalls | dbspgraph/executor.go:252-266 | which a worker installs as current and previous sums, reading back what was encoded |
| Callbacks.CountActive | dbspgraph/executor.go:98-102 | adds up the active counts of all steps |
| Callbacks.MergingIsBroadcast | dbspgraph/executor.go:66-82 | the values the merge loop leaves, from the steps as the workers encoded them, are the totals the protocol's broadcast step carries |
| Callbacks.CountingIsBroadcast | dbspgraph/executor.go:98-109 | and so is the count |
| Commit.EventKeeps | dbspgraph/master_job_coordinator.go:144-228 | every step keeps the commit invariant although contexts are cancelled and links lose their contents at any moment |
| Commit.CompleteAfterAllLeft | dbspgraph/worker_job_coordinator.go:105-113 | no worker is past the EXECUTED_GRAPH barrier, and so none calls CompleteJob, before every worker has left the superstep loop |
| Commit.NilMeansAllCompleted | dbspgraph/master_job_coordinator.go:144-162 | if the master's or any worker's job returns nil, CompleteJob has succeeded on the master and on every worker |
| Commit.MasterNilMeansNoError | dbspgraph/worker_job_coordinator.go:105-120 | if the master returns nil, no worker reports an error |
| CommitProgress.EventKeeps | dbspgraph/master_job_coordinator.go:144-228 | where nobody is cancelled, no link loses anything and no call fails, every step leaves each worker at one of nineteen points of the protocol, none further from the master than its stage allows |
| CommitProgress.SomeoneGoesOn | dbspgraph/master_job_coordinator.go:144-228 | and until the master has returned somebody can go on without anything going wrong |
| CommitProgress.EventLess | dbspgraph/master_job_coordinator.go:144-228 | each such step, traffic aside, uses up a part of the work left |
| CommitProgress.NothingFails | dbspgraph/worker_job_coordinator.go:105-120 | so in such a run no job ever returns an error |
| CommitProgress.AlwaysCommits | dbspgraph/master_job_coordinator.go:144-162 | and any such run continues, without anything going wrong, until the master's job has returned nil with every worker through COMPLETED_JOB |
| CommitProgress.AllReturnNil | dbspgraph/worker_job_coordinator.go:118-121 | after which, as the workers' streams end, every worker's job returns nil |
| Bsp.InboxCounts | bspgraph/graph.go:214-220 | a vertex's inbox holds exactly what all vertices sent it one superstep earlier |
| Engine.MemoryQueue.Enqueue | bspgraph/message/memory_queue.go:24-29 | the message is appended |
| Engine.MemoryQueue.Next | bspgraph/message/memory_queue.go:55-68 | takes and latches the newest message; false, with nothing changed, exactly on an empty queue |
| Engine.MemoryQueue.DiscardMessages | bspgraph/message/memory_queue.go:40-46 | empties the queue and drops the latched message |
| Engine.MemoryQueue.Drain | bspgraph/message/memory_queue.go:55-76 | iterating sees the messages newest first, each once |
| Engine.Graph.SendMessage | bspgraph/graph.go:214-233 | the message enters the destination's queue of the next superstep; an unknown destination is an error and changes nothing |
| Engine.Graph.CallCompute | bspgraph/graph.go:283-294 | one call of the compute function: value, flag, sends and contributions as the function says, the queue of this superstep emptied; a refused message ends it before all but the sends |
| Engine.AfterCallCell | bspgraph/graph.go:283-294 | what a call leaves of each vertex: its own value, flag and empty queue, and behind the others' next queue what it sent them |
| Engine.FailedCallCell | bspgraph/graph.go:283-294 | and what a call leaves whose message is refused: the vertex active, the messages before that one sent, and nothing else changed |
| Engine.Graph.Step | bspgraph/graph.go:241-300 | a superstep that takes the vertices in any order leaves exactly the state, active count and aggregates of the order-free specification, and reports an error exactly when some message has no destination |
| Engine.Executor.Run | bspgraph/executor.go:83-106 | the superstep loop ends after the last superstep of the specification or the given number of steps, and with valid destinations fails only in the superstep in which the context has expired or a callback fails, before or after computing it |
| Gravitas.ComputeVertex | gravitas/compute.go:31-76 | the code's loops compute the four-phase function, on the messages in the order the queue yields them |
| Gravitas.GravitasInsensitive | gravitas/compute.go:59-67 | the result depends only on the bag of messages |
| Gravitas.GravitasValid | gravitas/compute.go:43-56 | if every receiver is a vertex the job sends nothing to an unknown destination in any superstep |
| Gravitas.Stops | gravitas/calculator.go:85-88 | the run's last superstep is exactly 0 without wallets, 2 without transactions and 3 otherwise: four supersteps at most |
| Gravitas.Result | gravitas/compute.go:31-76 | every vertex ends with its incoming values minus its outgoing values and fees |
| Gravitas.Conservation | gravitas/compute.go:43-67 | the scores of all wallets sum to minus the fees paid |
| Gravitas.Counters | gravitas/compute.go:37-42 | from superstep 1 on the two aggregators hold the number of wallets and of transactions |
| Deployment.RangeIsCluster | depl/monolith/partition/range.go:85-97 | up to 16 parts of the full range meet what the protocol asks of its owner function |
| Deployment.LoadedIsRouted | dbspgraph/master_job_coordinator.go:116-137 | a wallet lies in the extents a worker is given exactly when the master routes its messages to that worker |
| Deployment.DistributedScores | dbspgraph/master_job_coordinator.go:144-219 | a finished distributed run, in whatever interleaving, took at most four supersteps and left each wallet's score on the worker whose part holds the wallet |
| Deployment.DistributedCounters | dbspgraph/executor.go:60-90 | and the master's aggregators hold the number of wallets and of transactions |
| Deployment.DistributedTerminates | dbspgraph/master_job_coordinator.go:144-219 | and every distributed run is bounded and can be continued to that end |
| Partition.NewRange | depl/monolith/partition/range.go:30-64 | refuses for the first reason the code finds, in its order, and otherwise yields the printed multiples of the part size with the maximum last |
| Partition.NewFullRange | depl/monolith/partition/range.go:20-26 | the full range over 40-digit addresses, or the refusal of a count below one or beyond what a slice can hold |
| Partition.FullRangeEnds | depl/monolith/partition/range.go:20-26 | which starts at forty zeros and ends at forty times f |
| Partition.HexLetters | depl/monolith/partition/range.go:59 | numbers are printed in base 16 with small letters, a minus sign in front |
| Partition.PartitionForAddr | depl/monolith/partition/range.go:85-97 | whatever the splits, a returned part contains the address; on increasing splits it is the part the address belongs to, and an error exactly outside the range |
| Partition.IncreasingPartitions | depl/monolith/partition/range.go:72-97 | increasing splits put every string of the range in exactly one part |
| Partition.OwnerIsPart | depl/monolith/partition/range.go:85-97 | the lookup yields part i exactly for the strings inside the extents of part i |
| Partition.FullRangeSound | depl/monolith/partition/range.go:54-61 | for every number of parts an int can hold: the full range is a partition if and only if there are at most 16 parts, and its splits increase exactly then |
| Partition.ManyOverlap | depl/monolith/partition/range.go:58-59 | with more parts the unpadded boundaries fall once, where they gain a digit, and some address lies in two parts |
| Partition.PartNumbers | depl/monolith/partition/range.go:72-81 | which 40-digit addresses a part holds, as an interval of numbers |
| Partition.PartSizes | depl/monolith/partition/range.go:49-52 | every part but the last holds floor(16^40/n) addresses, the last one fewer plus the remainder |
| Partition.Top | depl/monolith/partition/range.go:85-97 | for at most 16 parts, an address is routed to some part if and only if it is not the highest |
| Partition.HighestUnowned | depl/monolith/partition/range.go:85-97 | the highest address is routed to none |
| Partition.PaddedLess | depl/monolith/partition/range.go:85-90 | numbers of one width compare as strings the way they compare as numbers |
| Partition.DigitsPadded | depl/monolith/partition/range.go:59 | printing with %x gives the padded form exactly when no digit is missing |
| Varints.VarintReads | scorestoreapi/proto/api.pb.go:1240-1253 | reading a varint undoes writing it, whatever follows, for every 64-bit value |
| Varints.SovExact | scorestoreapi/proto/api.pb.go:1228-1230 | sov is exactly the number of bytes a varint takes |
| Varints.VarintLoop | scorestoreapi/proto/api.pb.go:1240-1253 | the inlined read loop computes the specified value, length and errors on any bytes |
| WireLoops.SkipLoop | scorestoreapi/proto/api.pb.go:1882-1959 | the skipping loop, with nested groups and wrapped indices, computes the specified length or error on any bytes, and ends |
| Wire.SkipLocal | scorestoreapi/proto/api.pb.go:1882-1959 | skipping depends only on the bytes skipped |
| Wire.RecordReads | scorestoreapi/proto/api.pb.go:1254-1374 | a record read from printed bytes is the field that was printed |
| WireLoops.Unmarshal | scorestoreapi/proto/api.pb.go:1234-1380 | the record loop of any message type, merging into any message, ends on every input with the specified message or error |
| Wire.DecodeEncode | scorestoreapi/proto/api.pb.go:759-846 | Unmarshal undoes Marshal for every valid message of a lawful type, unknown bytes included |
| Wire.DecodedValid | scorestoreapi/proto/api.pb.go:1359-1374 | whatever parses is valid: numbers in range, unknown bytes made of records skipping accepts |
| Wire.Reparse | scorestoreapi/proto/api.pb.go:1234-1380 | so a parsed message, printed, parses to itself |
| Wire.SizeExact | scorestoreapi/proto/api.pb.go:1075-1097 | the sum Size makes is exactly the number of bytes of the fields |
| Varints.Int32Back | txgraphapi/proto/api.pb.go:1414-1431 | a negative int32 survives sign extension to 64 bits and truncation |
| WireLoops.EncodeVarint | scorestoreapi/proto/api.pb.go:1064-1074 | writes the varint so that it ends at the offset and changes no other byte |
| Messages.ScoreLawful | scorestoreapi/proto/api.pb.go:1234-1380 | replaying the fields of a score rebuilds it |
| Messages.ScorerLawful | scorestoreapi/proto/api.pb.go:1466-1548 | the same for a scorer |
| Messages.QueryLawful | scorestoreapi/proto/api.pb.go:1549-1669 | the same for a query, whose type may be negative |
| Messages.BlockLawful | txgraphapi/proto/api.pb.go:1384-1473 | the same for a block, whose number may be negative |
| Messages.WalletLawful | txgraphapi/proto/api.pb.go:1976-2058 | the same for a wallet |
| Messages.RangeLawful | txgraphapi/proto/api.pb.go:2144-2258 | the same for an address range |
| Messages.BatchLawful | scorestoreapi/proto/api.pb.go:1381-1465 | a batch of a lawful type is lawful: score, block and wallet batches |
| Messages.AnswerLawful | scorestoreapi/proto/api.pb.go:1670-1881 | so is one of a count or an item: scorers and search responses; a zero count survives |
| Messages.AllLawful | scorestoreapi/proto/api.pb.go:759-1959 | all eleven message types are lawful, so the round trip, its converse and exact sizes hold for each |
| Printers.PrintScore | scorestoreapi/proto/api.pb.go:774-805 | writes the message backwards so that it ends where the buffer part ends, and changes no other byte |
| Printers.PrintScoreBatch | scorestoreapi/proto/api.pb.go:822-846 | writes the message backwards so that it ends where the buffer part ends, and changes no other byte |
| Printers.PrintScorer | scorestoreapi/proto/api.pb.go:863-880 | writes the message backwards so that it ends where the buffer part ends, and changes no other byte |
| Printers.PrintQuery | scorestoreapi/proto/api.pb.go:897-924 | writes the message backwards so that it ends where the buffer part ends, and changes no other byte |
| Printers.PrintScorersResponse | scorestoreapi/proto/api.pb.go:941-994 | writes the message backwards so that it ends where the buffer part ends, and changes no other byte |
| Printers.PrintSearchResponse | scorestoreapi/proto/api.pb.go:1010-1063 | writes the message backwards so that it ends where the buffer part ends, and changes no other byte |
| Printers.PrintBlock | txgraphapi/proto/api.pb.go:894-919 | writes the message backwards so that it ends where the buffer part ends, and changes no other byte |
| Printers.PrintBlockBatch | txgraphapi/proto/api.pb.go:936-960 | writes the message backwards so that it ends where the buffer part ends, and changes no other byte |
| Printers.PrintWallet | txgraphapi/proto/api.pb.go:1111-1128 | writes the message backwards so that it ends where the buffer part ends, and changes no other byte |
| Printers.PrintWalletBatch | txgraphapi/proto/api.pb.go:1145-1169 | writes the message backwards so that it ends where the buffer part ends, and changes no other byte |
| Printers.PrintRange | txgraphapi/proto/api.pb.go:1186-1210 | writes the message backwards so that it ends where the buffer part ends, and changes no other byte |
| Printers.MarshalScore | scorestoreapi/proto/api.pb.go:759-767 | a buffer of the computed size is filled exactly, and is the encoding |
| Printers.MarshalScoreBatch | scorestoreapi/proto/api.pb.go:807-815 | a buffer of the computed size is filled exactly, and is the encoding |
| Printers.MarshalScorer | scorestoreapi/proto/api.pb.go:848-856 | a buffer of the computed size is filled exactly, and is the encoding |
| Printers.MarshalQuery | scorestoreapi/proto/api.pb.go:882-890 | a buffer of the computed size is filled exactly, and is the encoding |
| Printers.MarshalScorersResponse | scorestoreapi/proto/api.pb.go:926-934 | a buffer of the computed size is filled exactly, and is the encoding |
| Printers.MarshalSearchResponse | scorestoreapi/proto/api.pb.go:995-1003 | a buffer of the computed size is filled exactly, and is the encoding |
| Printers.MarshalBlock | txgraphapi/proto/api.pb.go:879-887 | a buffer of the computed size is filled exactly, and is the encoding |
| Printers.MarshalBlockBatch | txgraphapi/proto/api.pb.go:921-929 | a buffer of the computed size is filled exactly, and is the encoding |
| Printers.MarshalWallet | txgraphapi/proto/api.pb.go:1096-1104 | a buffer of the computed size is filled exactly, and is the encoding |
| Printers.MarshalWalletBatch | txgraphapi/proto/api.pb.go:1130-1138 | a buffer of the computed size is filled exactly, and is the encoding |
| Printers.MarshalRange | txgraphapi/proto/api.pb.go:1171-1179 | a buffer of the computed size is filled exactly, and is the encoding |
| Printers.SizeIsLength | scorestoreapi/proto/api.pb.go:1099-1226 | Size is exactly the number of bytes of every message |
| WireFormat.VarintGroups | scorestoreapi/proto/api.pb.go:1064-1074 | a varint is groups of seven bits, least significant first, that make up the value, all but the last with the top bit and none to spare |
| WireFormat.ReadMeaning | scorestoreapi/proto/api.pb.go:1240-1253 | whatever varint is read, minimal or not, at most ten bytes are, up to the first without the top bit, and the value is the lowest 64 bits of what their groups make up |
| WireFormat.VarintRefuses | scorestoreapi/proto/api.pb.go:1240-1253 | ten bytes with the top bit overflow; fewer, with nothing behind them, are an unexpected end |
| WireFormat.ScoreBytes | scorestoreapi/proto/api.pb.go:774-805 | the bytes of a score: wallet, scorer and value behind tags 0x0a, 0x12 and 0x1a and their lengths, each exactly when it is not empty, then the unknown bytes |
| WireFormat.ScorerBytes | scorestoreapi/proto/api.pb.go:863-880 | the bytes of a scorer, its name behind 0x0a |
| WireFormat.QueryBytes | scorestoreapi/proto/api.pb.go:897-924 | the bytes of a query: type behind 0x08, a negative one as a 64-bit number, expression behind 0x12, offset behind 0x18, each exactly when it is not zero or empty |
| WireFormat.BlockBytes | txgraphapi/proto/api.pb.go:894-919 | the bytes of a block: number behind 0x08, and 0x10 0x01 exactly when it is processed |
| WireFormat.WalletBytes | txgraphapi/proto/api.pb.go:1111-1128 | the bytes of a wallet, its address behind 0x0a |
| WireFormat.RangeBytes | txgraphapi/proto/api.pb.go:1186-1210 | the bytes of a range, its ends behind 0x0a and 0x12 |
| WireFormat.BatchBytes | scorestoreapi/proto/api.pb.go:822-846 | the bytes of a batch: each element, empty or not, behind 0x0a and its length, in order |
| WireFormat.AnswerBytes | scorestoreapi/proto/api.pb.go:941-994 | the bytes of a response: a count, even zero, behind 0x08, or an item behind 0x12 and its length |
| WireFormat.ScoreReads | scorestoreapi/proto/api.pb.go:1275-1358 | reading 0x0a, 0x12 or 0x1a, a length and its bytes sets wallet, scorer or value, whatever came before, and goes on behind them |
| WireFormat.ScorerReads | scorestoreapi/proto/api.pb.go:1466-1548 | reading 0x0a sets the name |
| WireFormat.QueryReads | scorestoreapi/proto/api.pb.go:1549-1669 | reading 0x08 sets the type to the int32 in the lowest 32 bits, 0x18 the offset to all of them |
| WireFormat.QueryExpressionReads | scorestoreapi/proto/api.pb.go:1549-1669 | reading 0x12 sets the expression |
| WireFormat.BlockReads | txgraphapi/proto/api.pb.go:1384-1473 | reading 0x08 sets the number to an int32, 0x10 the flag, true for any number but zero |
| WireFormat.WalletReads | txgraphapi/proto/api.pb.go:1976-2058 | reading 0x0a sets the address |
| WireFormat.RangeReads | txgraphapi/proto/api.pb.go:2144-2258 | reading 0x0a or 0x12 sets an end of the range |
| WireFormat.BatchReads | scorestoreapi/proto/api.pb.go:1381-1465 | reading 0x0a parses an element of its own and adds it at the end; its error is the batch's |
| WireFormat.AnswerReads | scorestoreapi/proto/api.pb.go:1670-1774 | reading 0x08 makes the response a count |
| WireFormat.AnswerItemReads | scorestoreapi/proto/api.pb.go:1670-1774 | reading 0x12 makes it an item parsed on its own, whose error is the response's |
| WireFormat.UnknownNumbers | scorestoreapi/proto/api.pb.go:1254-1374 | which field numbers each message does not know |
| WireFormat.Refuses | scorestoreapi/proto/api.pb.go:1254-1290 | the end of a group, field number zero, and a known field of another wire type are each their error |
| WireFormat.RefusesLength | scorestoreapi/proto/api.pb.go:1292-1310 | and so are a length whose end no int can hold, and one beyond the bytes there are |
| WireFormat.KeepsUnknown | scorestoreapi/proto/api.pb.go:1359-1374 | an unknown record is kept, tag included, as long as skipping says; cut short, it is an unexpected end |
| WireFormat.SkipTakes | scorestoreapi/proto/api.pb.go:1882-1959 | skipping takes a varint, eight bytes, a length and as many bytes, or four bytes, by wire type; 4, 6 and 7 are errors |
| WireFormat.SkipGroupEdges | scorestoreapi/proto/api.pb.go:1882-1959 | the start of a group goes one level deeper, its end comes back |
| WireFormat.Deeper | scorestoreapi/proto/api.pb.go:1882-1959 | and within a group a record is taken as outside it, groups in it included |
| CacheSteps.EventKeeps | txgraph/store/cdb/cdb.go:137-363 | every step of every writer and of every inserter left over from a failed flush keeps the invariant of its kind of run: mutual exclusion, duplicate-free lists, flush order, presence of what was accepted, and what a leftover reads |
| CacheTheorems.DatabaseSafe | txgraph/store/cdb/cdb.go:170-238 | each block marked processed in the database has all its transactions there, in every run in which no inserter of a failed block flush reads an array that was rewritten since and no flush hides an error |
| CacheFailures.BlocksStoredExactly | txgraph/store/cdb/cdb.go:240-273 | and in all runs with given faults if and only if the faults are none of these |
| CacheFailures.LateBlock | txgraph/store/cdb/cdb.go:242-250 | the failing run, for all cache sizes above one batch: the inserter of the first slice of a failed flush stalls and later stores a processed block, cached in the array it still reads, whose transaction is only cached |
| CacheTheorems.WalletsStored | txgraph/store/cdb/cdb.go:404-412 | each transaction in the database has both its wallets there, in every run, whatever goes wrong |
| CacheTheorems.ForeignKeysHold | txgraph/store/cdb/cdb.go:209-219 | no statement of a flush or of a leftover breaks a foreign key, if no inserter of a failed transaction flush reads that late and no flush hides an error |
| CacheFailures.StatementsLegalExactly | txgraph/store/cdb/cdb.go:240-273 | and in all runs with given faults if and only if the faults are none of these |
| CacheFailures.LateTx | txgraph/store/cdb/cdb.go:252-260 | the failing run: the stalled inserter issues a statement with a transaction whose wallet is only cached |
| CacheTheorems.FlushesLegal | txgraph/store/cdb/cdb.go:200-220 | the flushes themselves break none, whatever leftovers do, unless an error was hidden |
| CacheTheorems.NothingLost | txgraph/store/cdb/cdb.go:170-273 | a key accepted with nil is in the table or its cache list ever after, whatever leftovers do, if no flush hides an error |
| CacheFailures.NeverLosingExactly | txgraph/store/cdb/cdb.go:240-273 | and in all runs with given faults if and only if no flush hides an error |
| CacheCallers.StoppingIsPunctual | txgraph/store/cdb/cdb.go:137-168 | a run in which no call enters the store after one has returned an error is one in which no leftover reads an array that was rewritten |
| CacheCallers.StoppingIsSafe | txgraph/store/cdb/cdb.go:137-168 | in such a run, if no flush hides an error, every processed block has its transactions stored and no statement breaks a foreign key |
| CacheCallers.SingleCallerStops | txgraph/store/cdb/cdb.go:137-168 | a single caller that makes no call after an error has such runs only |
| CacheTheorems.LeftInBounds | txgraph/store/cdb/cdb.go:296-311 | a leftover always finds its slice within the array it was cut from, however the list was emptied, overwritten or moved |
| CacheTheorems.NeverDeadlocks | txgraph/store/cdb/cdb.go:137-216 | under the block, transaction, wallet lock order some call under way can always go on, without a failure unless an error was hidden |
| BatchUpsert.Cut | txgraph/store/cdb/cdb.go:319-349 | the batching loop, whose batch size shrinks, ends with consecutive slices that cover the list, of the batch size each but the last |
| BatchUpsert.EachRowOnce | txgraph/store/cdb/cdb.go:319-349 | every row lies in exactly one slice |
| BatchUpsert.NilMeaning | txgraph/store/cdb/cdb.go:275-363 | on a nil return every batch was written if and only if none failed, which is if and only if no error is left unread |
| BatchUpsert.NilCanHideError | txgraph/store/cdb/cdb.go:354-362 | and with two workers or more, or a single batch, the call can return nil although the first batch failed, all others having been written |
| BatchUpsert.ErrorMeaning | txgraph/store/cdb/cdb.go:287-313 | an error return means a batch failed |
| BatchUpsert.LeftBehind | txgraph/store/cdb/cdb.go:287-313 | after an error return the workers still go on with batches neither written nor failed, each with one of them |
| BatchUpsert.FirstCanBeLeft | txgraph/store/cdb/cdb.go:319-349 | the second batch can fail and the call return its error while a worker still holds the first |
| BatchUpsert.NobodyLeft | txgraph/store/cdb/cdb.go:354-363 | after a nil return nobody goes on |
| BatchUpsert.NeverHangs | txgraph/store/cdb/cdb.go:275-363 | until the call returns, the main goroutine or a worker can go on |
| BatchUpsert.EventLess | txgraph/store/cdb/cdb.go:275-363 | every step of the main goroutine or a worker uses up a part of the work left |
| BatchUpsert.RunsAreBounded | txgraph/store/cdb/cdb.go:275-363 | m batches and n workers take at most 3(m + n) + 2 steps, the workers left behind included |
| BatchUpsert.AlwaysReturns | txgraph/store/cdb/cdb.go:275-363 | any run continues to one in which the call has returned |
| Cdb.CDBGraph.UpsertWallets | txgraph/store/cdb/cdb.go:221-234 | the exact new list, and the table up to the choice of slices executed on an error; after nil the list is shorter than its limit; nothing stored is lost, and nothing cached unless an error was hidden; an error means that a statement fails, and a store on which none can fails never and stays so |
| Cdb.CDBGraph.InsertTxs | txgraph/store/cdb/cdb.go:200-220 | the same, wallets stored before transactions, whose wallets must be stored or cached for no statement to fail |
| Cdb.CDBGraph.UpsertBlocks | txgraph/store/cdb/cdb.go:172-199 | the same, wallets, then transactions, then blocks |
| Cdb.CDBGraph.Fill | txgraph/store/cdb/cdb.go:173-180 | appends the items whose key is new, and the map stays exactly the key set of the duplicate-free list |
| Cdb.AddAllInOrder | txgraph/store/cdb/cdb.go:173-180 | a row goes to the end unless a row with its key is there, one row after the other |
| Cdb.CDBGraph.UpsertWalletCache | txgraph/store/cdb/cdb.go:261-269 | the list and the map are emptied exactly on a nil return; an error or a hidden one means that a statement of the flush fails |
| Cdb.CDBGraph.UpsertBlockCache | txgraph/store/cdb/cdb.go:243-251 | the same for blocks |
| Cdb.CDBGraph.BatchUpsert | txgraph/store/cdb/cdb.go:275-363 | the slices in any order: all of them stored, or some statement fails and any of the slices not refused are stored, each at most once, whether the error is returned or hidden |
| Cdb.CDBGraph.UpsertTxCache | txgraph/store/cdb/cdb.go:252-260 | the list and the map are emptied exactly on a nil return, by when every row was stored unless an error was hidden; an error or a hidden one means that a statement of the flush fails |
| Scanner.Parse | scanner/tx_parser.go:29-51 | one row per transaction, in order, with its hash, the zero address as sender and its receiver, or the zero address; and exactly the addresses the rows name |
| Scanner.Process | scanner/tx_parser.go:26-70 | after nil all wallets and transactions are in the store or its caches, and nothing is lost, unless an error was hidden; because wallets go first, with addresses of 40 characters and no statement refused it returns nil |
| Scanner.Consume | scanner/scanner.go:118-128 | unless an error was hidden, the row the store holds, or will hold once the cache is flushed, is the processed block, exactly if the cache did not hold the block as unprocessed |
| Scanner.ParserDisciplined | scanner/tx_parser.go:52-67 | once the parser's wallets are accepted its transactions meet what the concurrent cache asks of its callers |
| PipelineProofs.StepOk | pipeline/stage.go:22-244 | every step keeps each stage's shape: a closed stage has finished, and tokens add up |
| PipelineProofs.StepConserves | pipeline/stage.go:22-244 | every step keeps the law that each payload and clone is in flight, marked or lost, exactly once |
| PipelineTheorems.NoSendOnClosed | pipeline/pipeline.go:77-98 | nobody who offers a payload on a channel finds it closed |
| PipelineTheorems.InputsStayClosed | pipeline/stage.go:226-243 | nor does a broadcast hand over on an inner channel it has closed, and these stay closed |
| PipelineTheorems.NoErrorOnClosed | pipeline/pipeline.go:85-96 | once source, stages and sink have returned, which closes the error channel, nobody raises an error any more |
| PipelineTheorems.TokensConserved | pipeline/stage.go:111-168 | tokens in the pool, with workers and taken back always add up to the maximum, so at most that many workers run, and none when Run has returned |
| PipelineTheorems.WorkersFixed | pipeline/stage.go:63-90 | a fixed pool and a broadcast have as many workers as they were given |
| PipelineTheorems.NilIffNoError | pipeline/pipeline.go:98-112 | Process returns nil exactly when no source, stage or sink raised an error, although a full error channel drops errors |
| PipelineTheorems.NilIffNothingFailed | pipeline/pipeline.go:98-112 | that is, exactly if no call of a processor, the sink or the source has failed |
| PipelineTheorems.ErrorsCollected | pipeline/pipeline.go:159-166 | the error channel never overflows, and Process collects every error unless more are raised than there are stages, source and sink |
| PipelineTheorems.MarkedOnce | pipeline/stage.go:22-244 | without an error and a cancellation every source payload and every broadcast clone is marked as processed exactly once |
| PipelineTheorems.NeverMarkedTwice | pipeline/stage.go:22-244 | in any run none is marked twice |
| PipelineTheorems.NeverStuck | pipeline/pipeline.go:52-112 | until Process returns some goroutine can go on, after whatever errors and cancellations |
| PipelineProgress.EventLess | pipeline/stage.go:22-244 | every step but an outside cancellation uses up a part of the work left |
| PipelineProgress.RunsAreBounded | pipeline/pipeline.go:52-112 | a run has no more steps than that, cancellations aside |
| PipelineProgress.AlwaysReturns | pipeline/pipeline.go:52-112 | any run, whatever has happened in it, continues to one in which Process returns |
| PipelineOrder.SinkSeesPrefix | pipeline/stage.go:22-55 | with FIFO stages the sink has at all times seen a prefix of the source mapped and filtered by the stages in order, errors and cancellations included |
| PipelineOrder.SinkSeesAll | pipeline/pipeline.go:138-157 | and all of it when it leaves without an error or a cancellation |
| PipelineValues.StepKeeps | pipeline/stage.go:22-244 | whatever a payload is worth by what its stage's processors make of it, a step adds nothing to the worth of all that is seen and under way, and takes nothing unless it records a loss |
| PipelineValues.SinkSeesOutcomes | pipeline/stage.go:22-244 | for any mix of pools, dynamic pools and broadcasts, errors and cancellations included: the sink has seen each value at most as often as the processors make it of the source |
| PipelineValues.SinkSeesAllOutcomes | pipeline/pipeline.go:52-112 | and exactly as often once Process returns without an error or a cancellation |
| PipelineValues.OutcomeHasPath | pipeline/stage.go:186-243 | what is made of a value is the work of one processor of each stage, in order |
| PipelineValues.PathHasOutcome | pipeline/stage.go:186-243 | and all such work, for every choice of a processor at each broadcast |
| PipelineValues.SeenHasPath | pipeline/stage.go:111-168 | so every value seen is one processor of each stage applied in order to a value of the source |
| PipelineValues.PathIsSeen | pipeline/stage.go:186-243 | and without an error or a cancellation each processor of each broadcast gets every payload: whatever a choice of processors makes of a value of the source is seen |
| MemoryStore.InMemoryGraph.InsertTxs | txgraph/store/memory/memory.go:135-161 | stores the transactions up to the first with an unknown wallet, the first of each hash winning, and keeps the per-wallet index exact |
| MemoryStore.InMemoryGraph.UpsertBlocks | txgraph/store/memory/memory.go:105-132 | the table after all upserts in order |
| MemoryStore.UpsertAllMeaning | txgraph/store/memory/memory.go:109-121 | a block is processed exactly if it was or some upsert says so: the flag never reverts |
| MemoryStore.AddTxsMeaning | txgraph/store/memory/memory.go:147-155 | a known hash changes nothing; of several new transactions with one hash the first is stored |
| MemoryStore.InMemoryGraph.UpsertWallets | txgraph/store/memory/memory.go:164-184 | stores the wallets up to the first malformed address |
| MemoryStore.InMemoryGraph.WalletTxs | txgraph/store/memory/memory.go:202-212 | lists without duplicates exactly the stored transactions sent from the wallet |
| MemoryStore.InMemoryGraph.Wallets | txgraph/store/memory/memory.go:216-227 | lists without duplicates exactly the wallets of the range |
| MemoryStore.InMemoryGraph.RefreshBlocks | txgraph/store/memory/memory.go:50-72 | every block from 1 to the largest exists afterwards, the new ones unprocessed, the old ones unchanged |
| MemoryStore.InMemoryGraph.Blocks | txgraph/store/memory/memory.go:75-101 | returns exactly the unprocessed blocks after filling the gaps |
| Accumulator.NothingLost | bspgraph/aggregator/accumulator.go:113-127 | in any interleaving of atomic steps the returned deltas plus current minus previous equal the amount aggregated plus the initial gap, modulo 2^64, even when a stale value is installed |
| Accumulator.CaughtUp | bspgraph/aggregator/accumulator.go:113-127 | so once the sums agree again, what was returned is exactly what was aggregated, when both fit an int64 |
| Accumulator.WrapExact | bspgraph/aggregator/accumulator.go:113-127 | 64-bit arithmetic is exact in range and off by multiples of 2^64 outside |
| Accumulator.IntAccumulator.Delta | bspgraph/aggregator/accumulator.go:119-127 | undisturbed, returns the change since the last Delta or Set |
| Accumulator.IntAccumulator.Set | bspgraph/aggregator/accumulator.go:100-110 | the retry loop ends with both sums at the value |

## Left out

- Protocol: compute functions that fail, serializer failures (which `Callbacks` has) and aggregator names unknown to a
  node, which abort the job; the user's own PreStep and PostStep callbacks; compute functions that read an aggregator
  within a superstep.
- Protocol: links are one bounded FIFO sequence per direction; the gRPC streams below them are not modelled.
- Protocol: the superstep, worker and round labels in messages and in the master's lists are read by no transition.
- Commit: the superstep loop is reduced to traffic without consequences, and the user's CompleteJob to success or
  failure.
- Engine.Graph.Step: a vertex is a value in a map and not an object of its own; the goroutines of a superstep take
  whole vertices one after the other, in any order; the relayer is part of Protocol.
- Engine and Protocol: aggregates are unbounded integers; the code's wrap around at 64 bits, which `Accumulator` has.
- Gravitas.ComputeVertex: amounts are exact integers, not 53-bit floating-point numbers.
- Gravitas.Result: exact amounts, as in Gravitas.ComputeVertex.
- Gravitas.Conservation: exact amounts, as in Gravitas.ComputeVertex.
- Deployment.DistributedScores: exact amounts, as in Gravitas.ComputeVertex.
- Partition.NewRange: minimum addresses other than zero are accepted, as by the code, but it does not add the minimum
  to the boundaries, and no partition property is claimed for them.
- Printers.PrintScoreBatch: as in the other batches and responses, nil elements of a batch and a response whose item
  is nil, on which the generated code panics or prints nothing; `MarshalTo` for whole messages; the Tx message and the
  dbspgraph messages, which use types whose code is not part of this model.
- CacheProtocol: any number of a flush's statements may be left over, where the code has six inserters; the growth of
  an array is any function of its capacity; writing without the cache; reads from the database.
- Cdb.CDBGraph.BatchUpsert: and with it UpsertWallets, InsertTxs and UpsertBlocks, the statements a failed call leaves
  to run after it has returned are in `CacheProtocol`, not in the class; rows are values, where the code copies them
  behind pointers.
- Scanner.Parse: a transaction's value, fee, status and block are not modelled, only its hash and its addresses.
- Pipeline: processors are functions of the payload's value; one Run at a time uses a dynamic pool's tokens.
- MemoryStore: iterators, and the lock, each call being one step.
- Accumulator.IntAccumulator.Delta: one caller at a time; concurrent ones are in `Accumulator.NothingLost`.
- Accumulator.IntAccumulator.Set: one caller at a time; concurrent ones, and the floating-point accumulator, are not
  modelled.
- The worker pool, whose ReserveWorkers waits for health checkers while it holds the mutex they need.
- gRPC services, HTTP, SQL text and drivers, the Ethereum client, configuration, metrics and deployment.
