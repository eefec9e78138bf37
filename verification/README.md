# Verified model of SGLang's benchmark and kernel algorithms

This Dafny project models the parts of SGLang's benchmarks and kernels that hold real algorithms, and
proves what each of them is for. `dafny verify dfyconfig.toml` checks everything.

- **Block alignment for mixture-of-experts** (`MoeAlignSpec`, `MoeAlign`, `DeviceMemory`): four kernel
  launches that turn routed expert ids into a block-padded, stable counting sort. Programs of stages 1, 2
  and 4 are state machines that make one load or store of the shared buffers per step; the launch picks
  any unfinished program each time. Stage 3 is one program. Every access is recorded, so that freedom
  from races within a launch is part of the contracts.
- **Multi-turn workload generator** (`MultiTurn`, `MultiTurnLog`): sender thread, response handler thread and requests in
  flight as one transition system, and a class whose methods are its steps. Replies of the server and the
  choice from the ready queue are parameters of the events. What goes out and comes back is also read off the
  events as a log, from which the transcripts follow.
- **Serving benchmark** (`ServingQueue`, `ServingLog`): conversations that go round a bounded queue, turn by turn, under
  an optional semaphore; replies, failures and the queue time-out are events, and here too a log of them
  determines prompt lengths, messages and the order of the queue.
- **GPU reductions** (`FloatAtomicMax`, `WarpReduce`): float maximum from integer atomics, on the binary32
  patterns of section 3.4 of IEEE 754-2008, and the butterfly maximum of a warp and of a block.
- **Redirect chains** (`Redirects`, `LineQuery`, `LineRetrieval`): pointer chasing with ring detection, what
  a reader of a truncated list of lines can find out, and both put together.
- **Lightning attention decode** (`LightningSpec`, `LightningKernel`): the naive recurrence, its closed and
  attention forms, and the padded masked kernel that computes one step of it. `ratio` stands for
  `exp(-slope)`, one real number per head.
- **Strings** (`Splitting`, `FracBraces`, `BoxedAnswers`, `StreamMerge`): normalising `\frac` arguments,
  extracting `\boxed` answers, and merging streamed chunks.
- `Arithmetic`, `Sums`, `Rosters` and `Wrappers` hold facts about products, sums over sequences and queues,
  and the type of optional values.

Three results say where the code does less than its name promises, each with the exact condition:
`atomicMaxFloat` loses an argument of negative zero against a negative cell (`FloatAtomicMax.MaxExactly`);
`blockReduceMax` fills the idle lanes of its second round with zero, so that for fewer than 32 warps it is
right only when some value is not negative (`WarpReduce.BlockMaxExactly`); and `extract_boxed_answers`
returns the answer with its closing brace when a per cent sign follows (`BoxedAnswers.RoundTrip`). A failing
input stands beside each: `FloatAtomicMax.NegativeZeroIgnored`, `WarpReduce.NegativeBlockLost` and
`BoxedAnswers.PercentKeepsBrace`.

## Model

| member | source | states |
|---|---|---|
| MoeAlign.CeilDivCountsBlocks | sgl-kernel/benchmark/bench_moe_align_block_size.py:13-14 | `ceil_div` is the number of blocks that hold the tokens |
| MoeAlign.Step1 | sgl-kernel/benchmark/bench_moe_align_block_size.py:25-33 | one load or store of a stage 1 program: it touches its own row of counts only and keeps its histogram right |
| MoeAlign.Stage1 | sgl-kernel/benchmark/bench_moe_align_block_size.py:17-33 | under every interleaving, row p + 1 ends as the histogram of chunk p; no two programs race |
| MoeAlign.Step2 | sgl-kernel/benchmark/bench_moe_align_block_size.py:41-46 | one load or store of a stage 2 program, in its own column only |
| MoeAlign.Stage2 | sgl-kernel/benchmark/bench_moe_align_block_size.py:36-46 | under every interleaving, columns end as prefix sums; no two programs race |
| MoeAlign.SumsCountPrefixes | sgl-kernel/benchmark/bench_moe_align_block_size.py:25-46 | after stage 2, row r counts each expert's tokens in the first r chunks |
| MoeAlign.Stage3 | sgl-kernel/benchmark/bench_moe_align_block_size.py:49-63 | every entry of `cumsum` is the padded start of its expert's segment, the total is the last one, and the counts stay as they were |
| MoeAlign.Step4 | sgl-kernel/benchmark/bench_moe_align_block_size.py:78-93 | one load or store of a stage 4 program keeps the sort under way: cells written so far are right, the others untouched |
| MoeAlign.PlacerIsOwner | sgl-kernel/benchmark/bench_moe_align_block_size.py:85-93 | a cell of the sorted buffer belongs to the one program whose chunk holds its token, although ranks come from counters that programs increment in place |
| MoeAlign.LabellersAt | sgl-kernel/benchmark/bench_moe_align_block_size.py:79-83 | a block label is written by the program of the expert the block belongs to, and by no other |
| MoeAlign.Stage4 | sgl-kernel/benchmark/bench_moe_align_block_size.py:66-93 | under every interleaving the tokens end scattered to their positions, the blocks labelled and each row of counts at the end of its program's chunk; no two programs race |
| MoeAlign.MoeAlignBlockSize | sgl-kernel/benchmark/bench_moe_align_block_size.py:96-140 | from any ids in range and buffers of the allocated sizes, the four launches give the padded stable sort, its block labels and its total |
| MoeAlignSpec.TotalFits | sgl-kernel/benchmark/bench_moe_align_block_size.py:151-159 | the total is at most `numel + num_experts * (block_size - 1)`, and its blocks fit the floor-divided label buffer |
| MoeAlignSpec.OffsetAligned | sgl-kernel/benchmark/bench_moe_align_block_size.py:57-63 | every segment starts at a multiple of the block size |
| MoeAlignSpec.SegmentHolds | sgl-kernel/benchmark/bench_moe_align_block_size.py:59-62 | a segment holds all tokens of its expert and less than a block of padding |
| MoeAlignSpec.PositionOrder | sgl-kernel/benchmark/bench_moe_align_block_size.py:88-93 | the sort is stable: positions are ordered by expert, then by token index, in both directions |
| MoeAlignSpec.PositionInjective | sgl-kernel/benchmark/bench_moe_align_block_size.py:91-92 | `rank_post_pad` is injective across all programs |
| MoeAlignSpec.PositionBelowTotal | sgl-kernel/benchmark/bench_moe_align_block_size.py:91-92 | every scatter store lies below the total |
| MoeAlignSpec.SegmentHoldsRanks | sgl-kernel/benchmark/bench_moe_align_block_size.py:88-93 | cell `cumsum[e] + r` holds the r-th smallest token index routed to e |
| MoeAlignSpec.EachTokenOnce | sgl-kernel/benchmark/bench_moe_align_block_size.py:88-93 | each token index occurs in exactly one cell, and every other cell still holds `numel` |
| MoeAlignSpec.PaddingUntouched | sgl-kernel/benchmark/bench_moe_align_block_size.py:152-155 | the rest of every segment and everything from the total on still hold the fill value |
| MoeAlignSpec.BlockServesOneExpert | sgl-kernel/benchmark/bench_moe_align_block_size.py:82-92 | each block below the total has a label, and it is the expert of every token in the block |
| MoeAlignSpec.OutcomeUnique | sgl-kernel/benchmark/bench_moe_align_block_size.py:96-140 | there is one outcome: any two schedules leave equal buffers |
| DeviceMemory.OwnedIsRaceFree | sgl-kernel/benchmark/bench_moe_align_block_size.py:17-93 | programs that keep to cells they own cannot race |
| DeviceMemory.FlatCell | sgl-kernel/benchmark/bench_moe_align_block_size.py:27-33 | a store at `row * width + column` changes that matrix entry and no other |
| MultiTurn.WorkloadGenerator.constructor | benchmark/hicache/bench_multiturn.py:221-257 | the generator starts in the initial state of the transition system, which satisfies the invariant |
| MultiTurn.WorkloadGenerator.SenderCheck | benchmark/hicache/bench_multiturn.py:271-280 | the window test, as the step `Check` |
| MultiTurn.WorkloadGenerator.SenderPop | benchmark/hicache/bench_multiturn.py:206-217 | the step `Pop`: any ready request leaves the queue, or none is there |
| MultiTurn.WorkloadGenerator.SenderSend | benchmark/hicache/bench_multiturn.py:274-276 | the step `Send`: the request is in flight and counted |
| MultiTurn.WorkloadGenerator.SenderTest | benchmark/hicache/bench_multiturn.py:281-294 | the step `Test`: the sender leaves when all requests are answered, else sleeps |
| MultiTurn.WorkloadGenerator.SenderWake | benchmark/hicache/bench_multiturn.py:278-294 | the step `Wake` |
| MultiTurn.WorkloadGenerator.HandleRequest | benchmark/hicache/bench_multiturn.py:259-265 | the step `Answer`: progress and response put together, while the sender sleeps |
| MultiTurn.WorkloadGenerator.HandlerTake | benchmark/hicache/bench_multiturn.py:305-311 | the step `Take`: the response extends its client's history and round |
| MultiTurn.WorkloadGenerator.HandlerCount | benchmark/hicache/bench_multiturn.py:314-316 | the step `Count`, and the choice whether the client goes on |
| MultiTurn.WorkloadGenerator.HandlerRequeue | benchmark/hicache/bench_multiturn.py:316-328 | the step `Requeue`: a fresh candidate input extends the history and the client is ready again |
| MultiTurn.InvInit | benchmark/hicache/bench_multiturn.py:231-257 | the initial state satisfies the invariant |
| MultiTurn.InvStep | benchmark/hicache/bench_multiturn.py:259-331 | every step of either thread keeps it |
| MultiTurn.RunLength | benchmark/hicache/bench_multiturn.py:259-331 | every run makes at most 3 times clients times rounds steps that send, answer or handle |
| MultiTurn.NeverStuck | benchmark/hicache/bench_multiturn.py:269-331 | until all clients are done, at most seven steps, each possible at its turn, lead to one that sends, answers or handles |
| MultiTurn.RunsToCompletion | benchmark/hicache/bench_multiturn.py:269-331 | from every reachable state a schedule, possible step by step, leads to the sender's exit with every client done |
| MultiTurn.OnePlace | benchmark/hicache/bench_multiturn.py:259-328 | each client is in exactly one of ready, picked, in flight, answered, handled and done, and the queues say so |
| MultiTurn.NoDuplicates | benchmark/hicache/bench_multiturn.py:259-328 | no client is twice in a queue |
| MultiTurn.WindowHolds | benchmark/hicache/bench_multiturn.py:271-276 | over every run, requests sent and not completed stay within `max_parallel`, whatever the handler thread does meanwhile, and `candidate_inputs.pop()` never fails |
| MultiTurn.TotalsBounded | benchmark/hicache/bench_multiturn.py:231-232 | completed, answered and sent requests are in this order and at most one per candidate |
| MultiTurn.PayloadExtends | benchmark/hicache/bench_multiturn.py:310-328 | in the client's records, the payload of round k + 1 is that of round k, the answer to it and one candidate input |
| MultiTurnLog.RunAgrees | benchmark/hicache/bench_multiturn.py:259-328 | over every run, a client's answers, payloads and candidates are those of the events that took place, candidates are handed out from the end of the list, and responses are taken up in the order in which they came back |
| MultiTurnLog.PayloadsFromLog | benchmark/hicache/bench_multiturn.py:244-328 | over every run, the request that goes out for round k + 1 is the one of round k, the text that the server answered to it and the candidate handed out; the first is the client's own candidate |
| MultiTurnLog.RoomIsUsed | benchmark/hicache/bench_multiturn.py:271-276 | the sender can start a ready request exactly when there is room in the window, and what goes out is the request as it waited |
| MultiTurn.CandidatesNotShared | benchmark/hicache/bench_multiturn.py:244-253 | no candidate input is used twice, by one client or by two |
| MultiTurn.CandidateLeft | benchmark/hicache/bench_multiturn.py:316-319 | a client with rounds left always finds a candidate input |
| MultiTurn.SenderExit | benchmark/hicache/bench_multiturn.py:281-282 | when the sender leaves, every client has been sent and answered exactly `num_rounds` times, and nothing is ready or in flight |
| MultiTurn.AllCandidatesUsed | benchmark/hicache/bench_multiturn.py:253-319 | when all clients are done, every candidate input has been used |
| ServingQueue.RequestFuncInput.constructor | benchmark/hicache/bench_serving.py:42-52 | a conversation starts with no messages and no finished prompts |
| ServingQueue.RequestFuncInput.BeginTurn | benchmark/hicache/bench_serving.py:97-112 | `prompt_len` sums the earlier turns and the own input, and the user message is appended |
| ServingQueue.RequestFuncInput.FinishTurn | benchmark/hicache/bench_serving.py:170-188 | the output length is overwritten, the answer appended, and the conversation goes on exactly if it has turns left |
| ServingQueue.LengthsAreContext | benchmark/hicache/bench_serving.py:100-104 | that sum is the length of earlier inputs and actual outputs plus the own input |
| ServingQueue.FillQueue | benchmark/hicache/bench_serving.py:458-466 | one object per conversation, all different and fresh, queued in order |
| ServingQueue.Benchmark.constructor | benchmark/hicache/bench_serving.py:394-466 | the benchmark starts with every conversation queued, in the initial state of the transition system, which satisfies the invariant |
| ServingQueue.Benchmark.GetRequest | benchmark/hicache/bench_serving.py:266-275 | the main loop's step: the conversation in front becomes a task |
| ServingQueue.Benchmark.StartTurn | benchmark/hicache/bench_serving.py:396-410 | a task's step past the semaphore: its turn is sent |
| ServingQueue.Benchmark.EndTurn | benchmark/hicache/bench_serving.py:164-188 | a task's last step when its turn is answered: the conversation is requeued or over, and the semaphore released |
| ServingQueue.Benchmark.FailTurn | benchmark/hicache/bench_serving.py:189-195 | a task's last step when its turn is rejected or raises: the conversation is over and the semaphore released |
| ServingQueue.Benchmark.StopWaiting | benchmark/hicache/bench_serving.py:267-273 | the main loop's time-out on an empty queue |
| ServingQueue.InvInit | benchmark/hicache/bench_serving.py:419-466 | filling the queue establishes the invariant |
| ServingQueue.InvStep | benchmark/hicache/bench_serving.py:261-281 | every step of the main loop and of its tasks keeps it |
| ServingQueue.QueueHasRoom | benchmark/hicache/bench_serving.py:184-188 | queued and unfinished conversations never exceed `maxsize` |
| ServingQueue.RoomToRequeue | benchmark/hicache/bench_serving.py:188 | a task that requeues its conversation finds room, so that `queue.put` does not block |
| ServingQueue.Bounded | benchmark/hicache/bench_serving.py:394-491 | over every run: the bound, no two live tasks for one conversation, none waiting while it has one, the semaphore not overdrawn, no task blocked on the queue |
| ServingQueue.QueuedConversation | benchmark/hicache/bench_serving.py:97-188 | a queued conversation alternates user and assistant messages, two for each finished prompt; turns were issued in order, each with the length of its context |
| ServingLog.RunAgrees | benchmark/hicache/bench_serving.py:97-188 | over every run, the records of a conversation are what the events show of it |
| ServingLog.SendsFromLog | benchmark/hicache/bench_serving.py:97-114 | over every run, turn k goes out with all messages before it, by turns, and with the length of the earlier inputs, of the answers that the server gave and of its own input |
| ServingLog.QueuedFromLog | benchmark/hicache/bench_serving.py:170-188 | over every run, a queued conversation holds the messages, the finished turns and the overwritten output lengths of the answers that the server gave |
| ServingLog.QueueFromLog | benchmark/hicache/bench_serving.py:183-188 | over every run, the queue is first in, first out: what came to it is what left it and what still waits, in order |
| ServingQueue.SemaphoreExactly | benchmark/hicache/bench_serving.py:394-404 | a waiting task gets past the semaphore exactly when fewer turns are running than it admits |
| ServingQueue.OutputsAtRest | benchmark/hicache/bench_serving.py:189-195 | once everything is at rest, however the main loop came to stop, the turns dequeued are all turns but those after a failed one, if and only if no conversation is left in the queue |
| ServingQueue.DroppedTurnForcesTimeOut | benchmark/hicache/bench_serving.py:266-273 | after a failure that dropped turns the count of requests is never reached, so that only the time-out ends the main loop |
| ServingQueue.TimeOutExactly | benchmark/hicache/bench_serving.py:266-273 | at the end of a run the time-out has struck if and only if a failure dropped a turn or a conversation came back too late |
| ServingQueue.AllTurnsPlayed | benchmark/hicache/bench_serving.py:412-491 | at rest, exactly the sum of the conversation lengths is dequeued if and only if nothing was dropped or left in the queue, and every turn is answered if and only if, besides, none failed |
| ServingQueue.RunLength | benchmark/hicache/bench_serving.py:396-491 | every run takes at most three steps per turn and one time-out |
| ServingQueue.RunsToEnd | benchmark/hicache/bench_serving.py:478-491 | from every reachable state a schedule, possible step by step, leads to the end of the run; if nothing has failed or timed out, to one with every turn answered |
| ServingQueue.SomeTaskCanMove | benchmark/hicache/bench_serving.py:394-410 | as long as there are tasks, one can go on: no deadlock on the semaphore |
| ServingQueue.MainLoopGoesOn | benchmark/hicache/bench_serving.py:412-480 | the count of requests never ends the main loop while a conversation is queued |
| FloatAtomicMax.MagnitudesOrdered | sgl-kernel/include/utils.h:299 | non-negative patterns are ordered like their numbers, across subnormals, exponents and infinity |
| FloatAtomicMax.RankOrdersNumbers | sgl-kernel/include/utils.h:299-300 | signed order on non-negative patterns and reversed unsigned order on negative ones is the order of the numbers, but for the two zeros |
| FloatAtomicMax.FloatCell.AtomicMaxFloat | sgl-kernel/include/utils.h:297-302 | the cell takes the value of the integer atomic, and its former content is returned |
| FloatAtomicMax.AfterMaxByRank | sgl-kernel/include/utils.h:299-300 | the mixed signed and unsigned comparisons keep the pattern of higher rank, whatever the cell holds |
| FloatAtomicMax.MaxExactly | sgl-kernel/include/utils.h:297-302 | one call yields the float maximum if and only if the argument is not negative zero or the cell is not negative |
| FloatAtomicMax.NegativeZeroIgnored | sgl-kernel/include/utils.h:299 | the failing input: -1.0 in the cell and -0.0 as argument |
| FloatAtomicMax.MaximumOfAll | sgl-kernel/include/utils.h:297-302 | any sequence of calls yields the maximum of the cell and all arguments, if and only if no negative zero was needed |
| FloatAtomicMax.OrderIrrelevant | sgl-kernel/include/utils.h:297-302 | the order and number of repetitions of concurrent calls do not matter |
| FloatAtomicMax.MaximumIsLargest | sgl-kernel/include/utils.h:297-302 | the maximum meant here is the cell's value or an argument's and below none of them |
| WarpReduce.PartnersCover | sgl-kernel/include/utils.h:305-309 | lanes that agree in j low bits are those that agree in j + 1 with a lane or with its exclusive-or partner |
| WarpReduce.ButterflyHolds | sgl-kernel/include/utils.h:304-311 | for 2^k lanes, after the offsets from 2^(k-1) down to 2^j each lane has the maximum over the lanes that agree with it in the low j bits |
| WarpReduce.WarpReduceMax | sgl-kernel/include/utils.h:304-311 | all 32 lanes end with the maximum of the warp |
| WarpReduce.BlockReduceMax | sgl-kernel/include/utils.h:313-327 | all threads of warp 0 return the same value, the larger of the block maximum and the filler of idle lanes; the others return what the code leaves them |
| WarpReduce.BlockMaxExactly | sgl-kernel/include/utils.h:323 | that is the block maximum if and only if the block has 32 warps or some value is not negative |
| WarpReduce.NegativeBlockLost | sgl-kernel/include/utils.h:323 | the failing input: a block of 32 values of -1.0 comes out as zero |
| Redirects.AssignRedirects | benchmark/line_retrieval/gen_data.py:43-54 | exactly the chosen lines are rewritten to refer to their targets, and every target is a line |
| Redirects.Chase | benchmark/line_retrieval/gen_data.py:63-76 | for every table, self-references included, the chase ends, with the full path of a line that reaches a plain line and with a ring for every other line |
| Redirects.RingNeverReaches | benchmark/line_retrieval/gen_data.py:71-74 | a line that comes back to a visited line never reaches a plain one |
| Redirects.NoRepetition | benchmark/line_retrieval/gen_data.py:63-76 | a full path has no line twice |
| Redirects.Advance | benchmark/line_retrieval/gen_data.py:65-69 | hops made so far are bounded by the number of lines |
| Redirects.BuildLinks | benchmark/line_retrieval/gen_data.py:56-76 | `links` are the full paths, `contains_ring` is exactly the set of lines that never reach a plain line, and the in-place pass leaves every other line with its root's original value |
| Redirects.AnyOrder | benchmark/line_retrieval/gen_data.py:75 | the same value results whatever the order in which lines are processed, repetitions included |
| Redirects.GroupByHops | benchmark/line_retrieval/gen_data.py:78-83 | the groups partition the lines outside rings by number of hops, each in ascending order |
| LineQuery.EligiblesExact | benchmark/line_retrieval/bench_sglang.py:41-46 | the filter keeps exactly the lines of the group whose chain is shown |
| LineQuery.SelectQuerySound | benchmark/line_retrieval/bench_sglang.py:47-49 | selection yields an eligible line, and fails only when there is none |
| LineQuery.SelectedIsChosen | benchmark/line_retrieval/bench_sglang.py:41-49 | of the m lines of the group that stand before the source with their chain shown, the selected one stands behind the largest number below m that does not exceed the percentage of m |
| LineQuery.ShownChainIsRead | benchmark/line_retrieval/bench_sglang.py:42-52 | following references through the shown lines finds the path and value of full resolution |
| LineQuery.PartsAreTheBody | benchmark/line_retrieval/bench_sglang.py:52-62 | the four parts are consecutive, nearly equal and make up the body |
| LineQuery.LabelIsReadable | benchmark/line_retrieval/bench_sglang.py:41-66 | for every query that may be selected, the four parts alone determine the label and the path of hops, and they agree with what all lines give |
| LineQuery.AskedIsProduct | benchmark/line_retrieval/bench_sglang.py:36-39 | every pair of source index and percentage is asked, and nothing else |
| LineQuery.AskedAt | benchmark/line_retrieval/bench_sglang.py:36-39 | row i times the number of percentages plus j asks for source i and percentage j |
| LineQuery.EvalModel | benchmark/line_retrieval/bench_sglang.py:30-68 | row by row, the four parts hold exactly the lines up to the source index and the line asked is the one the percentage chooses, with its label; the loops fail exactly when some source index has no line to ask for |
| LineQuery.RecordedIsReadable | benchmark/line_retrieval/bench_sglang.py:50-66 | each recorded label and its hops can be read from the lines of its own prompt |
| LineRetrieval.GenerateAndEvaluate | benchmark/line_retrieval/gen_data.py:43-83 | rewriting, resolving, grouping and asking in sequence, in terms of the names, values and redirects alone: each prompt spells out exactly the lines up to its source, the line asked is the one the percentage chooses, and its label is the value at the end of its chain and can be read from the prompt; it fails exactly when some source index has no line of the wanted hops with its chain shown |
| LightningSpec.NaiveDecode | sgl-kernel/benchmark/bench_lightning_attention_decode.py:130-153 | for every batch, head, token and dimension the output is linear attention of the token's own query, and the state is the closed form over all n tokens |
| LightningSpec.ClosedForm | sgl-kernel/benchmark/bench_lightning_attention_decode.py:139-144 | the state is `ratio^n * kv0` plus every `k_t` outer `v_t`, decayed by `ratio^(n-1-t)` |
| LightningSpec.StepsChain | sgl-kernel/benchmark/bench_lightning_attention_decode.py:135-144 | decoding in two parts from the intermediate state is decoding at once |
| LightningSpec.RecurrenceIsAttention | sgl-kernel/benchmark/bench_lightning_attention_decode.py:139-150 | the output is linear attention: values of all tokens, weighted by their decayed query-key scores |
| LightningKernel.CellsApart | sgl-kernel/benchmark/bench_lightning_attention_decode.py:33-36 | programs write disjoint ranges, and different entries have different addresses |
| LightningKernel.ViewOfStore | sgl-kernel/benchmark/bench_lightning_attention_decode.py:64-75 | a store at an entry's address changes that entry and no other |
| LightningKernel.StoreMasked | sgl-kernel/benchmark/bench_lightning_attention_decode.py:64-69 | a masked store replaces the unpadded corner of the program's range and leaves padding and other programs alone |
| LightningKernel.LoadedRows | sgl-kernel/benchmark/bench_lightning_attention_decode.py:54-58 | a masked load of flat memory is the program's range with the padding read as zero |
| LightningKernel.MaskedSum | sgl-kernel/benchmark/bench_lightning_attention_decode.py:72 | the sum over padded lanes is the sum over the original dimension |
| LightningKernel.PaddingIsIgnored | sgl-kernel/benchmark/bench_lightning_attention_decode.py:48-72 | whatever the padding holds, the registers are the naive step inside the mask |
| LightningKernel.Step | sgl-kernel/benchmark/bench_lightning_attention_decode.py:30-75 | one vector step of a program changes only its own ranges |
| LightningKernel.DecodeKernel | sgl-kernel/benchmark/bench_lightning_attention_decode.py:105-121 | under every interleaving, each program's ranges end as it computes them from the initial buffers |
| LightningKernel.CopyIn | sgl-kernel/benchmark/bench_lightning_attention_decode.py:99-103 | slice assignment puts the data in the corner of every head of an uninitialised buffer |
| LightningKernel.NextPowerOfTwo | sgl-kernel/benchmark/bench_lightning_attention_decode.py:10-11 | a power of two at least the dimension and below twice it |
| LightningKernel.FinishedHead | sgl-kernel/benchmark/bench_lightning_attention_decode.py:30-75 | a finished program's corner is the naive step of its head |
| LightningKernel.TritonLightningAttnDecode | sgl-kernel/benchmark/bench_lightning_attention_decode.py:78-127 | for every batch, head and dimension size the wrapper returns exactly the output and state of one naive step, which are attention and closed form of one token, and fails exactly for n other than 1 |
| Splitting.JoinSplit | benchmark/reasoning_benchmark/answer_extraction.py:9 | joining what `str.split` returns gives the string back, and no piece holds the separator |
| Splitting.SplitJoin | benchmark/reasoning_benchmark/answer_extraction.py:184 | splitting undoes joining when no piece holds a separator that cannot overlap itself |
| Splitting.OccurrenceStartsPiece | benchmark/reasoning_benchmark/answer_extraction.py:9-14 | in a joined text the separator occurs before pieces and nowhere else |
| Splitting.SpreadSplits | benchmark/reasoning_benchmark/answer_extraction.py:184 | pieces written behind a lead, each behind the separator, are split off again |
| FracBraces.FixFracs | benchmark/reasoning_benchmark/answer_extraction.py:8-37 | the loop computes the normalised string; erasing braces from input and output gives the same text; every `\frac` of the output is followed by a brace, and a string with an unbraced one is changed, if and only if no unbraced `\frac` has fewer than two characters up to the next one or the end |
| FracBraces.GivesUpExactly | benchmark/reasoning_benchmark/answer_extraction.py:17-21 | that condition on the string is when the code gives up |
| FracBraces.WrittenBecomes | benchmark/reasoning_benchmark/answer_extraction.py:14-35 | what a text with any number of fractions becomes, argument by argument: `\frac` a b gets both pairs of braces, `\frac` a{ the first, and nothing changes if one is too short |
| FracBraces.EveryStringIsWritten | benchmark/reasoning_benchmark/answer_extraction.py:9-16 | every string is such a text |
| FracBraces.FixedIsIdempotent | benchmark/reasoning_benchmark/answer_extraction.py:8-37 | normalising twice is normalising once, on every string |
| FracBraces.FixedPoints | benchmark/reasoning_benchmark/answer_extraction.py:8-37 | the strings left alone are those in normal form and those given up on |
| FracBraces.FixPieceMakesNoFrac | benchmark/reasoning_benchmark/answer_extraction.py:22-35 | inserted braces create no new `\frac` |
| FracBraces.FixedSplits | benchmark/reasoning_benchmark/answer_extraction.py:9-35 | the output splits into the fixed pieces of the input |
| FracBraces.AllBracedPieces | benchmark/reasoning_benchmark/answer_extraction.py:15-16 | normal form of a string is a property of its pieces |
| BoxedAnswers.ExtractBoxedAnswers | benchmark/reasoning_benchmark/answer_extraction.py:182-197 | the scan with its brace counter finds the answers of the pieces, in order |
| BoxedAnswers.FirstClose | benchmark/reasoning_benchmark/answer_extraction.py:185-191 | the brace where a prefix first has more closing than opening braces, if there is one |
| BoxedAnswers.AnswerExists | benchmark/reasoning_benchmark/answer_extraction.py:186-191 | a piece gives an answer if and only if some prefix has more closing than opening braces |
| BoxedAnswers.AnswerIsBalanced | benchmark/reasoning_benchmark/answer_extraction.py:191-195 | a balanced text is the answer if and only if it stands in front of a closing brace without a per cent sign; with one, the answer is that text and the brace |
| BoxedAnswers.AnswerHasBalancedText | benchmark/reasoning_benchmark/answer_extraction.py:191-195 | every answer is such a balanced text, with the brace in the per cent case |
| BoxedAnswers.RoundTrip | benchmark/reasoning_benchmark/answer_extraction.py:182-197 | text written around boxed answers and unclosed openings gives the answers back in order if and only if no filler starts with a per cent sign; otherwise what comes back instead |
| BoxedAnswers.NoPatternAcrossBrace | benchmark/reasoning_benchmark/answer_extraction.py:184 | an answer with its brace and its filler hold no further opening if and only if neither of them does |
| BoxedAnswers.EveryTextIsWritten | benchmark/reasoning_benchmark/answer_extraction.py:184-191 | every string is such a text |
| BoxedAnswers.PercentKeepsBrace | benchmark/reasoning_benchmark/answer_extraction.py:192-193 | the failing input: `boxed{5}%` gives `5}` |
| StreamMerge.TrimOverlap | python/sglang/utils.py:475-486 | existing text and trimmed chunk make the shortest string with the text as prefix and the chunk as suffix |
| StreamMerge.MergeIsShortest | python/sglang/utils.py:475-486 | no such string is shorter, and there is one of that length |
| StreamMerge.StreamAndMerge | python/sglang/utils.py:489-500 | the merged text, in which every chunk occurs |
| StreamMerge.AsyncStreamAndMerge | python/sglang/utils.py:503-514 | the yielded pieces concatenate to the text of the synchronous form |
| StreamMerge.PiecesAddUp | python/sglang/utils.py:512-514 | and do so after every yield |
| StreamMerge.EveryChunkOccurs | python/sglang/utils.py:496-500 | every chunk of any stream occurs in the merged text |
| StreamMerge.MergedIsShortest | python/sglang/utils.py:495-500 | each chunk adds to the merged text the least that makes the chunk its end |
| StreamMerge.MergedGrows | python/sglang/utils.py:496-500 | text once merged is never retracted |
| StreamMerge.CumulativeStream | python/sglang/utils.py:489-500 | a stream whose chunks extend each other merges to its last chunk |
| StreamMerge.IncrementalStream | python/sglang/utils.py:489-500 | a stream of new text merges to its concatenation if and only if no chunk begins as the text before it ends |

## Left out

- Integer widths in the block alignment kernels: counts and addresses are unbounded; the 32-bit wrap-around of sizes beyond 2^31 is not modelled.
- The routed ids in the block alignment: a read-only sequence, not a recorded buffer; no launch writes it.
- The separate buffers that `calculate_diff` passes to the other two implementations of block alignment, and these implementations.
- Failed responses in the multi-turn generator, and the handler's exit when its queue stays empty for ten seconds: claims hold for successful responses and at the sender's exit.
- The ready queue's policies: `Pop` may take any ready request, which covers the random and the first-in policy; an unknown policy's error is not modelled.
- Sleeping times, progress bars, metrics, logs, HTTP and tokenizers, everywhere: sleeps are events, replies are parameters of events.
- Fairness of the event loops: the progress results say that a schedule to the end exists and how long a run can be, not that a scheduler takes it.
- The warm-up request of the serving benchmark and the flattening of shared prefixes into conversations of one turn, which runs before the queue is filled.
- The order in which tasks get past the semaphore: any waiting task may be next.
- FloatAtomicMax.MaxExactly: arguments and cells that are NaN have no order and are excluded.
- FloatAtomicMax.FloatCell.AtomicMaxFloat: one call is one atomic step, as the hardware's integer atomics are; the memory model behind them is not modelled.
- WarpReduce.WarpReduceMax: values are real numbers, so NaN, infinities and the two zeros of `fmaxf` are not modelled; all 32 lanes take part in each shuffle at once.
- WarpReduce.BlockReduceMax: warps write the shared array in any order before the barrier; steps of different warps are not interleaved further. The block size is a positive multiple of 32 up to 1024.
- Redirects.BuildLinks: says nothing about the `values` entry of a line in a ring, which depends on the processing order and is never used.
- Choosing random names, values, redirect lines and targets in `gen_data.py`: parameters. The few-shot suffix of the generated prompt is not modelled.
- Floating-point rounding and conversions between element types in lightning attention: reals; `exp` is abstract.
- LightningKernel.Step: the masked loads of one program are one step, as is each masked store; the buffers they read are written by no other program.
- LightningKernel.NextPowerOfTwo: the logarithm is exact, without the rounding of `math.log`.
- `strip_string`, `extract_answer`, `math_equal` and the other string helpers around the two modelled ones: regular expressions and a computer algebra system.
- The streaming calls behind `stream_and_merge`: the chunks are a sequence.
