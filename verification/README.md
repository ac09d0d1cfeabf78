# DAN engine: verified models

DAN runs one language model over several provider machines. Each provider holds a range of layers
(a *stage*); tokens travel through the stages and the last one samples the next token. This project
models the parts of the engine whose correctness is not visible in any one function, and proves them
in Dafny 4.11. `dafny verify dfyconfig.toml` covers all of it.

The models fall into four groups.

1. **Decoding over an N-stage replica.** `Causal` is the staged model: what each stage caches when the
   route has been fed a token stream, and plain greedy decoding. Only causality is assumed of the
   inference library (a row depends on the cached positions up to its own), and the target's choice is
   an arbitrary function. `PipelineModel` is the pipelined decoder (sender, one relay per stage
   boundary, receiver, FIFO sockets, epoch, correction slot, per-hop counters) as a transition system
   with one step per critical section; `PipelineAlgorithm`, `PipelineTransport` and `PipelineSteps`
   prove its invariant, `PipelineTheorems` what every run delivers, `PipelineEnds` that every run ends,
   `PipelineRounds` that every run says what rounds one at a time would, `PipelineRoom` and
   `PipelineTight` how much context it takes, and `PipelineDivergence` a run that goes wrong. `StageSpec` is what a worker does to one session,
   `StageWorker` the worker itself (its class, its session map, its pool of KV sequences, batched
   decode), `Client` the synchronous decoder and its commit and rollback protocol, `ChunkedPrefill`
   chunked prompts, `Speculation` the worker's own acceptance rule, `DecodeLoop` the client-free loop.
2. **Layer placement.** `Tensors` (which stage owns which tensor) and `TensorNames` (what layer a name
   spells), `LayerSizes` (the prefix-sum size table, KV sizes, the memory rule), `BestSplit` (the dynamic
   programme), `Combinations`, `SearchBounds` and `SearchPlan` (the pruned search), `FirstToken` (when a
   plan's first token comes), `Planner` (the backtracking planners), `Rankings` (the orders the search's
   pool is taken from), `PlanChoice` (the whole request: checks, pool, search and the plan answered),
   `PlacementCases` (models on which the search does not do what it says).
3. **GGUF headers and ranges.** `GgufHeader` (what a prefix of a file says), `HeaderParser` (the
   cursor and the fetching loop), `GgufWriter` (the format written out, and read back), `DataLayout`
   (where the data of a header begins and what is taken for valid), `Ranges` (tensor spans, required
   ranges, download pieces), `DeadHeaders` (which headers no further bytes can settle), `HeaderCases`
   (a file whose metadata and tensor names disagree).
4. **The job scheduler.** `Scheduler`: every interleaving of submit, cancel, time-out, execute,
   fail and stop.

`Options`, `Sequences`, `StableOrders` and `Multiples` hold shared definitions.

## What turned out not to hold

- **The pipelined receiver's test.** The comment at engine/coordinator.cpp:549 promises the output of
  the synchronous decoder. The receiver decides that a chunk was accepted whole by comparing the
  number of committed inputs with the chunk's length (line 891), and lines 861-862 make these equal
  also when the only wrong guess is the last one. The corrected token is then emitted, but the sender
  goes on from the wrong guess. `RejectTest` has both tests. With the intended one every run commits
  the plain answer (`IntendedTestIsExact`); with the written one this holds of every run that never
  takes that branch, a run takes it exactly when `Slips` holds of a state in which a reply is applied
  (`SlipIff`), the first stage's cache agrees with what was said if and only if it never did
  (`CacheExactIff`), and `AsWrittenDiverges` is a run that answers 1, 2, 10 instead of 1, 2, 3.
- **The pipelined decoder's context.** The sender drafts whole blocks past the last guess, so its
  frames reach further than the synchronous decoder's, and a stage refuses a frame that passes its
  context (engine/stage_worker.cpp:830-833, 972-976), which ends the request. Nothing else is ever
  refused (`RefusedOnlyForRoom`). No run is refused when the context holds prompt and limit, less 2,
  and `depth + 1` blocks (`NeverFaults`). What is exactly needed, under either test, is that much with
  the longest output that rounds of guesses can bring about in place of the limit (`NoneRefusedIff`,
  `LongestExists`); under the intended test, or when the limit ends it, that output is the answer
  (`LongestIsAnswer`, `AnswerRoomIff`), and the answer's room is needed in any case (`RoomNeeded`).
- **The plan search's memory bound.** The doc comment of `complete` in
  engine/include/provider_owned/search.hpp:72 says that every group and order was evaluated. The quick
  memory bound (engine/search.cpp:329-335) does not round the 15% reserve down as the memory rule does,
  so it can skip a group that fits without a byte to spare: in `BoundTooTight` a stageable two-layer
  model fits the one worker offered, and the search reports itself complete without a plan. A
  complete `Search` finds a plan if and only if an order that the bound lets through has a split (`Possible`, `Admitted`); that includes every order with a split that
  leaves a byte at each member (`RoomyIsAdmitted`).
- **The size table's KV check.** When the whole model's KV passes 64 bits the tensor scan reports 0
  and the table's product can wrap to the same 0: `KvCheckFooled` is a stageable model, with a context
  and a session count that a worker may offer, whose table is accepted and whose layers the search lets
  onto a worker that the planner refuses.
  `RulesPartExactly` gives the inputs on which the two memory rules differ, `RulesAgreeIff` the models
  on which they never do: those whose whole KV is within 64 bits.
- **What decoding reads.** The size table takes one embedding off what a first stage reads, the scan
  every tensor of that name; a plan that was searched is timed by the table, one from the disk by the
  scan. `DecodeAgreesIff` says when the two are the same.
- **Fetched and charged bytes.** The fetcher counts layers by tensor names, the planner by metadata.
  `FetchedIsCharged` says exactly when the two sums are equal, and `ChargedNotFetched` writes out a
  file, which parses and can be staged, for which they are not.
- **Scheduler counters and entries.** Inserting the pending entry and pushing the job are two steps: a
  cancel between them followed by a full queue counts one submission twice (`CountedTwice`), and a
  resubmission in between loses its entry to the first submitter (`TakesAnothersEntry`).
  `RemovesAnothersIff` says exactly which runs remove another job's entry, `Conserved` gives the exact
  sum of the counters for every run, `CountsExactlyIff` when it is the number of submissions, and
  `PromptConserves` what holds if the two are one step.
- **"Incomplete" headers.** A string or array over its size limit, an array of an unknown type, an
  empty tensor name and a nesting deeper than four are reported as incomplete rather than invalid, so
  bytes are fetched that can change nothing; the model follows the code. `IncompleteForEverIff` says of
  every prefix when that is so: all its extensions are called incomplete exactly if it is `Dead`, which
  can be read off its bytes; any other prefix has an extension that is not. `ValueLostIff`,
  `GivenUpAlone` and `TensorLostIff` say it of one value and one tensor, and `OverlongIsIncomplete`
  writes one such header out.

## Model

| member | source | states |
|---|---|---|
| Causal.InputsPrefix | engine/stage_worker.cpp:726-737 | Truncating any stage's cache by absolute position leaves exactly what the route would hold had it been fed only that prefix. |
| Causal.EmitIsInputs | engine/stage_worker.cpp:1093-1123 | The rows a stage hands on are exactly the rows the next stage has to cache for the same token stream. |
| Causal.ExtendIsInputs | engine/stage_worker.cpp:726-737 | A frame below a stage's position moves it from any stream that shares the prefix to the frame's own stream: nothing of the rejected continuation survives. |
| Causal.SamplesAreNext | engine/stage_worker.cpp:1021-1040 | Each token the tail answers to a verify block is the whole model's greedy choice after that prefix. |
| Causal.PlainIsUnique | engine/client.cpp:600-684 | Any greedy token sequence that stopped, and would not have stopped earlier, is what one-token-at-a-time decoding yields from any of its prefixes. |
| Causal.AnswerIsUnique | engine/client.cpp:600-684 | Such a sequence is the answer of plain decoding: one answer per prompt, sink and limit. |
| Acceptance.AcceptMeaning | engine/client.cpp:625-638 | The accept loop takes the longest run of right guesses, cut at the first token that ends the request, and stops exactly if that token does. |
| Acceptance.JudgedMeaning | engine/client.cpp:625-653 | A judged block emits at least one token, every one of them the target's greedy choice, and the position advances by exactly the tokens emitted. |
| Acceptance.AcceptLoop | engine/coordinator.cpp:831-853 | The receiver's loop computes that verdict. |
| Speculation.AcceptSpeculation | engine/include/provider_owned/speculation.hpp:23-33 | The worker's rule commits the samples up to and including the one after the last right guess; an empty batch commits nothing. |
| Speculation.CommitsOnlyGreedy | engine/include/provider_owned/speculation.hpp:5-11 | Whatever was guessed, a verified batch commits at least one token and only the target's greedy continuation. |
| Speculation.CommitsAllItCan | engine/include/provider_owned/speculation.hpp:23-33 | It stops early only where the next sample was computed on a wrong guess. |
| Speculation.RulesAgree | engine/client.cpp:625-644 | For any block, samples and sink, judging as a client does emits the samples the worker's rule commits, up to and including the first that ends the request. |
| PipelineSteps.RunKeeps | engine/coordinator.cpp:618-915 | In every interleaving, with any guesses, stage count, depth, context and either test, every state of a run that has not been refused satisfies the invariant: transcripts, counters, epochs, corrections, output. |
| PipelineSteps.StepKeeps | engine/coordinator.cpp:618-915 | Each step of each thread and stage keeps that invariant, unless it hands a stage a frame past its context. |
| PipelineAlgorithm.AlgoApply | engine/coordinator.cpp:822-903 | Judging the oldest chunk (dropped, accepted whole, corrected or last) keeps everything that is known of chunks, epochs, the correction and the output. |
| PipelineAlgorithm.ReplayKeeps | engine/stage_worker.cpp:726-737 | Handling any further chunks leaves the committed inputs in place in every stage. |
| PipelineTransport.StageComputes | engine/stage_worker.cpp:708-741 | The next chunk's frame never lies above the stage's position; handling it ends with the cells of the replayed stream and answers the frame the next stage expects. |
| PipelineTransport.StageHandles | engine/stage_worker.cpp:830-833 | A stage handles the next frame if and only if it ends within the context. |
| PipelineTransport.ReplyMeaning | engine/coordinator.cpp:813-828 | The tail's reply to a chunk has the position and row count the receiver requires, and its tokens are answers on that chunk's stream. |
| PipelineTheorems.RefusedOnlyForRoom | engine/stage_worker.cpp:830-833 | A run is refused if and only if its last step hands a stage a frame that ends past the context: no queue is popped empty, no stage gets a frame above its position, no reply fails its checks. |
| PipelineTheorems.WithinBounds | engine/coordinator.cpp:618-915 | At every moment at most the depth is outstanding, the token limit holds, the position is prompt plus tokens minus one, and while a correction waits nothing in flight carries the current epoch. |
| PipelineTheorems.CountersAgree | engine/coordinator.cpp:575-616 | Announced frames never increase along the stages; the timestamp, hop-timing and in-flight queues have exactly the lengths the counters imply. |
| PipelineTheorems.InFlightInOrder | engine/coordinator.cpp:624-673 | Epochs in flight never go back; chunks of the current epoch lie end to end, each from the last guess of the one before, the oldest from the committed output. |
| PipelineTheorems.CommitsGreedily | engine/coordinator.cpp:618-915 | A run that has not slipped has committed a prefix of the greedy continuation, and once finished exactly the answer of plain decoding. |
| PipelineTheorems.IntendedTestIsExact | engine/coordinator.cpp:891-902 | With the intended test that holds of every run. |
| PipelineTheorems.SlipsExactly | engine/coordinator.cpp:855-902 | A step makes the two streams part exactly when it applies a chunk whose only wrong guess is its last, with the request going on. |
| PipelineTheorems.SlipIff | engine/coordinator.cpp:855-902 | A run has slipped if and only if one of its steps took that branch. |
| PipelineTheorems.JoinedState | engine/coordinator.cpp:991-1004 | When the threads are joined the request is over, every reply has been read, all stages stand at one place, and rolled back to the output's position each holds exactly the inputs fed. |
| PipelineTheorems.CommitCompletes | engine/coordinator.cpp:999-1003 | The commit that follows a run without a slip leaves every stage with prompt and answer. |
| PipelineTheorems.CacheExactIff | engine/coordinator.cpp:991-1004 | The first stage's cache agrees with what was said if and only if the run never slipped. |
| PipelineTheorems.NoDeadlock | engine/coordinator.cpp:628-632 | No reachable state is stuck before every thread has returned. |
| PipelineEnds.FewChunks | engine/coordinator.cpp:628-672 | No run sends more than `depth + 2` chunks per token of the limit. |
| PipelineEnds.LengthIsWork | engine/coordinator.cpp:618-915 | The number of steps taken can be read off the state: every step of every thread is one more piece of work. |
| PipelineEnds.RunsAreBounded | engine/coordinator.cpp:618-915 | No run is longer than a bound given by limit, depth and stage count (and the one step that is refused), so every run ends. |
| PipelineRounds.RunIsRounds | engine/coordinator.cpp:822-903 | What any run has committed and goes on from at any moment is what some rounds, judged one at a time with nothing in flight, come to. |
| PipelineRoom.RunReaches | engine/coordinator.cpp:644-672 | Every frame of every run ends at the latest where prompt, any bound on the tokens of its runs, less 2, and `depth + 1` blocks end. |
| PipelineRoom.NeverFaults | engine/stage_worker.cpp:830-833 | With a context that large for the limit, no run under either test is ever refused, whatever is guessed. |
| PipelineRoom.CommitHasRoom | engine/coordinator.cpp:999-1003 | And the commit that follows fits as well. |
| PipelineRoom.StuckHasAnswered | engine/coordinator.cpp:991-1004 | A run that cannot go on was refused, or has joined all threads and, if no step slipped, has committed exactly plain decoding's answer. |
| PipelineRoom.CanComplete | engine/coordinator.cpp:618-1004 | With that context, whatever has happened so far, the run can be completed within the bound. |
| PipelineTight.RoomNeeded | engine/stage_worker.cpp:830-833 | Under either test, if no run is refused the context holds prompt, answer, less 2, and `depth + 1` blocks. |
| PipelineTight.NoneRefusedIff | engine/stage_worker.cpp:830-833 | Under either test no run is refused if and only if the context holds prompt, the longest output any rounds of guesses come to, less 2, and `depth + 1` blocks. |
| PipelineTight.LongestExists | engine/coordinator.cpp:822-903 | Every configuration has such a longest output, at most the limit. |
| PipelineTight.RoundsAreRun | engine/coordinator.cpp:618-915 | If no run is refused, whatever rounds one at a time come to before the end some run of the pipeline stands at, with nothing in flight. |
| PipelineTight.LongestIsAnswer | engine/coordinator.cpp:822-903 | Under the intended test, or when the limit ends it, the longest output is as long as plain decoding's answer. |
| PipelineTight.AnswerRoomIff | engine/stage_worker.cpp:830-833 | In those cases no run is refused if and only if the context holds the answer's room. |
| PipelineDivergence.AsWrittenDiverges | engine/coordinator.cpp:855-902 | A finished run with the test as written whose tokens are not plain decoding's answer. |
| StageSpec.StageMoves | engine/stage_worker.cpp:708-741 | A stage fed the frame for a stream moves to that stream from anything that agrees below the frame's position, and answers what the next stage (or the client) expects. |
| Client.Route.Carry | engine/client.cpp:371-411 | A frame carried through all stages moves every one of them to the same stream and returns the tail's answer; it fails exactly when the context has no room. |
| Client.Route.VerifyBlock | engine/client.cpp:606-623 | Each token checked by the route is the target's choice after what was said and the guesses before it. |
| Client.JudgeBlock | engine/client.cpp:625-653 | A judged block adds at least one token and at most the block, all greedy and all guesses but the last, moves the position by as many, and adds fewer only where the request ends or a guess was wrong; although the loop does not look at the token limit. |
| Client.LimitFree | engine/client.cpp:603-604 | Because a block never reaches past the limit, the loop that ignores it decides as one that checks it. |
| Client.RoundMeaning | engine/client.cpp:602-670 | A round extends the greedy answer by at least one token and at most the block, all guesses but the last token. |
| Client.Route.DraftRound | engine/client.cpp:602-670 | A speculative round makes progress, keeps the answer greedy and the position exact, whatever is guessed. |
| Client.Route.PlainRound | engine/client.cpp:672-684 | So does a plain round, by one token. |
| Client.Route.RollbackAll | engine/client.cpp:311-324 | Every stage is rolled back to the position, and every acknowledgement names it. |
| Client.Route.EndAll | engine/client.cpp:291-309 | The request ends on every stage and the "positions diverged" check never fires. |
| Client.Route.Finish | engine/client.cpp:685-692 | Cancelled: every stage is back where the request began. Otherwise, with a kept session: every stage holds conversation, prompt and answer. |
| Client.Route.Generate | engine/client.cpp:571-695 | Any drafter or none: the tokens are plain decoding's answer; a commit leaves old conversation, prompt and answer in every stage, a cancel the old conversation; it succeeds whenever the context has room. |
| Client.Route.ResetAll | engine/client.cpp:931-935 | Every stage is left as a fresh session. |
| Client.Route.PrepareChat | engine/client.cpp:910-936 | All stages end at the longest cached prefix of the rendered chat, short of its last token, or the whole route is reset. |
| Client.Route.ChatTurn | engine/client.cpp:910-936 | After preparing and answering, tokens and caches are those of a fresh session fed the whole rendering. |
| ChunkedPrefill.RunPrompt | engine/stage_worker.cpp:835-852 | The first stage ends with the whole prompt cached and has sent exactly the chunk frames: contiguous, none empty. |
| ChunkedPrefill.StageStreams | engine/stage_worker.cpp:1005-1019 | A later stage fed the chunks in order reaches the whole stream and answers with the next stage's chunks. |
| ChunkedPrefill.TailReplies | engine/stage_worker.cpp:1005-1019 | The tail answers acknowledgements and then exactly one token, the target's. |
| ChunkedPrefill.ExecutePrompt | engine/stage_worker.cpp:796-852 | On the first stage: the session ends as after the unchunked prompt, the same prompts are refused, and the frames sent carry the rows of the one frame it would have sent, cut up. |
| ChunkedPrefill.ChunkedEqualsWhole | engine/stage_worker.cpp:749-852 | For every prompt, chunk size and later stage: same session as after the unchunked prompt, and the same token. |
| StageWorker.SequencesApart | engine/stage_worker.cpp:521-534 | Two live sessions never share a KV sequence, and each one's is marked used. |
| StageWorker.PoolExhausted | engine/stage_worker.cpp:525-526 | If every sequence is used there are at least as many sessions as sequences. |
| StageWorker.Stage.Create | engine/stage_worker.cpp:521-534 | Adds a fresh session and touches no other; refused exactly for a bad or known identifier or a full worker. |
| StageWorker.Stage.Destroy | engine/stage_worker.cpp:617-629 | Removes the session and frees its sequence; refused exactly for an unknown or active one. |
| StageWorker.Stage.Disconnected | engine/stage_worker.cpp:480-490 | No session is left and the pool is free. |
| StageWorker.Stage.Reset | engine/stage_worker.cpp:594-615 | The session starts afresh on its own sequence; refused exactly for an unknown or active one. |
| StageWorker.Stage.EndRequest | engine/stage_worker.cpp:631-644 | The worker's bookkeeping and memory do to this session what the session-level rule says, and nothing to any other. |
| StageWorker.Stage.Rollback | engine/stage_worker.cpp:646-660 | Likewise for a rollback: position, history and KV cells stay in step. |
| StageWorker.Stage.Cached | engine/stage_worker.cpp:549-554 | The loop finds the longest common prefix of history and prompt, short of the last token. |
| StageWorker.Stage.PrepareChat | engine/stage_worker.cpp:536-585 | Likewise for chat preparation, on the strength of history being the KV tokens. |
| StageWorker.Stage.Execute | engine/stage_worker.cpp:708-741 | Does to its session what the specification says, and nothing to any other; a chat that is sampled is refused speculation, untouched. |
| StageWorker.Stage.RunFirst | engine/stage_worker.cpp:796-947 | The first stage's branches on a slot and its cells are the session-level rule. |
| StageWorker.Stage.RunRest | engine/stage_worker.cpp:949-1133 | So are those of a middle or last stage. |
| StageWorker.BatchableExecutes | engine/stage_worker.cpp:340-351 | A batchable frame handled alone appends its one row and is answered from that session's cells. |
| StageWorker.Stage.AllReady | engine/stage_worker.cpp:359-370 | The batch is accepted exactly if every frame is batchable and, at the first stage, its token is in the vocabulary. |
| StageWorker.WholeBatch | engine/stage_worker.cpp:354-410 | The two loops of a batched decode come to handling the frames one by one. |
| StageWorker.Stage.DecodeBatch | engine/stage_worker.cpp:354-410 | A batch of distinct sessions gives the replies and session states of handling its frames one at a time, and a refused batch, one with a token outside the vocabulary included, changes nothing. |
| DecodeLoop.RunKeeps | engine/stage_worker.cpp:1701-1783 | Every interleaving of prompts, cancels, tokens, failures and broken links keeps: what was sent and what remains make up each budget. |
| DecodeLoop.EveryRequest | engine/stage_worker.cpp:1701-1783 | Each request is sent zero or more chunks, then exactly one result or error and nothing after, at most its budget in all; only a request that streamed when a link broke ends without one. |
| DecodeLoop.SessionsApart | engine/stage_worker.cpp:1429-1445 | A session's stream and everything its client is sent are what its own frames alone, and the links that broke, would give. |
| DecodeLoop.CancelEndsIt | engine/stage_worker.cpp:1719-1735 | A cancelled request ends with a result at its next token, whatever other sessions do in between, while no link breaks. |
| DecodeLoop.LoopState.AcceptPrompt | engine/stage_worker.cpp:2160-2166 | A budget is taken exactly if it is not zero and the session is not streaming. |
| DecodeLoop.LoopState.Cancel | engine/stage_worker.cpp:2158-2159 | Marks the stream of that session and request, and no other. |
| DecodeLoop.LoopState.Deliver | engine/stage_worker.cpp:1719-1735 | One token counts against its stream's budget or ends it, and is sent accordingly; if it cannot be sent every stream goes. |
| DecodeLoop.RoundsInOrder | engine/stage_worker.cpp:1717-1778 | The tokens of a round come in order, and behind its last the round decoded from that token, or nothing when this worker is not the whole route. |
| DecodeLoop.CommittedInOrder | engine/stage_worker.cpp:1717-1736 | A worker that is not the whole route sends what a round committed, in that order, and no more. |
| DecodeLoop.EndsOneWay | engine/stage_worker.cpp:1701-1783 | Behind how many tokens a call ends, and why, is settled by the tokens, the budget, the cancels and the connections. |
| DecodeLoop.LoopState.ContinueLoop | engine/stage_worker.cpp:1701-1783 | A call sends just those tokens as chunks and ends in just that way: at the first token that the model ends with, that was cancelled, or that uses up the budget; with the last committed token sent round the ring; with a round that decodes to nothing; or with the connection that failed. Every cancel frame read takes effect, and a link that fails takes every stream with it. |
| Tensors.WeightMonotone | engine/range_model.cpp:276-286 | A longer range never weighs less, even where it reaches a tied head. |
| Tensors.CutWeight | engine/range_model.cpp:276-286 | Cutting a range divides its bytes, except that cutting the whole model copies a tied embedding. |
| Tensors.BlockHeldOnce | engine/range_model.cpp:276-286 | Over any tiling a block tensor of the model is held by exactly one stage. |
| Tensors.OtherHeldBy | engine/range_model.cpp:276-286 | Exactly which stages hold every other tensor: embedding, head, and those held by none. |
| TensorNames.SpelledIsRead | engine/range_model.cpp:266-274 | A block tensor's name with any number an `int` holds, written in decimal, is of that layer. |
| TensorNames.SpelledIff | engine/range_model.cpp:266-274 | A name is of a layer above 0 if and only if its second part is that number's digits, perhaps behind zeros. |
| TensorNames.OnlyNamed | engine/range_model.cpp:266-274 | Every name of a layer is `blk.`, a number and a dot, and the number is read whole. |
| TensorNames.SpelledIsOwned | engine/range_model.cpp:276-279 | Such a tensor is held by a stage if and only if the number lies in its range. |
| TensorNames.OthersOwned | engine/range_model.cpp:279-286 | Which stages hold a tensor of no layer, by its name alone. |
| Tensors.TilingWeight | engine/range_model.cpp:276-286 | The stages of any tiling weigh the whole model, plus a tied embedding once more when there are two or more. |
| Tensors.StageModelBytes | engine/range_model.cpp:692-707 | The loop gives the header and the owned tensors, or 0 for no such stage or a sum past 64 bits. |
| LayerSizes.ComputeKvBytes | engine/planner.cpp:221-235 | Multiplying factor by factor with a guard before each product gives the plain product, or 0 when a factor is 0 or it passes 64 bits. |
| LayerSizes.PositionsMean | engine/planner.cpp:192-205 | The positions charged for a session: the least multiple of 256 not below its share of the least multiple of 256 that holds all contexts; at least the context and less than 512 more; 0 past 32 bits. |
| LayerSizes.KvMeans | engine/planner.cpp:207-235 | KV is layers times positions of all sessions times, for each KV head, the key's width and the value's at two bytes; widths as given or the even share of the hidden width. |
| LayerSizes.ComputeDecodeBytes | engine/planner.cpp:237-245 | The loop takes each embedding off a first stage's bytes while it is smaller. |
| LayerSizes.DecodeAgreesIff | engine/search.cpp:41-44 | The table and the scan agree on what decoding reads if and only if the stage is not the first or no embedding but the last has bytes. |
| LayerSizes.KvLinear | engine/planner.cpp:221-235 | Within 64 bits, KV grows by one layer's worth per layer. |
| LayerSizes.BuildSizes | engine/search.cpp:48-77 | The program's table is the specified one: same prefix sums, overlap, spot checks and refusals. |
| LayerSizes.TableIsScan | engine/search.cpp:27-46 | An accepted table whose sums did not wrap gives the tensor scan's bytes on every range, tied head or not. |
| LayerSizes.TableExists | engine/search.cpp:55-75 | Exactly when the table is accepted: the spot check of the weights never fails, only a layer of no bytes or the KV size can. |
| LayerSizes.KvIsExact | engine/search.cpp:45-45 | The KV column is exact on every range once the whole model's KV is within 64 bits. |
| LayerSizes.SizeGrows | engine/search.cpp:163-164 | Weights and KV grow with a stage's end. |
| LayerSizes.FitsIsStageFits | engine/search.cpp:80-88 | Where the whole model's KV is within 64 bits, the search's memory rule and the planner's agree on every offer and range. |
| LayerSizes.FitsShorter | engine/search.cpp:163-164 | What fits still fits with fewer layers. |
| LayerSizes.RulesPartExactly | engine/planner.cpp:256-267 | The search takes what the planner refuses exactly where the range's KV passes 64 bits and, wrapped, goes into the offer with the weights; on all other inputs the two rules agree. |
| LayerSizes.RulesPartWithoutKv | engine/planner.cpp:256-267 | Where the whole model's KV is reported as 0 the two rules part on the whole model for every offer that holds its weights. |
| LayerSizes.RulesAgreeIff | engine/planner.cpp:256-267 | For a model whose weights some offer could hold, the two rules agree on every offer and range if and only if the whole model's KV is within 64 bits. |
| BestSplit.RelaxFrom | engine/search.cpp:159-172 | Offering ends until the first that does not fit loses nothing. |
| BestSplit.FillTable | engine/search.cpp:152-173 | Each cell is the least balanced cost over all feasible splits that reach it. |
| BestSplit.Retrace | engine/search.cpp:175-185 | Walking back gives a feasible split of exactly the cell's cost. |
| BestSplit.CostIsTimeAndSpread | engine/search.cpp:141-143 | What is made least is the time and a billionth of the squares of the stages' times. |
| BestSplit.FindBestSplit | engine/search.cpp:148-191 | Infinite exactly when no contiguous split with a layer each fits; otherwise of all feasible splits the one of least balanced cost, of equals the one that cuts first, and its plain time. |
| BestSplit.OnlyFirst | engine/search.cpp:167-170 | There is only one such split. |
| Combinations.FirstIsFirst | engine/search.cpp:308-309 | No pick comes before the first. |
| Combinations.RaisedIsNext | engine/search.cpp:315-321 | Between a pick and its successor there is no other. |
| Combinations.NextPick | engine/search.cpp:313-322 | The stepping gives the next pick in lexicographic order, or ends exactly at the last. |
| Combinations.StepsEnd | engine/search.cpp:310-322 | The picks climb in a bounded measure, so the stepping ends. |
| SearchBounds.LinksAtLeast | engine/search.cpp:338-344 | A ring takes at least half its members' round trips where none is measured between them, and never a negative time. |
| SearchBounds.LinkMeans | engine/search.cpp:92-128 | One way of a link, by the measurements themselves: half the planner's round trip at the planner's machine; between two others half of what the sender, or else the receiver, measured; else half of both round trips to the planner; relays cost their penalty. |
| SearchBounds.TimeAtLeast | engine/search.cpp:345-346 | However a group divides the model, it is no faster than all weights at its fastest member's speed. |
| SearchBounds.EstimateIsClose | engine/search.cpp:331-332 | The quick estimate of a member's memory is at most what the memory rule allows, and less than a byte short of it. |
| SearchBounds.MemoryAtLeast | engine/search.cpp:329-335 | A group with a split that leaves a byte at each member is never taken for too small. |
| SearchBounds.TableIsGood | engine/search.cpp:48-77 | Every table the program accepts has the properties the search relies on. |
| SearchBounds.TaskMonotone | engine/search.cpp:163-164 | The early stop of the dynamic programme is sound on every ordered group. |
| SearchPlan.OrdersComplete | engine/search.cpp:355-357 | Every order of a small group is among those tried. |
| SearchPlan.OrdersSound | engine/search.cpp:355-357 | And only orders of that group are. |
| SearchPlan.TryOrder | engine/search.cpp:380-396 | The best plan's rank never falls and at one rank its time never grows; after an order its best split has no higher first-token rank, and at the same rank is no faster, but for 1e-9. |
| SearchPlan.TooSlow | engine/search.cpp:345-346 | The time bound skips only groups none of whose orders can gain. |
| SearchPlan.AdmittedTogether | engine/search.cpp:329-335 | The memory bound lets all orders of a group through or none. |
| SearchPlan.TooSmall | engine/search.cpp:334-335 | Skipping a group for its memory leaves no order unsettled that the bound lets through. |
| SearchPlan.RoomyIsAdmitted | engine/search.cpp:329-335 | A byte to spare at every member is enough to be let through. |
| SearchPlan.TryGroup | engine/search.cpp:323-397 | After a group every order of it that was let through is settled, of a large one those stably sorted by speed, memory and distance; a new best plan is an order of it. |
| SearchPlan.TryGroupsOf | engine/search.cpp:307-398 | After stepping through one size every group of that size is settled. |
| Rankings.RankingFine | engine/search.cpp:247-261 | Each of the four rankings is an order of all candidates, by its value, then by key, then as they came. |
| Rankings.KeyLessMeans | engine/search.cpp:253-254 | Keys are compared where they first differ; a proper prefix comes first. |
| Rankings.RankingsMean | engine/search.cpp:256-261 | In them the closer comes first, the larger offer, the faster, and what has anything on disk. |
| SearchPlan.FindPool | engine/search.cpp:262-278 | The pool has no repeats, the head first, as many as the limit allows, and after the head each is the best not yet taken of the ranking whose turn it is. |
| SearchPlan.Search | engine/search.cpp:295-400 | A plan found is allowed, the best split of its order, and of the rank and time it says. When complete, no allowed order let through has a best split of a higher first-token rank, or of the same and faster by more than 1e-9 ms, and a plan is found if and only if such an order has a split. The budget is never passed; the search is complete whenever the pool holds all candidates, groups are small enough to permute and the budget is not used up. |
| SearchPlan.SettledMeans | engine/search.cpp:383-396 | The best split of a settled order has no higher rank than the best plan, and at the same rank is no faster, but for 1e-9. |
| SearchPlan.SettledWithoutLimit | engine/search.cpp:390-396 | Without a first-token limit that holds against every split of the order, even by balanced time. |
| SearchPlan.RanksByFirstToken | engine/search.cpp:207-211 | Under a limit a plan in time ranks above any other, and one whose first token is not known above one that is late; without a limit all rank alike. |
| PlanChoice.CachedSplits | engine/search.cpp:404-414 | A plan from cached ranges is a split of its workers by the search's own memory rule. |
| FirstToken.LineTime | engine/search.cpp:213-234 | Chunks going through stations that each work on one at a time: the last leaves the last station after all stations once, the ways between them, and the slowest once more for every further chunk. |
| FirstToken.FirstTokenMs | engine/search.cpp:213-240 | The one pass over stages and hops gives just that time and the two ends, or 0 when a speed or a bandwidth is not known. |
| FirstToken.ChunksMean | engine/search.cpp:216-219 | As few chunks as hold the prompt's rows, spread evenly. |
| FirstToken.BandwidthMeans | engine/search.cpp:107-116 | The widest of the links measured to a peer. |
| PlanChoice.TokenMs | engine/search.cpp:195-205 | The stages' times one by one, by the scan of the tensors, then the links. |
| PlanChoice.ScanIsTime | engine/search.cpp:195-205 | For a model with one embedding that is the time its split was searched by. |
| PlanChoice.ChoosePlan | engine/search.cpp:295-432 | Whatever is answered can be used and takes the time it says. When complete there is a plan if and only if an allowed order has a split or the disk holds one, and no allowed order's best split has a higher first-token rank, or the same and is faster, but for 1e-9 ms and, for a plan from the disk, the tolerance; without a first-token limit that holds of all splits. |
| PlanChoice.AnswerRequest | engine/search.cpp:281-433 | A request is refused exactly if it fails a check or the sizes do not add up; otherwise its pool is taken in turn from its rankings, and the answer is as good as the choice promises of that pool. |
| PlacementCases.BoundTooTight | engine/search.cpp:329-335 | A stageable model that fits the one worker offered, on which the search reports itself complete and finds nothing. |
| PlacementCases.KvCheckFooled | engine/search.cpp:66-75 | A stageable model whose table is accepted although its KV check compares two zeros, and whose layers the search lets onto a worker that the planner refuses. |
| Planner.Split | engine/planner.cpp:385-413 | For one order of workers: of the tilings whose stages fit the one whose cuts are tried first, nearest to the wanted end, or none exactly when there is none. |
| Planner.Choose | engine/planner.cpp:372-416 | Over all injective orders, head first: of the plans of that many stages the one of the lowest worker numbers, or none exactly when there is none. |
| Planner.PlanNeeds | engine/planner.cpp:341-367 | Any plan of a count needs no more than the roomiest workers of that number have. |
| Planner.CountIsHopeless | engine/planner.cpp:354-367 | A count is called hopeless exactly when the roomiest workers of that number have less than the whole model, its KV and the further headers need, as far as these are known and within 64 bits; and then no plan has it, wrap-around included. |
| Planner.PlanStages | engine/planner.cpp:327-420 | Of the plans of the fewest stages at or above the minimum, over all orders and cuts, the first by worker numbers and then by cuts; none exactly when there is none. |
| Planner.RangesFrom | engine/planner.cpp:301-310 | The options are exactly the ranges on disk that begin here, of workers that may come next, the longest first and then the highest number. |
| Planner.Extend | engine/planner.cpp:298-323 | From any point: of the ways on over cached ranges the first, or none exactly when there is none. |
| Planner.PlanFromCache | engine/planner.cpp:287-325 | Of the plans whose every range is on its worker's disk and fits, the one that goes furthest where plans first differ, or none exactly when there is none. |
| GgufHeader.ValueStays | engine/range_model.cpp:121-144 | A metadata value skipped in a prefix is skipped the same in every extension. |
| GgufHeader.EntriesStay | engine/range_model.cpp:177-196 | So is the whole metadata section, and so is its being invalid. |
| GgufHeader.SecondLook | engine/range_model.cpp:184-185 | The architecture an earlier look left in the index makes no difference to the next. |
| GgufHeader.VerdictStands | engine/range_model.cpp:163-264 | Once a prefix parses or is invalid, every extension gives the same verdict and the same index. |
| GgufHeader.RetryIsFresh | engine/range_model.cpp:655-671 | Parsing more bytes into the index an incomplete parse left behind is parsing them afresh. |
| HeaderParser.Reader.Integer | engine/range_model.cpp:84-93 | The shifting loop reads the little-endian value, and the cursor moves only on success. |
| HeaderParser.Reader.Skip | engine/range_model.cpp:95-99 | Skips just that many bytes or fails in place. |
| HeaderParser.Reader.Text | engine/range_model.cpp:101-108 | Reads a length-prefixed string within the size limit. |
| HeaderParser.Reader.Value | engine/range_model.cpp:121-144 | Skips any metadata value, nested arrays to the depth limit. |
| HeaderParser.ReadEntries | engine/range_model.cpp:179-196 | The metadata loop, with what had been read when bytes ran out. |
| HeaderParser.ReadTensors | engine/range_model.cpp:202-223 | The tensor-info loop. |
| HeaderParser.ParseIndex | engine/range_model.cpp:163-264 | The cursor-driven parser gives the specified verdict and index on every input. |
| HeaderParser.Inspect | engine/range_model.cpp:655-671 | Fetching a megabyte at a time ends with what parsing the first 64 MiB at once would say, and with the whole file's verdict whenever that is one. |
| GgufWriter.WrittenIsRead | engine/range_model.cpp:163-264 | Any header within the parser's limits, whatever values and nested arrays it carries and whatever follows it, written out byte by byte parses to what it says. |
| DataLayout.WrittenMeans | engine/range_model.cpp:197-240 | A written header parses if and only if its alignment is a power of two up to a megabyte, its data begins within the file and its tensors lie at different offsets within the data; the data then begins at the first multiple of the alignment behind the header, and the tensors are those written, in order of offset. |
| DataLayout.CompleteIsLaidOut | engine/range_model.cpp:224-240 | Of any header that parses: the data begins at the first multiple of the alignment behind the tensor infos, and the index lists just those infos, in order of offset. |
| DataLayout.OpeningRefused | engine/range_model.cpp:172-176 | What does not begin with "GGUF", is of a version other than 2 or 3, has no tensors or too many, or too many metadata entries is invalid whatever follows. |
| DataLayout.TakesIff | engine/range_model.cpp:197-200 | The alignments taken are the powers of two up to a megabyte. |
| DataLayout.KeptIff | engine/range_model.cpp:148-158 | The geometry keys kept are a name without a dot and one of the eleven suffixes. |
| GgufWriter.OverlongIsIncomplete | engine/range_model.cpp:101-108 | One such header in full: a first key over the size limit, whatever follows it. |
| DeadHeaders.IncompleteForEverIff | engine/range_model.cpp:163-264 | Every extension of a prefix is called incomplete if and only if the prefix is dead: something in it is over a limit, of an unknown type, nested too deep or without a name, cut-off integers counted at the least they can still be. Extensions by bytes alone decide the same. |
| DeadHeaders.ValueLostIff | engine/range_model.cpp:121-144 | Wherever a metadata value is read, no bytes to come let the parser read it if and only if it is lost. |
| DeadHeaders.GivenUpAlone | engine/range_model.cpp:121-144 | No number is lost; a string is exactly when its length passes the limit; an array is when its elements are of an unknown type or too many, and at the deepest level exactly when it has any. |
| DeadHeaders.TensorLostIff | engine/range_model.cpp:205-223 | Wherever a tensor is read, no bytes to come let the parser decide it if and only if its name is lost: once its length is there, exactly when that is zero or over the limit. |
| DeadHeaders.OverlongIsDead | engine/range_model.cpp:101-108 | A header whose first key is over the size limit is dead. |
| Ranges.CompleteIsSound | engine/range_model.cpp:224-240 | A header that parses has tensors, strictly in order and within the data. |
| Ranges.SpansPartition | engine/range_model.cpp:312-319 | Every place from the first tensor to the end of the file lies in exactly one tensor's span. |
| Ranges.RequiredFine | engine/range_model.cpp:478-491 | For any choice of tensors the coalesced ranges are sorted, apart and non-empty, and add up to the header and the chosen tensors. |
| Ranges.RequiredCovers | engine/range_model.cpp:478-491 | And they cover exactly those bytes. |
| Ranges.RequiredRanges | engine/range_model.cpp:470-493 | The loop does so for the tensors the stage owns. |
| Ranges.FetchedIsCharged | engine/range_model.cpp:470-493 | A stage fetches what the planner counts for it exactly when metadata and names agree on whether it is the last, or nothing is held for being the last. |
| Ranges.NamedLayersMean | engine/range_model.cpp:470-477 | The layers counted by names are one past the highest layer that a name spells. |
| HeaderCases.ChargedNotFetched | engine/range_model.cpp:470-493 | A file of two layers by metadata and three by names: it parses, can be staged, and its last stage fetches other bytes than it is charged. |
| Ranges.BoundedRanges | engine/range_model.cpp:495-505 | Pieces of at most 256 MiB, in order, the same bytes and as many. |
| Ranges.StageDownload | engine/range_model.cpp:470-505 | What a stage downloads: in order, disjoint, each at most 256 MiB, exactly the header and its tensors, and as many bytes as charged when the layer counts agree. |
| Scheduler.RunKeeps | engine/coordinator.cpp:1249-1538 | Every interleaving keeps: one winner per job, answers and counts by where its winner is, no queued job lost, every pending entry its own job's. |
| Scheduler.AnsweredOnce | engine/coordinator.cpp:1292-1323 | A promise is fulfilled at most once under all races, and exactly once when a pushed job is through. |
| Scheduler.Conserved | engine/coordinator.cpp:1312-1320 | In every quiet run completed, failed and cancelled add up to the generate submissions plus one for each both refused and cancelled. |
| Scheduler.PromptConserves | engine/coordinator.cpp:1267-1282 | If inserting, pushing and undoing are one step, there are none of those and the counters add up exactly. |
| Scheduler.CountsExactlyIff | engine/coordinator.cpp:1312-1320 | In a quiet run the counters add up to the generate submissions if and only if no job was both refused and cancelled. |
| Scheduler.RemovesAnothersIff | engine/coordinator.cpp:1277-1282 | A run removes an entry held by another job if and only if in some step of it a refused submitter undoes its insert after a canceller has won the job and the key was entered again. |
| Scheduler.ErasesItsOwn | engine/coordinator.cpp:1534-1538 | So unless a job was both refused and cancelled, whoever erases an entry for a job finds that job in it. |
| Scheduler.CountedTwice | engine/coordinator.cpp:1277-1282 | With room for one job in the queue: one submission counted as failed and as cancelled. |
| Scheduler.TakesAnothersEntry | engine/coordinator.cpp:1278-1281 | With room for one job in the queue: the first submitter's undo removes a resubmission's entry. |

## Left out

- PipelineRoom.NeverFaults: the draft model has a context of its own, and a drafter that runs out of it ends the request too; guesses come from outside the model.
- PipelineTheorems.CommitsGreedily: states greedy decoding on one target function; sampled (non-greedy) chats are refused for speculation by the worker and are not modelled.
- Client.Route.Generate: assumes the drafter answers with as many guesses as asked for (1 to 32; the options allow 1 to 16) and that draft and target tokenize alike, which the code checks.
- StageWorker.Stage.DecodeBatch: requires distinct sessions, which its only caller establishes before the call (engine/stage_worker.cpp:2054-2064).
- StageWorker.Stage.Execute: tokens are sampled greedily, so which token a sampled chat gets is not modelled; an empty payload and a text that tokenizes to nothing are one case; frame sizes, dtypes and column counts are not modelled.
- LayerSizes.TableIsScan: requires that the sums of the table stay within 64 bits; the scan and the table may differ where they wrap.
- SearchPlan.Search: requires measured times not to be negative and 15 times an offer to stay within 64 bits, which every greeting has (times are unsigned, engine/include/provider_owned/formation.hpp:62, and an offer is at most 16 TiB, line 199); otherwise the bounds compare wrapped or negative numbers. Times are real numbers: rounding of doubles, infinities and NaN are not modelled. The first-token estimate is any function here; `FirstToken.EstimateFor` is the one the program uses.
- SearchBounds.EstimateIsClose: requires 15 times the offer to stay within 64 bits, for the same reason.
- SearchPlan.FindPool: takes any orders of the candidates; `Rankings` has the four that are used, and `PlanChoice.AnswerRequest` uses them.
- PlanChoice.AnswerRequest: the check that a model can be staged is reduced to its index being well formed with layers; the KV of an accepted request is taken to be within 64 bits (`KvCheckFooled` is what happens otherwise); the text of refusals is left out.
- Planner.PlanStages: the wanted end of a stage is any function; the program takes the worker's share of the layers left. The architecture check of a stageable model is reduced to its having layers.
- FirstToken.FirstTokenMs: counts of rows are unbounded, so a prompt near 2^32 rows, where rounding up to chunks wraps, is outside the model; times are real numbers.
- Planner.Extend: backtracking is over values; popping a stage and clearing its mark is leaving the branch.
- HeaderParser.Inspect: fetching a range is reading that part of a file of known size; network failures and a size that changes end the original early.
- GgufHeader.VerdictStands: a byte is a character of any code, so the statements hold of bytes in particular.
- Ranges.StageDownload: the program counts named layers in an `int`; a tensor of layer 2147483647, where adding 1 overflows, is outside the model.
- Ranges.RequiredRanges: the counts of tensors and of shared bytes are not modelled.
- DecodeLoop.LoopState.ContinueLoop: requires that the session streams this request and that the round is not empty, as both callers see to; the frames themselves are not modelled.
- Scheduler.AnsweredOnce: clocks, time-outs and the fair queue's order are left to the interleaving; the flag that asks an active job to stop has no effect in the model beyond how the job then ends.
- Sockets, timeouts, discovery, ring dialing, handshakes, the frame codec, option parsing, the console, metrics and timestamps.
- llama.cpp and ggml calls, samplers, tokenization, chat templates and activation packing.
- Draft-model catch-up, n-gram proposals, deferred replay and adaptive width: they change which tokens are guessed, and guesses are arbitrary here.
- Ring mode of the pipelined decoder and `generate_loop`'s client side.
- Replica ownership, selection and manifests, HTTP download, sparse files and hashing.
