# A verified model of the inference engine core

This project models the part of the serving engine that decides who runs, where the key/value cache
lives and which token comes next, and proves the promises the repository makes about it.  The one it
calls the heart of the design is that a request's output must not depend on what else was in the batch
(`docs/03-correctness.md`).  Here that is a theorem about every run: any interleaving of arrivals,
disconnections and scheduler steps, on contiguous slots or paged blocks, with worst-case admission or
with eviction and recompute, static or continuous.

## How it is laid out

There are two levels.

*Specification.*  `Transformer` defines the answer: the full-recompute greedy loop over a network whose
tensor arithmetic is left uninterpreted (an embedding, per layer a cell and a mixing function, a head).
`Storage`, `Attention` and `Forward` define one batched step over block tables, padding and masks.
`Scheduling` is the scheduler as a function on states, one function per method of the source, with the
same branches, and with everything the code can raise as an outcome.  `Invariant` says what every
reachable state satisfies; `PreserveQueues`, `PreserveForward`, `PreserveEviction`, `EvictionLoop` and
`Steps` show that each phase keeps it.  `Runs`, `Progress`, `Fairness`, `Liveness`, `Accounting`,
`Survivors`, `Headroom`, `Disconnection`, `Overcommit`, `Jam` and `Dominance` hold the theorems about
steps and whole runs; `Layouts` relates block tables to contiguous slots.

*Objects.*  The source mutates requests, free lists, tensors and queues in place, and so do the classes
`Requests.Request`, `Managers.BlockManager` and `SlotManager`, `Caches.PagedPool` and `SlotPool`,
`Runner.ModelRunner`, `SingleSequence.SingleRunner`, `ContiguousKVCache` and `NaiveScheduler`,
`Scheduler.Scheduler`, `Engine.Engine` and `Detokenizer.IncrementalDetokenizer`.  Each method is proved
to leave exactly the state that the specification function gives.  `Engine.Engine.GenerateBatch` ties
both levels together: the outputs it returns are those of full recomputation.

`Utf8` and `Detokenizer` cover streaming text, `EngineLoop` the two threads behind the front door.

## Assumptions

- Request ids are distinct.  The source keys its bookkeeping by id; an id may come from a client header.
- `1 <= |prompt| <= 1023`, checked at the front door (`engine/api.py:123`).
- With worst-case admission, the reservation of each arrival covers its prompt.  A budget of zero or more
  always does, and a negative one if and only if it stays within the prompt's last block
  (`Overcommit.ReservationCoversPromptIff`).  The front door does not check the sign; `Overcommit` and
  `Jam` show what goes wrong without it and exactly when.  With a budget of 0 the scheduler and the cached
  loop still emit one token; the naive loop emits none.
- `fits_ever` (`engine/api.py:135`) is assumed only where it is needed: for progress, termination, bounded
  waits, completion, and for the eviction loop leaving somebody in the batch.  The scheduler takes
  requests that fail it, and every safety theorem covers runs that contain them.
- A disconnection sets `cancelled` between steps; the scheduler reads the flag only when it retires.  The naive
  loop reads it before each token and once at the end.
- For the bounded wait and for completion, arrival times do not decrease in submission order.
- List operations are atomic with respect to the other thread.

## Where the documents and the code differ

- The glossary says headroom is kept so that admitting a request does not force an immediate eviction
  (`docs/05-glossary.md:282`).  The headroom leaves out the request being admitted, so a step that admits
  can evict one request, and never more.  `Headroom` gives a concrete case and the exact condition.
- A comment says that without `fits_ever` a request too large for the pool would be preempted and readmitted
  forever (`engine/block_manager.py:74-75`).  It cannot be: evictions are bounded for every request
  (`Runs.EvictionsBounded`).  Once its tokens outgrow the pool it is evicted a last time and then blocks
  the head of the queue (`Jam.LoneRunnerJamsIff`, `Jam.JamIsForever`).
- The naive scheduler reports `length` even after an end of text (`engine/scheduler.py:222`); only token
  sequences are compared with it.

## Model

| member | source | states |
|---|---|---|
| Transformer.Causality | engine/model_runner.py:55-77 | a hidden state or cell at a position depends on no later token, at every layer |
| Transformer.CellsExtend | engine/model_runner.py:167-183 | cells already computed stay right when tokens are appended, which is what makes caching sound |
| Transformer.GreedyExtends | engine/model_runner.py:60-71 | generation only appends and never exceeds the budget |
| Transformer.GreedyStrict | engine/model_runner.py:60-71 | with budget and context left, at least one more token is generated |
| Transformer.GreedyCapped | engine/scheduler.py:37 | capping the budget at the end of the context changes no output |
| Storage.UnitsForIsCeiling | engine/block_manager.py:70-71 | the recursive block count is the code's negated flooring division, for negative counts too |
| Storage.UnitsForExact | engine/block_manager.py:70-71 | the blocks counted hold n tokens and one block fewer would not |
| Storage.UnitsForStep | engine/block_manager.py:94-102 | one more token needs a new block exactly when the tokens so far end on a block boundary |
| Storage.UnitOfIsDivision | engine/cache.py:154-156 | the block index and offset of a position are its quotient and remainder by the block size |
| Storage.PlaceInjective | engine/cache.py:147-159 | different positions of one request never share a cell |
| Storage.WriteRowsReads | engine/cache.py:147-159 | after a batched write through disjoint tables, each row reads its own new cells where it was fed and its old ones before that, whatever the other rows wrote |
| Storage.WriteRowsElsewhere | engine/cache.py:147-159 | a batched write touches no block outside the tables of its rows |
| Attention.Access.ShortcutsAgree | engine/cache.py:65-72 | the two single-row kernels select exactly the keys of the general mask |
| Attention.Access.RealQuerySees | engine/cache.py:58-72 | a real query sees the keys up to its own position and no others |
| Attention.Access.PadQuerySees | engine/cache.py:58-72 | a padding query always has a key to attend to, and none past its own row |
| Attention.Access.VisiblePrefix | engine/cache.py:58-72 | what a real query attends to is the prefix of its own row's keys |
| Forward.AfterRight | engine/model_runner.py:141-161 | after l layers of a batched step every real column holds the state of a full recomputation, and the first l layers of the pool hold every row's cells |
| Forward.RunRight | engine/model_runner.py:132-165 | with earlier cells in place, every row's next token is that of recomputing the row alone, and all its cells are stored |
| Forward.RunKeepsOthers | engine/model_runner.py:132-165 | a request outside the batch keeps every cell, however the batch reuses other blocks |
| Layouts.PagedWriteRefinesSlots | engine/cache.py:93-102 | one batched write through block tables and through slots leaves both layouts showing the same cells |
| Layouts.PagedGatherRefinesSlots | engine/cache.py:161-174 | gathers through the two layouts agree below the row's length |
| Layouts.PagedSessionRefinesSlots | engine/cache.py:147-174 | along any session, from any contents, gathers through block tables and through slots agree for every request: batches serve any subset of the requests, from any position up to where each stopped, and memory grows, moves and is recycled in between |
| Invariant.EmitOk | engine/scheduler.py:176-188 | emitting the recomputed token keeps a request on its reference, with a truthful finish reason and sink log |
| PreserveQueues.CanAllocateSuffices | engine/block_manager.py:78-87 | when can_allocate says yes the assertion inside allocate holds, in all three admission modes |
| PreserveQueues.RetireKeepsInv | engine/scheduler.py:50-67 | retiring keeps the invariant: memory returns, cancelled waiters leave, nobody else is touched |
| PreserveQueues.SubmitKeepsInv | engine/scheduler.py:35-39 | a new request keeps the invariant, whether or not it could ever complete in this pool; with worst-case admission its reservation has to cover its prompt |
| PreserveQueues.CancelKeepsInv | engine/request.py:32 | a disconnection at any moment keeps the invariant (what it brings about is Disconnection.DisconnectedLeaves) |
| Disconnection.FlaggedIff | engine/api.py:183-188 | along any run a request is flagged if and only if it was before or its own client left; nobody else's flag changes |
| Disconnection.DisconnectedLeaves | engine/scheduler.py:50-67 | from the next iteration on a disconnected request is in neither queue and holds no memory, keeps the tokens it had and gets no more, and is marked cancelled if it was running unfinished |
| PreserveForward.PrefillKeepsCore | engine/scheduler.py:102-113 | prefill, of new requests and of evicted ones, never raises and puts exactly the right cells in place |
| PreserveForward.DecodeBatchKeepsInv | engine/scheduler.py:126-136 | one decode for all rows never raises and keeps every row's cells right |
| Steps.PopLoopFacts | engine/scheduler.py:69-84 | admission takes a prefix of the sorted queue and stops only because the queue is empty, the rows are used up or the head does not fit |
| Steps.AdmitFacts | engine/scheduler.py:86-100 | the admission phase never raises; what it admits is the head of the sorted queue, each admitted request gains one token, and it stops only when the queue is empty, the rows are used up or the next in line finds no slot, no commitment or too few blocks |
| Steps.DecodeFacts | engine/scheduler.py:115-136 | the decode phase never raises; survivors gain one token each, victims rank below them |
| EvictionLoop.EnsureLoopFacts | engine/scheduler.py:139-163 | the loop that edits the list it walks terminates, never raises and evicts no more requests than blocks were missing |
| Accounting.EvictionLoopIsRight | engine/scheduler.py:139-163 | survivors and victims partition the batch; survivors have room for their token, victims are queued with their tokens kept; every victim was evicted less often than every survivor, or equally often and admitted later; no more are evicted than blocks were missing; with only unfinished requests running, each of which fits the pool, somebody survives |
| Progress.NeverEmptied | engine/scheduler.py:139-163 | a step with rows to decode decodes at least one of them, also when requests that finished at prefill still hold their blocks |
| Survivors.KeepsAsManyAsFit | engine/scheduler.py:139-163 | the loop evicts the weakest rows and as few as it can: the blocks the survivors need are there, and with the strongest victim among them they would not be |
| Steps.StepKeepsInv | engine/scheduler.py:45-48 | a step from a reachable state never raises and keeps the invariant |
| Runs.EveryRunIsSafe | engine/scheduler.py:45-188 | no run on any backend raises: no allocation assertion, no out of blocks, no index error; runs with requests that can never complete included |
| Runs.OutputIsReference | engine/scheduler.py:45-188 | at all times a request's output is a prefix of what recomputing its prompt alone gives, and equals it once complete |
| Runs.CompleteEqualsNaiveIff | engine/model_runner.py:55-77 | a complete output equals the naive loop's if and only if at least one token was asked for |
| Runs.BatchIndependence | docs/03-correctness.md:80-93 | the same prompt and budget give the same tokens in any two runs, with any neighbours, on any two configurations of the same network |
| Runs.FinishReasonIsRight | engine/scheduler.py:181-184 | the finish reason is length, stop or cancelled exactly when that is what happened |
| Runs.MemoryConserved | engine/block_manager.py:85-108 | every block is free or in exactly one running request's table, once; nobody else holds any |
| Runs.WasteBelowOneUnit | tests/test_paged.py:129-139 | at step boundaries a running request holds exactly the blocks of its stored tokens, wasting less than one |
| Runs.GatheredCellsAreRight | engine/cache.py:161-174 | gathering a running request's stored positions gives exactly the cells of a from-scratch prefill |
| Runs.StreamedExactlyOnce | engine/scheduler.py:187-188 | the sink receives the output tokens once each, in order, with the finished flag on the last only |
| Accounting.SilentOnceFinished | engine/scheduler.py:115-118 | nothing is emitted after the finished flag, whatever happens later |
| Accounting.SilentOnceGone | engine/scheduler.py:50-67 | a request that left the queues, finished or cancelled, is never touched again |
| Runs.EvictionsBounded | engine/scheduler.py:165-174 | wherever a request is, it has been evicted at most as often as it has tokens and less often than its budget |
| Accounting.PreemptionsAddUp | engine/scheduler.py:172-173 | the preemption counter is the sum of the requests' own counts in every reachable state |
| Runs.ReserveStaysWithinCommitment | engine/block_manager.py:63-92 | with worst-case admission, blocks held stay within what was committed and commitments within the pool |
| Progress.SomebodyAdvances | engine/scheduler.py:45-48 | a step with work left after retirement admits or decodes somebody, if whoever runs fits the pool and, when nobody runs, the first in line does |
| Progress.StepShrinksWork | engine/scheduler.py:45-48 | the tokens still to produce never grow in a step, and shrink whenever there is work and the engine is not jammed |
| Progress.Drains | engine/scheduler.py:252-253 | with no arrivals the loop ends within the tokens still to produce plus one steps, under any number of evictions |
| Progress.DrainedIsComplete | engine/block_manager.py:73-76 | once drained, every request not cancelled has its whole reference output and all memory is free |
| Progress.SlotsFitAll | engine/block_manager.py:27-28 | with contiguous slots every accepted request fits, so progress and completion need no further assumption |
| Progress.EvictionsAfterAdmission | engine/scheduler.py:76-80 | a step that admits evicts at most one request, and none if an admitted one finished or does not end on a block boundary |
| Progress.WantsIffBoundary | engine/block_manager.py:94-97 | a running request needs a block for its next token exactly when its stored tokens end on a block boundary |
| Headroom.NobodyEvictedIff | engine/scheduler.py:139-163 | a decode evicts nobody if and only if there is a free block for every row that needs one |
| Headroom.StepEvictsNobodyIff | docs/05-glossary.md:282-283 | a whole step evicts nobody if and only if, after its admissions, there is a free block for every row that needs one |
| Headroom.AdmissionCanEvict | docs/05-glossary.md:282-283 | concrete case against the documented headroom promise: a request is admitted and evicted in one step |
| Headroom.PairCanArrive | engine/scheduler.py:35-39 | that case arises right after start-up |
| Fairness.QueueOrder | engine/scheduler.py:71-72 | the queue is reordered without loss: most evicted first, then earliest arrival, then the earlier place |
| Fairness.StepShrinksWait | engine/scheduler.py:69-84 | each step admits a given waiter or uses up tokens that stand before it |
| Fairness.BoundedWait | engine/scheduler.py:69-84 | an uncancelled waiting request is served within a number of steps fixed when it starts waiting, whatever arrives later; only the running requests, those ahead of it and itself have to fit the pool |
| Fairness.AnswerToClient | engine/scheduler.py:35-39 | in terms of what the client sent: its tokens are a prefix of what recomputing its prompt gives within its own budget, and all of that once complete |
| Fairness.RunLater | engine/scheduler.py:165-188 | along any run a request keeps its parameters and its tokens, evictions included |
| Liveness.UnderWayIsBounded | engine/scheduler.py:69-84 | in every reachable state the running requests and the evicted ones waiting to come back are together at most max_batch |
| Liveness.AdmissionIsMaximal | engine/scheduler.py:86-100 | after the admissions of any step the queue is empty, exactly max_batch requests run, or the first in line finds no room; never more than max_batch run; static batching waits until the batch has drained |
| Liveness.WaitAfterEviction | engine/scheduler.py:165-174 | what stands before an evicted request is at most max_batch contexts, whatever the load |
| Liveness.EverybodyFinishes | engine/scheduler.py:45-188 | a request whose client stays is complete, with its whole reference output, after a number of iterations fixed by the present state, whatever arrives later and however often it is evicted |
| Liveness.ToGoInNumbers | engine/scheduler.py:69-84 | that number: its wait plus one, and max_batch contexts plus two for each token still to come |
| Dominance.CatchesUp | engine/scheduler.py:86-100 | whenever static batching admits, continuous batching has admitted at least as far |
| Dominance.ContinuousDominatesStatic | engine/scheduler.py:3-9 | on the same burst, every request has at least as many tokens after every step, completes no later and is admitted no later under continuous batching |
| Overcommit.ReservationCoversPromptIff | engine/block_manager.py:80-82 | the worst-case reservation covers the prompt if and only if the budget does not reach back behind the prompt's last block |
| Overcommit.ServedIsSafe | engine/block_manager.py:85-88 | under that condition on each arrival a scheduler that refuses nothing never fails the allocation assertion, nor raises anything else |
| Overcommit.LoneRequestRaisesIff | engine/block_manager.py:85-88 | one request on a new engine fails the assertion if and only if its reservation fits the pool and its prompt does not |
| Overcommit.NegativeBudgetRaises | engine/block_manager.py:85-88 | two requests with a negative budget pass the front door and make the allocation assertion fail |
| Jam.HeadServedIff | engine/scheduler.py:69-84 | with nothing running, the first in line gets a token from a step if and only if it fits the empty engine |
| Jam.JamIsForever | engine/scheduler.py:73-75 | otherwise nobody at all gets a token, for any number of steps and whatever arrives, until its client leaves |
| Jam.LoneRunnerJamsIff | engine/block_manager.py:73-76 | a request running alone that outgrows the pool is evicted and jams the queue instead of being readmitted, if and only if its tokens take more blocks than there are; otherwise it gets its token |
| Jam.FrontDoorJamsIff | engine/block_manager.py:73-76 | of what fits_ever lets through, exactly the requests of an optimistically admitting engine whose prompt outgrows the pool do that; all have a negative budget |
| Jam.NegativeBudgetJams | engine/api.py:135 | concrete case: one block, a two-token prompt, minus one token |
| Managers.BlockManager.BlocksNeeded | engine/block_manager.py:70-71 | the block count is exact: enough for n tokens and less than one block too many |
| Managers.BlockManager.FitsEver | engine/block_manager.py:73-76 | yes if and only if prompt and budget together are at most the tokens that all blocks hold |
| Managers.BlockManager.CanAllocate | engine/block_manager.py:78-83 | decides by commitments or by free blocks plus headroom |
| Managers.BlockManager.Allocate | engine/block_manager.py:85-92 | takes the last blocks of the free list, or raises and changes nothing |
| Managers.BlockManager.AppendSlot | engine/block_manager.py:94-102 | takes exactly the missing blocks and says whether there were enough |
| Managers.BlockManager.Free | engine/block_manager.py:104-108 | returns the table to the free list and forgets the commitment |
| Managers.SlotManager.Allocate | engine/block_manager.py:23-25 | hands out the last free slot |
| Managers.SlotManager.Free | engine/block_manager.py:33-36 | the slot goes back on top of the list |
| Managers.FreeUndoesAllocate | engine/block_manager.py:85-108 | allocating and freeing leaves the allocator exactly as it was, free list order included |
| Managers.PopUndoesFree | engine/block_manager.py:105 | freed blocks are handed out again in the same order |
| Caches.PagedPool.Write | engine/cache.py:147-159 | the in-place write, scatter or row by row, stores exactly the batched write of the specification |
| Caches.PagedPool.GatherRow | engine/cache.py:161-174 | copying whole padded blocks and dropping the tail equals reading position by position |
| Caches.SlotPool.Write | engine/cache.py:93-102 | the slot write stores exactly the batched write of the specification |
| Caches.SlotPool.GatherRow | engine/cache.py:104-108 | reading a slot's prefix equals reading position by position |
| Runner.ModelRunner.StepTokens | engine/model_runner.py:132-165 | the layer loop over mutable tensors computes the specified step: same tokens, same pool |
| SingleSequence.ContiguousKVCache.Write | engine/cache.py:30-34 | writes a stretch of positions and leaves the others |
| SingleSequence.SingleRunner.ForwardSingle | engine/model_runner.py:100-128 | a prompt at once or one token at its position gives the last state of a full recomputation and fills the cache |
| SingleSequence.SingleRunner.GenerateCached | engine/model_runner.py:167-183 | cached generation returns what full recomputation generates |
| SingleSequence.CachedEqualsNaiveIff | engine/model_runner.py:174-183 | it equals the naive loop exactly when at least one token is asked for |
| SingleSequence.SingleRunner.Run | engine/model_runner.py:55-77 | the naive loop yields the tokens of the greedy sequence up to the moment the client leaves, all of them if it stays and none if it had left before; the finished flag goes with the last token only |
| SingleSequence.UntilGoneIsExact | engine/model_runner.py:58-60 | that fixes the output: its length is the first moment at which the client is gone, or that of the whole sequence |
| SingleSequence.StopsHere | engine/scheduler.py:216-218 | a token is the last one exactly when one of the three stopping conditions holds |
| SingleSequence.NaiveScheduler.Step | engine/scheduler.py:207-223 | serves the first request whose client is there, to the end or until its client leaves, says which, and touches no other |
| Requests.Request.Emit | engine/scheduler.py:176-188 | the new state of a request that receives a token |
| Scheduler.Scheduler.constructor | engine/scheduler.py:26-33 | starts in the initial state, which satisfies the invariant |
| Scheduler.Scheduler.Submit | engine/scheduler.py:35-39 | refines the specification's submit |
| Scheduler.Scheduler.Retire | engine/scheduler.py:50-67 | the filter, marking and freeing loops refine the specification's retire |
| Scheduler.Scheduler.PopAdmissible | engine/scheduler.py:69-84 | sort and popping loop refine the specification's admission |
| Scheduler.Scheduler.Admit | engine/scheduler.py:86-100 | static and continuous admission refine the specification and never raise |
| Scheduler.Scheduler.Prefill | engine/scheduler.py:102-113 | one padded pass and the emit loop refine the specification's prefill |
| Scheduler.Scheduler.EnsureCapacity | engine/scheduler.py:139-163 | the while loop over the list it edits refines the specification's eviction loop |
| Scheduler.Scheduler.Preempt | engine/scheduler.py:165-174 | eviction in place refines the specification's preempt |
| Scheduler.Scheduler.Decode | engine/scheduler.py:115-136 | refines the specification's decode; the raise is unreachable |
| Scheduler.Scheduler.Step | engine/scheduler.py:45-48 | one step of the object is one step of the specification and keeps the invariant |
| Engine.FitsEverIs | engine/api.py:133-137 | the allocator object's answer is the specification's fits_ever, and exact arithmetic on tokens |
| Engine.Engine.Receive | engine/api.py:118-138 | the front door answers 400, 413 or accepts, each exactly when it should; what it accepts is queued, and with a budget of zero or more it can complete, so an engine whose requests all fit stays one |
| Engine.Engine.Disconnect | engine/api.py:183-188 | setting the flag on the object is the specification's disconnection; a finished request is left alone |
| Engine.Engine.RunUntilIdle | engine/scheduler.py:252-253 | if every request fits the pool the loop terminates; every request only gains tokens; nothing is left to do |
| Engine.Engine.GenerateBatch | engine/scheduler.py:248-254 | each prompt of the batch gets exactly what recomputing that prompt alone generates |
| Utf8.DecodeSplits | engine/detokenizer.py:17-24 | text that does not end in U+FFFD is final: more bytes only add characters behind it |
| Utf8.DecodeEncode | engine/detokenizer.py:17-31 | decoding inverts encoding for every sequence of Unicode scalar values |
| Utf8.EncodeDecode | engine/detokenizer.py:17-31 | bytes whose decode shows no U+FFFD are exactly the encoding of what they decode to |
| Utf8.BrokenIsMaximal | engine/detokenizer.py:26-27 | each U+FFFD made from ill-formed bytes covers the longest stretch that begins some character, or a single byte that begins none |
| Detokenizer.PushReleases | engine/detokenizer.py:17-24 | a push releases exactly the text between the read marks |
| Detokenizer.StreamEqualsDecode | engine/detokenizer.py:17-31 | all pushes plus the flush are the plain decode of the whole id list |
| Detokenizer.ReleasedIsFinal | engine/detokenizer.py:20-23 | released text stays a prefix of the decode however the stream goes on |
| Detokenizer.NothingHeldBackIff | engine/detokenizer.py:21-24 | nothing is held back if and only if the text so far does not end in U+FFFD |
| Detokenizer.WellFormedStream | engine/detokenizer.py:1-6 | a well-formed text is reproduced exactly however its characters are cut into tokens, and no push shows a character that is not in it |
| Detokenizer.IncrementalDetokenizer.Push | engine/detokenizer.py:17-24 | the object releases what the specification releases and stays valid |
| Detokenizer.IncrementalDetokenizer.Flush | engine/detokenizer.py:26-31 | the object emits everything not yet released |
| EngineLoop.LetInIff | engine/scheduler.py:296-308 | in every interleaving a new request enters the inbox if and only if there is no limit or the two sizes, read at their two moments, add up to less than it |
| EngineLoop.NoLimitNoRejection | engine/scheduler.py:299-308 | with no limit configured nothing is ever rejected |
| EngineLoop.FirstInFirstSeen | engine/scheduler.py:310-316 | requests reach the scheduler in the order in which they were accepted |
| EngineLoop.NobodyIsShutOut | engine/scheduler.py:310-321 | from any point of any interleaving the engine thread alone can go on so that a given accepted request gets into the batch |
| EngineLoop.EveryRequestInOnePlace | engine/scheduler.py:296-321 | in every interleaving each accepted request is in exactly one place, and nothing else is anywhere |
| EngineLoop.LoadIsBounded | engine/scheduler.py:296-308 | in every interleaving of the two-read depth check, at most max_queue + max_batch + 1 requests are accepted and unfinished |
| EngineLoop.BoundIsReached | engine/scheduler.py:296-308 | that bound is reached |

## Left out

- Tensor arithmetic, rounding, layer norm, attention weights and argmax ties: uninterpreted deterministic functions, so differences between batch shapes in floating point are outside the claim.
- Keys and values are one cell per position; the head dimension is not modelled.
- Metrics, statistics and the `live` dictionary that feeds them, time stamps other than the arrival order, and budgets in bytes.
- HTTP, asyncio, logging and health endpoints; only the front-door checks are used.
- `run_schedule`: the runs it drives are interleavings of arrivals and iterations, which the run theorems cover.
- Requests that share an id: refused in the model, not detected by the code.
- Whether `fits_ever` is exact: it is slightly conservative, since the last token is never stored; only that it suffices is proved.
- The tokenizer's clean-up of spaces and its special tokens: decoding is joining bytes and decoding UTF-8.
- Detokenizer.IncrementalDetokenizer.Push: requires the validity that a flush after an incomplete character gives up; the server flushes once, at the end.
- EngineLoop.LoadIsBounded: for one producer thread, as in the server's event loop; which requests finish, leave or are evicted is left open instead of being tied to the scheduler state.
- Runner.ModelRunner.StepTokens: requires tables that cover the tokens fed, where the code would raise an index error; the specification has that outcome and the scheduler is proved never to reach it.
- SingleSequence.SingleRunner.ForwardSingle: requires a whole prompt or a single token, the two uses its own documentation names.
- Scheduler.Scheduler.Submit: requires a fresh id.
- The attention matrix is not built in place: a layer's mixing is one function of the keys that the mask lets through.
- Sorting inside the scheduler object is a recursive function on the list, standing for the library's stable sort.
