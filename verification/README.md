# Verified model of the hybrid prefix cache

The repository extends vLLM's scheduler with a prefix cache for a model that mixes attention layers and recurrent
Gated-DeltaNet layers. Keeping the attention blocks of a shared prefix is not enough: the recurrent state at the block
boundary must be saved, evicted and restored with them. Around that cache the repository has its own slot manager for
recurrent states, its own pipelined block transfer, a tiled attention and a chunked recurrence. In each of them a fast
path must agree with a simple one; this project states what agreeing means and proves it for every input, run or
interleaving.

| file | content |
|---|---|
| RealSums, IntFacts, Sequences | finite sums, division facts, options and sequences |
| DeltaRule, SegmentedPrefill | the chunked gated delta rule against the token-by-token rule, and the segment loop around it |
| PagedAttention | tiled online softmax over paged blocks against causal attention; identical tiles for warm and cold runs |
| MambaCache | in-place permutation of state slots against a map from pairs to states |
| BlockTransfer | double-buffered copies between GPU and CPU on an asynchronous stream against atomic copies |
| GdnPrefix, GdnPolicy, GdnScheduling | boundary arithmetic, the index of saved states, and the planning of prefill steps |
| GdnCaptures | which states a request captures, step by step and over a whole prefill |
| GdnSegments | where planned runs stop, and when they cut a prompt like an uninterrupted run |
| GdnColdRun | the uninterrupted run whose cuts the segment offsets reproduce |
| GdnWorker, GdnProtocol | one step of the worker; scheduler and worker as a step system with actions in flight |
| GdnResume, GdnStale, GdnEveryModel | what a preempted request resumes from, what that does to later states, and the same for all models at once |
| GdnWindow | a prompt that ends in a wrong convolution window |
| SchedulingBudget, SchedulerQueues | the token budget and the queue operations |
| BatchDecisions, Scheduler | what each group's turn calls for, and one chunked scheduling step over the three queues |
| PrefixHits, CacheTiers | which blocks of a prompt survive until it reaches them; evictions as a relation on values |
| TraceSimulator, LostBlock | the offline two-tier cache simulation, and a trace that loses a block |
| SequenceReplication | token data held by scheduler and worker, and deltas streamed to the client |
| ExpertGrouping | grouped mixture-of-experts accumulation |

Objects that the code updates in place are classes with a specification function or relation; algorithms on buffers
stay loops over arrays or fields. The meaning of those specifications is proved in lemmas beside them.

## Premises

* Content digests are ideal: a block's digest is the token prefix that ends with the block.
* Arithmetic of the kernels is over the exact reals; `exp` is any positive function that turns sums into products. The
  tile-identity theorems need neither: they hold for any update operator.
* The prefix-state protocol serves one sequence at a time (README.md:51; one action group per step,
  qwen3_6_scripts/patch_model_runner.py:242-251), so a prefill step has a whole chunk of tokens to spend. The
  scheduler chunk is a multiple of the block size (qwen3_6_scripts/scheduler.py:1982-1989), and a block holds at least a
  convolution window (the kernel size minus one).
* The block manager and the clock are parameters that may answer anything: how many leading blocks are live, whether a
  group can be allocated or swapped in, whether it can grow after so many others have made room, whether the delay has
  passed. Each of these questions is asked once in a step. A scheduler preempts in one way, by recomputation or by
  swapping.
* A prefill step computes the tokens between its physical context and its logical end.
* The device executes its stream in order and advances at arbitrary moments; the host sees it only through events.

## What turned out false

* A request preempted for recomputation keeps its state slot, because it is not reported as finished. If it then finds
  nothing to restore, it starts its prompt on top of the old state. `ResumeUnderEveryModel` and `PromptUnderEveryModel`
  say exactly when its start and the end of its prompt are right, `CacheEndExactly` when the cached states are.
  `ResumedTwice` is a run that goes wrong; in `WrongStateTravels` the wrong state is cached and a later request restores
  it. The state theorems (`CachedStatesAreCold`, `PromptEndsCold`) are therefore proved for the runs in which every
  resumption restores a state.
* A step with fewer tokens than the convolution window fills the saved window with zeros. `WindowKept`, `StepEndState`
  and, for whole runs, `PromptEndsCold` give the exact condition under which the window is right, `FitsMeans` says it in
  terms of the tokens, and `ShortLastStep` is a run that ends in a wrong one.
* A resumed run does not always cut its prompt where an uninterrupted run does. A step that stops to capture a state
  brings a capture boundary of its own (`CappedRunAddsBoundary`). `WarmEqualsCold` and `PlannedEqualsCold` give the exact
  condition; `NothingToCapture` and `FinalToCapture` spell it out for the two usual cases. With nothing to capture the
  runs agree except with one-token blocks, where one boundary can be missed.
* The segment offsets are documented to reproduce the boundaries of a cold fine32/direct run. They do, except with
  one-token blocks (`BoundariesAreCuts`, `ColdRunMissesBoundary`).
* `_clean_up_first_bs_blocks` calls `_swap_indices`, which the class does not define. It is reached when a pair that does
  not run sits in the slot of a batch request reported as finished (`FinishedInBatch`), and also when such a pair is
  moved there to make room for a running one (`MovedIntoFinished`). `PrepareCurrentRun` gives the exact condition on the
  index before the call.
* A block found in a tier when a prompt step begins can be evicted before the step reaches it (`EvictedBeforeReached`).
  `HitsAreFound` says exactly when that does not happen.
* The full message of the first prefill step does not clear the unsent tokens. A token appended before it would be sent
  twice (`AppendedTooEarly`); `FullMessageFollows` gives the exact condition, which the engine meets because it
  samples only after computing.

## Model

| member | source | states |
|---|---|---|
| GdnProtocol.RunsMirror | qwen3_6_scripts/scheduler.py:1516-1622 | in every run the index stays within its capacity, and a worker with nothing left to do holds exactly the keys of the index |
| GdnProtocol.RunsNeverFail | qwen3_6_scripts/scheduler.py:1516-1622 | in every run no event that may come next makes the scheduler or the worker raise: no restore is missing or beyond the live prefix, no offset is out of range, no limit is met |
| GdnProtocol.CachedStatesAreCold | qwen3_6_scripts/qwen3_5.py:2191-2282 | in every run in which each resumption restores a state: each state in the worker cache is the cold left-to-right state of exactly the prefix its key names |
| GdnProtocol.PromptEndsCold | qwen3_6_scripts/qwen3_5.py:1034-1111 | in such a run a request ends its prompt in the cold recurrent state, restored or not; and in the cold convolution window too if and only if the window of its last step fits |
| GdnWindow.ShortLastStep | qwen3_6_scripts/qwen3_5.py:1042-1045 | a concrete run, nothing preempted, whose last step is shorter than the window and leaves a wrong one |
| GdnEveryModel.ResumeUnderEveryModel | qwen3_6_scripts/scheduler.py:1846-1855 | in any run sound so far, a preempted request starts its first step from the true state under every model on the same schedule if and only if it finds a state to restore |
| GdnEveryModel.PromptUnderEveryModel | qwen3_6_scripts/scheduler.py:1846-1855 | in a run sound until its last admission, the prompt ends in the cold recurrent state under every model on the same schedule if and only if that admission was not a resumption without a state to restore |
| GdnEveryModel.SameEvent | qwen3_6_scripts/scheduler.py:1516-1622 | what may happen next and what it does to the scheduler do not depend on the model |
| GdnResume.ResumeStart | qwen3_6_scripts/scheduler.py:1846-1855 | the same for one model whose recurrent state has a size that every token increases: in any run sound so far the start is true if and only if a state is restored |
| GdnResume.PromptEndExactly | qwen3_6_scripts/scheduler.py:1846-1855 | the same for one model whose recurrent state counts its tokens |
| GdnStale.CacheEndExactly | qwen3_6_scripts/qwen3_5.py:2271-2282 | in a run sound until its last admission, the states held once all actions in flight are done are cold if and only if that admission was not a resumption without a state to restore, or nothing captured since is still held (states that count tokens) |
| GdnResume.RunTouches | qwen3_6_scripts/scheduler.py:1846-1855 | in any run the slot of a running or preempted request, once the actions in flight are done, has run at least one token |
| GdnResume.RequestTokens | qwen3_6_scripts/scheduler.py:1846-1855 | in any run a running or preempted request keeps all its tokens: those it arrived with, those it generated and those pending when it was preempted, in order |
| GdnResume.SentTokens | qwen3_6_scripts/scheduler.py:1516-1622 | each admission, continued prefill and decode step sends exactly one action, with exactly those tokens; nothing else is sent |
| GdnResume.DebtStays | qwen3_6_scripts/scheduler.py:679-691 | the surplus of tokens a slot has run over what its request accounts for does not change until the next admission |
| GdnResume.ResumedTwice | qwen3_6_scripts/scheduler.py:1846-1855 | a concrete run in which a resumed request without a restore ends its prompt in a wrong recurrent state |
| GdnResume.WrongStateTravels | qwen3_6_scripts/scheduler.py:1093-1168 | a concrete run in which such a request leaves a wrong state in the worker cache under a valid key, and the next request restores it and ends wrong too |
| GdnProtocol.EventKeeps | qwen3_6_scripts/scheduler.py:1516-1622 | arrival, resumption, continued prefill, decode, preemption, finish and worker step each keep the mirror invariant, and each restorable one keeps the state invariant |
| GdnProtocol.RunKeeps | qwen3_6_scripts/scheduler.py:1516-1622 | both invariants hold after any run, by induction over its events |
| GdnProtocol.StartKeeps | qwen3_6_scripts/scheduler.py:1516-1622 | admitting a request (select, attach, first step, admit) keeps both invariants |
| GdnProtocol.ContinueKeeps | qwen3_6_scripts/scheduler.py:679-691 | a later prefill step keeps both invariants |
| GdnProtocol.WorkKeeps | qwen3_6_scripts/qwen3_5.py:2191-2282 | the worker executing the oldest action in flight keeps both invariants |
| GdnProtocol.AdmissionMirrors | qwen3_6_scripts/scheduler.py:1571-1591 | after an admission the index is (old keys minus evicted) plus captured, which is what the worker will hold, and the key restored in the same step is not evicted |
| GdnProtocol.PointsPlanned | qwen3_6_scripts/scheduler.py:1571-1588 | every planned capture point has an offset in (0, query length], at least a window in, distinct offsets, at most two, and names the prefix it stands at |
| GdnCaptures.SentCaptures | qwen3_6_scripts/scheduler.py:1560-1591 | the action of a prefill step captures exactly the states to keep whose boundary lies in the step, at that boundary, and each is in the index afterwards; under admission64 those are the targets of the request, under fine32 the final state of the step end |
| GdnCaptures.RunCaptures | qwen3_6_scripts/scheduler.py:1516-1622 | so does every prefill action of every run, and exactly the admissions and continued prefills send one |
| GdnCaptures.EachTargetOnce | qwen3_6_scripts/scheduler.py:1560-1591 | under admission64, in any run whose last admitted request has its whole prompt sent: each of its targets was captured by exactly one action since its admission, and nothing else was |
| GdnCaptures.AdmissionDecides | qwen3_6_scripts/scheduler.py:1093-1144 | in any reachable state the first action of an admitted request restores the longest prefix that is live, eligible and in the index, and starts right behind it |
| GdnProtocol.SegmentsPlanned | qwen3_6_scripts/scheduler.py:1575-1585 | every planned segment offset lies in (0, query length) and a step has at most three, so the worker limit of 128 is never met |
| GdnProtocol.StepPlanned | qwen3_6_scripts/scheduler.py:1146-1168 | with a whole chunk to spend a step is always planned: it moves on, stays in the prompt and on whole blocks |
| GdnProtocol.SendAction | qwen3_6_scripts/qwen3_5.py:2191-2282 | appending an action to the queue in flight commutes with draining the queue |
| GdnWorker.ForwardIsCold | qwen3_6_scripts/qwen3_5.py:1034-1111 | from the true state of a context every position of the step has its true recurrent state and window |
| GdnWorker.WindowKept | qwen3_6_scripts/qwen3_5.py:1042-1045 | the saved window is the true one if and only if the step holds a window of tokens or the entries it drops were zero |
| GdnWorker.FitsMeans | qwen3_6_scripts/qwen3_5.py:1042-1045 | in terms of the tokens: the window fits if and only if the inputs of the context that belong into it are zero |
| GdnWorker.StepEndState | qwen3_6_scripts/qwen3_5.py:1037-1110 | at the end of a step from the true state the recurrent state is true, and the whole slot is true exactly under that condition |
| GdnWorker.CaptureIsTrue | qwen3_6_scripts/qwen3_5.py:1053-1057 | a state captured at least a window into the step is the cold state of its position |
| GdnWorker.ExecuteRuns | qwen3_6_scripts/qwen3_5.py:2191-2240 | an action whose restore is held and not evicted and whose offsets pass the checks raises nothing and leaves the announced keys, although eviction precedes restore |
| GdnWorker.PrefillIsCold | qwen3_6_scripts/qwen3_5.py:2191-2282 | evict, restore, forward, capture: from the true start state every cached state stays true, the recurrent state at the end is true, and the window exactly if it fits |
| GdnWorker.DecodeIsCold | qwen3_6_scripts/qwen3_5.py:655-670 | a decode step continues a true slot truly and leaves the cache alone |
| GdnWorker.SavedKeys | qwen3_6_scripts/qwen3_5.py:2271-2282 | the save loop adds exactly the captured keys |
| GdnWorker.CheckCaptures | qwen3_6_scripts/qwen3_5.py:2215-2228 | the capture loop raises exactly for an offset outside (0, query length] or a repeated one, else for more than two points |
| GdnWorker.CheckSegments | qwen3_6_scripts/qwen3_5.py:2231-2240 | the segment loop raises exactly for an offset outside (0, query length), else for more than 128 distinct offsets |
| GdnWorker.PrefixStateWorker.Evict | qwen3_6_scripts/qwen3_5.py:2191-2193 | the eviction loop removes exactly the listed keys |
| GdnWorker.PrefixStateWorker.Prefill | qwen3_6_scripts/qwen3_5.py:2191-2282 | the loops over evictions, checks and captures refine the one-step meaning of an action; a failed check leaves the evictions done |
| GdnPolicy.AdmitRecent | qwen3_6_scripts/gdn_prefix.py:274-287 | keys at the recent end survive an admission that fits beside them, and the index ends as old minus evicted plus admitted, even when a key is evicted and admitted again |
| GdnPolicy.RoomForAll | qwen3_6_scripts/gdn_prefix.py:274-287 | nothing is evicted while the index holds no more than 32 states under fine32 or 64 under admission64 |
| GdnPolicy.NeverMore | qwen3_6_scripts/gdn_prefix.py:274-287 | and it never holds more |
| GdnPolicy.MoveToEndDistinct | qwen3_6_scripts/gdn_prefix.py:245-256 | using a key keeps the index free of duplicates and changes no other membership |
| GdnPolicy.GdnPrefixStatePolicy.Select | qwen3_6_scripts/gdn_prefix.py:245-256 | of the first keys of the list the last resident one is chosen, if any is, and becomes the most recent; nothing else changes |
| GdnPolicy.GdnPrefixStatePolicy.AdmitKeys | qwen3_6_scripts/gdn_prefix.py:274-287 | the in-place admission loop equals the admission function and keeps the index distinct and within capacity |
| GdnPolicy.GdnPrefixStatePolicy.DropOverflow | qwen3_6_scripts/gdn_prefix.py:284-286 | exactly the oldest surplus keys leave, oldest first |
| GdnScheduling.FastForwardSafe | qwen3_6_scripts/scheduler.py:52-90 | whichever branch is taken, both fallbacks included: checkpoint < logical end <= prompt length, the tokens past the checkpoint fit the budget, whole blocks unless the prompt ends; and the step goes exactly as far as the budget, the next multiple of the alignment and the prompt let it |
| GdnScheduling.NumNewTokensFits | qwen3_6_scripts/scheduler.py:1975-1992 | the chunk fits the remaining budget, is zero exactly when that holds neither a block nor the rest, and is all that is left or the most whole blocks that fit |
| GdnScheduling.AttachMeaning | qwen3_6_scripts/scheduler.py:1093-1144 | the attached restore is resident, live and strictly inside the prompt; at most two targets; under admission64 every target lies strictly beyond the restore point |
| GdnScheduling.RestoreIsLongest | qwen3_6_scripts/scheduler.py:1093-1121 | unless the cache is off a request resumes from the longest prefix that is live, eligible and saved, and it does resume if there is one |
| GdnScheduling.TargetsExactly | qwen3_6_scripts/scheduler.py:1122-1144 | the states to capture are exactly, under admission64, the longest live prefix and the final one, each unless it is saved already; under fine32 the final one; none when the cache is off; and none twice |
| GdnScheduling.EligibleExactly | qwen3_6_scripts/gdn_prefix.py:115-139 | per restore mode, exactly which prefixes may be restored, in terms of their boundary and the prompt length |
| GdnScheduling.FinalExactly | qwen3_6_scripts/gdn_prefix.py:88-139 | with the whole prompt hashed the final capture key is exactly the longest prefix that may be restored |
| GdnScheduling.FinalIsLongest | qwen3_6_scripts/gdn_prefix.py:88-139 | the final capture key is the longest prefix a later request could still restore |
| GdnScheduling.FinalInside | qwen3_6_scripts/gdn_prefix.py:88-112 | the final capture key names a whole-block prefix strictly inside the prompt |
| GdnScheduling.LiveMeaning | qwen3_6_scripts/scheduler.py:1097-1121 | the live keys are in ascending length, name prefixes still held, and are all eligible |
| GdnScheduling.FirstStepGood | qwen3_6_scripts/scheduler.py:1146-1168 | the first step of any request, fast-forwarded and capped or not, ends past its restore point, inside the prompt, within the budget, and passes no pending target; it is left out only when no tokens can be given |
| GdnScheduling.NextStepGood | qwen3_6_scripts/scheduler.py:689-691 | the same for every later step |
| GdnScheduling.RunPrefill | qwen3_6_scripts/scheduler.py:679-691 | a whole prefill under any budgets of at least one block, whole blocks or not, ends; it is the planned run, and its steps tile (restore point, length] without gap or overlap |
| GdnScheduling.PlannedTiles | qwen3_6_scripts/scheduler.py:679-691 | each run that follows the planners tiles the prompt in that way, on whole blocks when the budgets are whole blocks |
| GdnScheduling.CapturedOnce | qwen3_6_scripts/scheduler.py:518-556 | under admission64 every target is reached by exactly one step of the prefill, at that step's end |
| GdnPrefix.WarmEqualsCold | qwen3_6_scripts/gdn_prefix.py:181-207 | for any whole-block steps from c to the prompt end, the cut boundaries are exactly the cold boundaries past c if and only if every step fits: its end and the capture boundary it brings are cold ones, and with one-token blocks none just below its end is missed |
| GdnPrefix.WhenStepFits | qwen3_6_scripts/gdn_prefix.py:181-207 | with blocks of at least two tokens a step end inside the prompt fits if and only if it is a cold boundary and its own capture boundary lies before the step or on a multiple of the chunk |
| GdnPrefix.ChunkRunEqualsCold | qwen3_6_scripts/gdn_prefix.py:181-207 | a run that stops only at multiples of the chunk cuts exactly the cold boundaries, save in the one missing case (one-token blocks and a step end one token before a prompt end one past a chunk) |
| GdnPrefix.ColdIsCanonical | qwen3_6_scripts/gdn_prefix.py:181-207 | the boundaries of an uninterrupted run in closed form: below the end, the multiples of the chunk, the positions one block (two tokens for one-token blocks) below them, and the replayable boundary of the prompt; and the end itself |
| GdnColdRun.BoundariesAreCuts | qwen3_6_scripts/gdn_prefix.py:181-207 | the documented purpose: the boundaries are exactly where an uninterrupted fine32/direct prefill is cut, by its step ends and its captures, if and only if it is not the one missing case of one-token blocks |
| GdnColdRun.ColdRunMissesBoundary | qwen3_6_scripts/gdn_prefix.py:181-207 | a concrete prompt of five tokens in one-token blocks where the offsets have a cut that the run does not |
| GdnPrefix.ColdIsWarm | qwen3_6_scripts/gdn_prefix.py:181-207 | with blocks of at least two tokens every cold boundary past the checkpoint is a boundary of the resumed run, wherever its steps stop |
| GdnSegments.PlannedEqualsCold | qwen3_6_scripts/scheduler.py:1575-1585 | a run as the planners make it, stops at states to capture included, cuts the cold boundaries past its checkpoint if and only if each of its step ends fits |
| GdnSegments.CapturesDecide | qwen3_6_scripts/scheduler.py:518-556 | with blocks of at least two tokens that is decided by the captures off the chunk grid alone |
| GdnSegments.HybridFirst | qwen3_6_scripts/scheduler.py:52-90 | the first hybrid step runs to the next multiple of the chunk or the prompt end, unless it meets a state to capture |
| GdnSegments.NothingToCapture | qwen3_6_scripts/scheduler.py:518-556 | a planned hybrid run with nothing to capture cuts exactly the cold boundaries, save in the missing case of one-token blocks |
| GdnSegments.FinalToCapture | qwen3_6_scripts/scheduler.py:518-556 | a planned hybrid run with only its final state to capture cuts exactly the cold boundaries if and only if that state stands on a multiple of the chunk, one block past one, or one block past the checkpoint |
| GdnSegments.CappedRunAddsBoundary | qwen3_6_scripts/scheduler.py:518-556 | a concrete planned run with 16-token blocks that cuts a boundary an uninterrupted run does not |
| GdnPrefix.CollectBoundaries | qwen3_6_scripts/gdn_prefix.py:195-206 | the loop over step ends collects exactly the multiples of the chunk below the end and the direct capture points of all step ends |
| GdnPrefix.CanonicalSegmentOffsets | qwen3_6_scripts/gdn_prefix.py:181-207 | the returned offsets are ascending and are exactly the boundaries strictly inside the step |
| GdnPrefix.AtMostThreeCuts | qwen3_6_scripts/gdn_prefix.py:181-207 | a step of at most one scheduler chunk has at most three inner cuts |
| GdnPrefix.CaptureIsReplayable | qwen3_6_scripts/gdn_prefix.py:88-101 | the direct capture boundary of a step is the longest whole-block prefix that leaves two tokens to replay |
| GdnPrefix.RestoreAlignment | qwen3_6_scripts/gdn_prefix.py:38-55 | the alignment is the block, 64 tokens or the scheduler chunk, as the mode says, and is accepted exactly when it is a positive multiple of the block size |
| GdnPrefix.CapturePointsForStep | qwen3_6_scripts/gdn_prefix.py:142-158 | the selection loop equals the specification, with the error for more than two points |
| GdnPrefix.SelectSound | qwen3_6_scripts/gdn_prefix.py:142-158 | selected points are sorted by offset, lie in the step and stand at the boundary of a target |
| GdnPrefix.SelectComplete | qwen3_6_scripts/gdn_prefix.py:142-158 | every target boundary inside the step has a point |
| GdnPrefix.CapPrefillEnd | qwen3_6_scripts/gdn_prefix.py:161-178 | the capping loop equals the specification |
| GdnPrefix.CapIsEarliest | qwen3_6_scripts/gdn_prefix.py:161-178 | the capped end is the earliest target strictly inside the step, or the step end |
| DeltaRule.ChunkedRule | qwen3_6_scripts/qwen3_5.py:673-753 | for every length, chunk size and initial state the chunked rule (padding, cumulative decay, forward substitution, chained chunks) returns the outputs and final state of the token-by-token rule |
| DeltaRule.Chunk | qwen3_6_scripts/qwen3_5.py:736-747 | one chunk computes the outputs and state of the token-by-token rule from any entering state |
| DeltaRule.SubstituteInPlace | qwen3_6_scripts/qwen3_5.py:717-722 | the in-place forward substitution leaves the substituted matrix of the one it started from |
| DeltaRule.SolvesSystem | qwen3_6_scripts/qwen3_5.py:717-722 | the substituted matrix plus the identity solves the unit lower-triangular system |
| DeltaRule.SolutionUnique | qwen3_6_scripts/qwen3_5.py:717-722 | that system has one solution |
| DeltaRule.WritesSatisfySystem | qwen3_6_scripts/qwen3_5.py:715-724 | the values the token-by-token rule writes satisfy the chunk's triangular system |
| DeltaRule.WritesAreSolved | qwen3_6_scripts/qwen3_5.py:722-740 | hence the chunk's solved values are the written ones |
| DeltaRule.StateClosedForm | qwen3_6_scripts/qwen3_5.py:755-800 | the state after i tokens is the decayed initial state plus the decayed writes |
| DeltaRule.ChunkOutputsAgree | qwen3_6_scripts/qwen3_5.py:738-742 | the chunk's masked query product is the token-by-token output |
| DeltaRule.ChunkStateAgrees | qwen3_6_scripts/qwen3_5.py:743-747 | the chunk's state update is the token-by-token state |
| DeltaRule.RecurrentRule | qwen3_6_scripts/qwen3_5.py:755-800 | the recurrent loop equals the specification of the token rule |
| DeltaRule.CutAnywhere | qwen3_6_scripts/qwen3_5.py:1086-1110 | cutting the token sequence anywhere and chaining the state changes nothing |
| DeltaRule.PaddingKeepsState | qwen3_6_scripts/qwen3_5.py:694-699 | padding with zero key, beta and gate leaves the state alone |
| DeltaRule.ChainChunks | qwen3_6_scripts/qwen3_5.py:736-747 | chaining the state over the chunks reaches the token-by-token state at every chunk end |
| SegmentedPrefill.SegmentEnds | qwen3_6_scripts/qwen3_5.py:638-644 | the segment ends are ascending and are exactly the cuts up to the sequence length |
| SegmentedPrefill.Prefill | qwen3_6_scripts/qwen3_5.py:1086-1112 | whatever the sub-chunk size and the cut offsets, the segment loop returns the uncut outputs and state, and captures the true state at every capture offset |
| PagedAttention.ForwardPrefix | qwen3_6_scripts/paged_attn.py:1843-1890 | every query row gets full causal softmax attention over exactly the keys at positions up to its own, each once; each segment ran the tiles of its context and its own keys, in order |
| PagedAttention.ForwardSegment | qwen3_6_scripts/paged_attn.py:2134-2204 | one query segment over paged blocks, preceding query keys and masked current keys gives the same, and returns the list of tiles it ran |
| PagedAttention.UpdateRepresents | qwen3_6_scripts/paged_attn.py:2219-2236 | one online softmax update extends what the accumulators represent by one tile, whatever was masked |
| PagedAttention.QuotientIsSoftmax | qwen3_6_scripts/paged_attn.py:2199-2204 | the final quotient of the accumulators is the softmax average |
| PagedAttention.NeverUndefined | qwen3_6_scripts/paged_attn.py:2219-2236 | no update evaluates minus infinity minus minus infinity or takes the exponential of a positive number |
| PagedAttention.Buffers.UpdateOnlineSoftmax | qwen3_6_scripts/paged_attn.py:2219-2236 | the in-place update of all rows leaves each row as the update function gives it, and keeps what the rows represent |
| PagedAttention.GatherTile | qwen3_6_scripts/paged_attn.py:2153-2176 | the tile gathered through the block table is the logical slice of the context |
| PagedAttention.ContextTileSpans | qwen3_6_scripts/paged_attn.py:1223-1246 | the spans produced by the loop are those of the specification |
| PagedAttention.SpanIsTile | qwen3_6_scripts/paged_attn.py:1223-1246 | each span selects one tile of context followed by preceding query keys |
| PagedAttention.WarmTilesEqualCold | qwen3_6_scripts/paged_attn.py:1017-1031 | for any context at or below the strict boundary (the last whole block that leaves a token) the final segment of a cold request has the same ordered tiles as a warm request |
| PagedAttention.WarmOutputsEqualCold | qwen3_6_scripts/paged_attn.py:1017-1031 | hence the output rows past the boundary, computed over the tiles each request really ran, are the same for a cold and a warm request, whatever function exp is |
| PagedAttention.RowResult | qwen3_6_scripts/paged_attn.py:2183-2204 | a row whose accumulators represent the visible keys yields causal attention |
| PagedAttention.MaskedVanish | qwen3_6_scripts/paged_attn.py:2191-2197 | masked keys add nothing to either sum |
| BlockTransfer.BlockMajorCpuKVCache.SwapOut | qwen3_6_scripts/block_major_kv_cache.py:309-359 | for every interleaving of host and device the pipelined swap-out ends as an atomic pointwise copy, the GPU cache is unchanged and no staging buffer is overwritten before it is read |
| BlockTransfer.BlockMajorCpuKVCache.SwapIn | qwen3_6_scripts/block_major_kv_cache.py:361-398 | for every interleaving the pipelined swap-in ends as an atomic pointwise copy and the CPU pool is unchanged |
| BlockTransfer.BlockMajorCpuKVCache.ExecuteTransfers | qwen3_6_scripts/patch_worker_cache_transfer_order.py:17-28 | all copies out complete before any copy in starts |
| BlockTransfer.BlockMajorCpuKVCache.Issue | qwen3_6_scripts/block_major_kv_cache.py:272-359 | every operation the host issues keeps the stream well formed; a copy out into an unread staging buffer is never issued |
| BlockTransfer.BlockMajorCpuKVCache.Synchronize | qwen3_6_scripts/block_major_kv_cache.py:272-398 | waiting for an event drains the stream up to it and changes no outcome |
| BlockTransfer.BlockMajorCpuKVCache.Progress | qwen3_6_scripts/block_major_kv_cache.py:272-398 | the device advancing by any number of operations changes no outcome |
| BlockTransfer.StoredPointwise | qwen3_6_scripts/block_major_kv_cache.py:309-359 | after a copy out each destination holds its source block packed, every other block is as before |
| BlockTransfer.LoadedPointwise | qwen3_6_scripts/block_major_kv_cache.py:361-398 | after a copy in each destination block holds its source record, every other block is as before |
| BlockTransfer.RoundTrip | qwen3_6_scripts/block_major_kv_cache.py:309-398 | swapping out and back by the inverse map restores every block across the layout change |
| BlockTransfer.VictimPreserved | qwen3_6_scripts/patch_worker_cache_transfer_order.py:17-28 | a GPU slot that is both victim and target is preserved on the CPU before it is overwritten |
| BlockTransfer.OppositeOrderLosesVictim | qwen3_6_scripts/patch_worker_cache_transfer_order.py:17-28 | in the opposite order the victim survives if and only if the incoming record equals it |
| BlockTransfer.ValidateBlockMapping | qwen3_6_scripts/block_major_kv_cache.py:102-138 | the validation loop accepts exactly the in-range mappings without repeated sources or destinations, and returns them in order |
| BlockTransfer.UntouchedCommutes | qwen3_6_scripts/block_major_kv_cache.py:309-398 | operations that do not touch a slot commute with a host write to its staging buffer |
| BlockTransfer.EventClearsSlot | qwen3_6_scripts/block_major_kv_cache.py:309-398 | once a slot's event is past, no queued operation touches the slot |
| BlockTransfer.PackAfterScatter | qwen3_6_scripts/block_major_kv_cache.py:309-398 | scattering a record and packing it again gives the record back and leaves the other blocks |
| MambaCache.MambaCacheManager.PrepareCurrentRun | qwen3_6_scripts/mamba_cache.py:134-158 | with distinct pairs and enough slots, none finished: pair i sits in slot i, the mapping stays injective, survivors keep their state; the undefined clean-up call is reached if and only if the placements, worked out on the index before the call, leave the slot of a finished pair of the batch occupied |
| MambaCache.IdleDecides | qwen3_6_scripts/mamba_cache.py:134-182 | unless a pair that does not run stood in the slot of a running one, that is so exactly when such a pair stood in the slot of a finished one |
| MambaCache.MambaCacheManager.CurrentRun | qwen3_6_scripts/mamba_cache.py:28-46 | finished requests give up their slots first, then the batch is placed |
| MambaCache.RunMeaning | qwen3_6_scripts/mamba_cache.py:92-158 | spelled out: every survivor keeps its state, a new request starts at zero, a new sibling as a copy of its request's first sequence |
| MambaCache.MambaCacheManager.Assign | qwen3_6_scripts/mamba_cache.py:92-132 | placing one pair is a swap, a zeroed slot or a copy, and moves any occupant out |
| MambaCache.MambaCacheManager.MoveOutIfOccupied | qwen3_6_scripts/mamba_cache.py:84-90 | the occupant moves to the lowest free slot with its state; a free slot is left alone |
| MambaCache.MambaCacheManager.CleanUpFirstBlocks | qwen3_6_scripts/mamba_cache.py:167-182 | the branch calling the undefined method is taken exactly when a slot of the batch range is occupied by a pair that does not run |
| MambaCache.MambaCacheManager.FirstFree | qwen3_6_scripts/mamba_cache.py:213-222 | the lowest free slot, or none only when there are as many entries as slots |
| MambaCache.SwapKeepsStates | qwen3_6_scripts/mamba_cache.py:188-198 | swapping two slots with their index entries keeps every pair's state |
| MambaCache.FinishedInBatch | qwen3_6_scripts/mamba_cache.py:167-182 | a concrete batch that does reach the missing method |
| MambaCache.MovedIntoFinished | qwen3_6_scripts/mamba_cache.py:84-90 | a second one, where the pair in the way was moved into the slot during the call |
| MambaCache.KeptMembers | qwen3_6_scripts/mamba_cache.py:207-211 | exactly the entries of finished requests are released |
| MambaCache.KeptWellFormed | qwen3_6_scripts/mamba_cache.py:207-211 | releasing keeps the mapping injective and in range |
| ChunkedScheduler.Scheduler.ScheduleChunkedPrefill | qwen3_6_scripts/scheduler.py:1311-1393 | every group gets the decision its own turn calls for, and the new queues, the batch and the reported counts are exactly those of the decisions; nothing is lost or duplicated; recompute victims come first in waiting in their old running order, swapped-out ones last in swapped, and the rest keep their order; physical tokens fit the budget and never exceed logical |
| ChunkedScheduler.Scheduler.FillBatch | qwen3_6_scripts/scheduler.py:1325-1348 | running groups, then swapped ones unless a group had to make room, then new ones; each pass decides on what the ones before it left and stops only for the reasons of its pass |
| ChunkedScheduler.Scheduler.ScheduleRunning | qwen3_6_scripts/scheduler.py:631-781 | turn by turn from the left: a group has tokens left for it, groups leave from the right exactly while it cannot grow, its chunk is its planned later step; the pass stops only at an empty queue or when no tokens are left |
| ChunkedScheduler.Scheduler.MakeRoom | qwen3_6_scripts/scheduler.py:704-756 | groups leave from the right end exactly as long as this one cannot grow, itself last; nothing was counted for it, so the budget is unchanged |
| ChunkedScheduler.Scheduler.ScheduleSwapped | qwen3_6_scripts/scheduler.py:788-895 | a group is reported exactly if it can never come back, skipped exactly if only an adapter slot is missing, taken if it also fits; the pass stops only at one that has to wait or does not fit |
| ChunkedScheduler.Scheduler.SchedulePrefills | qwen3_6_scripts/scheduler.py:986-1197 | a new group is ignored exactly if its chunk is over the prompt limit or it can never be allocated, skipped exactly if only an adapter slot is missing, taken with its planned first step if it also fits; the pass stops only at the delay, a group that has to wait, or a used-up budget or sequence count |
| ChunkedScheduler.Scheduler.WaitingFate | qwen3_6_scripts/scheduler.py:1016-1197 | for every position of the waiting queue, from the answers and what is used up by then: whether the pass stops there, or the group is ignored, skipped or taken with its planned first step |
| ChunkedScheduler.Scheduler.SwappedFate | qwen3_6_scripts/scheduler.py:823-880 | the same for the swapped queue in a step in which no group had to make room |
| ChunkedScheduler.Scheduler.SeqsUsed | qwen3_6_scripts/scheduler.py:1311-1393 | the sequences counted are the groups of the batch, and none comes back or begins beyond the limit |
| ChunkedScheduler.Scheduler.AdaptersUsed | qwen3_6_scripts/scheduler.py:704-781 | the adapters counted are those of the running groups that stayed (unless a later one with the same adapter had to leave itself) and of the groups that came back or began; a new one is never taken beyond the limit |
| BatchDecisions.SpentMeans | qwen3_6_scripts/scheduler.py:788-895 | what a pass has used up is one sequence and one adapter for each group it took |
| ChunkedScheduler.PlanWithinBudget | qwen3_6_scripts/scheduler.py:52-90 | whatever prefix is restored, 0 < physical <= logical, physical fits the budget, and the progress stays in the prompt |
| ChunkedScheduler.CapStepShrinks | qwen3_6_scripts/scheduler.py:518-556 | capping never fails inside a step and shrinks both counts together |
| ChunkedScheduler.FirstIsPlanned | qwen3_6_scripts/scheduler.py:1142-1168 | fast-forward followed by capping is the planned first step, never fails and fits the budget |
| ChunkedScheduler.NextIsPlanned | qwen3_6_scripts/scheduler.py:684-691 | capping a running prefill is the planned later step and never fails |
| ChunkedScheduler.QueuesConserved | qwen3_6_scripts/scheduler.py:1354-1372 | the queue updates at the end of a step keep the multiset of groups |
| ChunkedScheduler.OrderKept | qwen3_6_scripts/scheduler.py:1354-1372 | extending waiting on the left with the preempted groups restores their running order |
| ChunkedScheduler.PrefillsFirst | qwen3_6_scripts/scheduler.py:1373-1382 | the batch lists every prefill before every decode |
| SchedulingBudgets.TakingBack | qwen3_6_scripts/scheduler.py:136-168 | what a request adds is counted once, however often it is added, and taking it back restores the budget: tokens, logical progress and sequences |
| SchedulerQueues.SelectSplits | qwen3_6_scripts/scheduler.py:986-1197 | the fates of a processed queue partition it |
| TraceSimulator.Simulator.Simulate | scripts/analyze_prefix_cache_trace.py:499-736 | a validated trace is replayed to the end if and only if every request fits the cache, and no other error fires; request by request, the hits are those foretold by the tiers and ranks it finds, and tiers, use counts and the history of the CPU tier move on exactly as one replay says |
| TraceSimulator.Simulator.Replay | scripts/analyze_prefix_cache_trace.py:499-736 | one request fails exactly when it alone needs more blocks than the cache has; its hits are exactly those worked out from the tiers and the ranks when it begins; its own blocks end in the cache, the evicted ones ranked below all that stayed, and their number and place are given when none of its blocks was cached and the CPU tier has room; every use is counted once |
| PrefixHits.NoTierHits | scripts/analyze_prefix_cache_trace.py:566-596 | without a CPU tier the hits are always exactly the leading resident blocks |
| LostBlock.EvictedBeforeReached | scripts/analyze_prefix_cache_trace.py:559-596 | a concrete trace of five requests, from an empty simulator, in which loading one leading block evicts the next, so that fewer are hit than were found |
| TraceSimulator.Simulator.ReplayPromptBlocks | scripts/analyze_prefix_cache_trace.py:566-596 | the hit counters are exactly those foretold, a CPU block being read only if it was there when the step began; the blocks evicted on the way ranked below all that stayed |
| PrefixHits.StillThere | scripts/analyze_prefix_cache_trace.py:559-596 | a block is still in the cache when the prompt reaches it if and only if at least as many blocks rank below it as the blocks before it push out |
| PrefixHits.HitsAreFound | scripts/analyze_prefix_cache_trace.py:566-596 | the leading blocks found when the step begins are all hit, those of the cache in the cache, if and only if none of them is pushed out: for each, loads so far plus cache size exceed the capacity by at most the number of blocks that leave before it |
| PrefixHits.ApartHits | scripts/analyze_prefix_cache_trace.py:566-596 | when no block is in both tiers that decides the effective hits alone |
| PrefixHits.RoomReaches | scripts/analyze_prefix_cache_trace.py:559-564 | in particular nothing is pushed out while the loads fit beside the cache |
| TraceSimulator.Simulator.ReplayPrompt | scripts/analyze_prefix_cache_trace.py:566-601 | the prompt ends holding exactly its allocated blocks |
| TraceSimulator.Simulator.ReplayDecode | scripts/analyze_prefix_cache_trace.py:668-689 | the mutable tail accounting ends with exactly the allocated blocks; the divergence and drain errors never fire |
| TraceSimulator.Simulator.AllocateSlot | scripts/analyze_prefix_cache_trace.py:559-564 | fails exactly when the request alone fills the cache; evicts one block, the lowest, exactly when cache and request fill the capacity |
| CacheTiers.MovedOn | scripts/analyze_prefix_cache_trace.py:559-564 | evictions in two stretches make one: what stays ranked above all that left, and what left is in the CPU tier if that has room |
| TraceSimulator.Simulator.Evict | scripts/analyze_prefix_cache_trace.py:442-456 | the victim is cached and no cached block should leave before it |
| TraceSimulator.Simulator.LeavesBefore | scripts/analyze_prefix_cache_trace.py:442-456 | between two cached blocks the one used less often leaves first, when frequency counts, else the one used longer ago, else the deeper one of the request |
| TraceSimulator.Simulator.Demote | scripts/analyze_prefix_cache_trace.py:520-536 | a block already in the CPU tier is touched, one already waiting stays, one that fits enters, any other waits for the step end |
| TraceSimulator.Simulator.ResolveCpuStep | scripts/analyze_prefix_cache_trace.py:538-557 | unless the step also read from the CPU tier, as many deferred blocks as there are older blocks replace these, the oldest first; blocks that arrived in this step stay, the order of the tier is given, and each deferred block is either moved or counted as skipped |
| TraceSimulator.Simulator.EndStep | scripts/analyze_prefix_cache_trace.py:538-557 | the end of a step is recorded, and the CPU tier in place is what its recorded history makes of it |
| CacheTiers.OnlyOldDropped | scripts/analyze_prefix_cache_trace.py:545-553 | what arrived in a step is not replaced in it |
| TraceSimulator.Simulator.Release | scripts/analyze_prefix_cache_trace.py:732-736 | resident blocks stay within capacity and every block's last use is recorded |
| CacheTiers.OldestLeaves | scripts/analyze_prefix_cache_trace.py:442-456 | recorded uses never tie, so plain recency never falls back to comparing hashes |
| CacheTiers.UsedNoTies | scripts/analyze_prefix_cache_trace.py:735-736 | recording a request keeps all uses distinct |
| CacheTiers.CountedIs | scripts/analyze_prefix_cache_trace.py:566-596 | the use count of a block grows by its occurrences in the request |
| TraceSimulator.TailSettles | scripts/analyze_prefix_cache_trace.py:668-685 | a partly filled prompt block cannot be left over when the request ends on a block |
| SequenceReplication.RunReplicates | qwen3_6_scripts/sequence.py:267-349 | over any run of appends, progress, resets and messages: a message can always be formed, all replicated fields agree right after it, and the worker's output followed by the unsent tokens is the scheduler's output |
| SequenceReplication.RunAmountsTo | qwen3_6_scripts/sequence.py:267-349 | in any run the scheduler holds the prompt, exactly the tokens sampled and the progress since the last restart; and the request decodes if and only if its progress has reached its end since then |
| SequenceReplication.EventKeeps | qwen3_6_scripts/sequence.py:267-349 | each event keeps the replication invariant |
| SequenceReplication.FullMessageFollows | qwen3_6_scripts/scheduler.py:1624-1651 | the full message leaves both sides in step if and only if nothing is unsent, since it does not clear the unsent tokens |
| SequenceReplication.AppendedTooEarly | qwen3_6_scripts/scheduler.py:1624-1672 | a token appended before the first message reaches the worker twice |
| SequenceReplication.SequenceData.UpdateComputed | qwen3_6_scripts/sequence.py:300-307 | progress past the end is refused; else the count grows by the chunk, the stage becomes decode exactly when the count reaches prompt and output and is kept otherwise, and nothing else changes |
| SequenceReplication.Stream.OutputToReturn | qwen3_6_scripts/sequence.py:517-541 | each call returns exactly the tokens since the last one, and all returned deltas concatenate to the output |
| SequenceReplication.FromEndIsTail | qwen3_6_scripts/sequence.py:530-541 | slicing from the end gives the last n tokens exactly when n is positive, which is why the empty case is guarded |
| ExpertGrouping.GroupedExperts | qwen3_6_scripts/qwen3_5.py:1690-1717 | every token gets the sum over its top-k slots of weight times that expert's output |
| ExpertGrouping.RunOfExpert | qwen3_6_scripts/qwen3_5.py:1695-1709 | after the sort the running offsets delimit exactly the assignments of each expert, so each assignment is consumed once |
| ExpertGrouping.SumOverRange | qwen3_6_scripts/qwen3_5.py:1696-1717 | adding along a permutation gives the same sum |
| ExpertGrouping.OwnSlots | qwen3_6_scripts/qwen3_5.py:1697-1699 | a token is owed only by its own top-k slots |

## Left out

- Key dimension and heads: one head and one value column of the delta rule, one value component of attention and of the experts are modelled; columns are computed independently. Query scaling, key normalisation, the convolution itself, the gates and the output projection are inputs of the modelled loops.
- Floating point: rounding, the float32 casts and the nan-to-zero switch are not modelled; neither are the fused and native kernels, whose pack, scatter, gather and scatter-to-CPU steps have their intended pointwise meaning.
- Digests: 32-byte validation, collisions of hashes and the ValueErrors for non-positive block counts; keys are built only from whole blocks here.
- GdnProtocol.RunsNeverFail: one request at a time; several concurrent prefills, which would leave a step a budget that is not a multiple of the block size, are outside the deployed contract.
- GdnResume.ResumeStart: for recurrent states with some size that every token increases; for all models together see ResumeUnderEveryModel.
- GdnResume.PromptEndExactly: for recurrent states whose size counts tokens; for all models together see PromptUnderEveryModel. Whether a particular model brings a wrong start to the right end is not modelled.
- GdnStale.CacheEndExactly: for recurrent states whose size counts tokens.
- GdnSegments.FinalToCapture: blocks of at least two tokens and no second state to capture; any targets are covered by CapturesDecide, over the step ends, and one-token blocks by PlannedEqualsCold.
- GdnWorker.PrefixStateWorker.Prefill: the caches of all layers are one state; image embeddings, the layers' outputs and the copies between devices are not modelled.
- Index of saved states: the removal of single keys, which no serving code calls.
- Block manager: allocation, copy-on-write, block tables and its own cache trace; its answers are parameters.
- ChunkedScheduler.Scheduler.ScheduleChunkedPrefill: single-sequence groups; the final assertion on the number of running sequences is not modelled, because running groups left over for budget reasons are not counted by the code.
- Scheduler: multi-step scheduling, asynchronous post-processing, the priority policy, the default (unchunked) policy, beam search, encoder sequences and prompt adapters.
- ExpertGrouping.GroupedExperts: the sort is given by its specification (a permutation ordered by expert); the single-token path and the exact-reduce kernel are not modelled.
- TraceSimulator.Simulator.Replay: the number of evicted blocks is given only when none of the request's blocks was cached; the reuse of the state index inside the simulation, the latency projection and the report fields are not modelled; the gap counter is dropped.
- PagedAttention.ForwardPrefix: the debug switch that truncates an undersized block table is off; an undersized table is refused before the loops run.
- MambaCache.MambaCacheManager.PrepareCurrentRun: the nested dictionary is a list of entries whose order within a request is insertion order; the layers' tensors move together and are one array of states.
- SequenceReplication: mrope offsets, log-probability objects, multi-modal data and the metadata fields that every message simply overwrites.
- HTTP serving, request validation, chat templates, the tool-call parser, the vision tower, weight loading, profiling and the build-time patching of vendor files: input and output, or plumbing over libraries that are not part of the repository.
