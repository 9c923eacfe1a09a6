# TT runner model

A Dafny model of the state machines inside the Tenstorrent vLLM plugin: how the runner overlaps decodes
that run from device-resident inputs, how it speculates, where it keeps per-request device state, how its
persistent batch and its lane slots follow the scheduler, and three small components beside them. The
environment (scheduler, device, reader threads) is nondeterministic; what the code relies on about it is
stated in the `Legal`, `Fits`, `Admissible` and `Admitted` predicates; a run is `None` from the first event
outside them on.

`dafny verify dfyconfig.toml` checks everything.

## Components

**Asynchronous decode** (`DecodeReload`, `AsyncRuns`, `AsyncResidency`, `AsyncTheorems`, `AsyncHistory`,
`AsyncCommits`, `AsyncOverlap`, `AsyncLossless`, `PagedMemory`, `PageOwners`, classes `AsyncController.Controller` and
`AsyncRunner.Runner`, `LateResults`, `DeferredOutput`). A decode may be submitted while earlier ones are unread, and
then reads tokens, positions and page table that are still on the device. The device is ghost state: a traced,
device-sampled plain decode feeds its token back; after a verify, a host-sampled or a host-answered decode nothing is
known of the residents; after a prefill or a failed read nothing at all. An asynchronous launch keeps a prefill's
tokens among the completed steps too, where a forced reset can still take them back.

The result (`AsyncHistory`) is that in every run, at every overlap depth, a decode reads what a runner that waits for
every answer and always reloads would have sent, forced resets included, and that whatever is reloaded is up to date.
`AsyncCommits` says where a verify's results are written and which accepted count a build sends. `AsyncOverlap` says
when overlap happens, with runs of any depth. `AsyncLossless` joins this to speculation: if each answer comes from what
that decode reads, the tokens on the device, the context in the pages that the device's own block tables name
(`PagedMemory`) and the recurrent state that the sent count selects, then the text of every request whose pages nobody
else writes is the target's own. `PageOwners` ties that last condition to the persistent batch. `AsyncRunner` is one
`execute_model` as a class, equal to one step of the runs. `LateResults` says which late results a forced reset leaves
unapplied and which counts are recorded. `DeferredOutput` interleaves threads action by action.

**Speculative decode** (`SpecAccept`, `SpecDecode`, `SpecRuns`, `SpecLossless`, `SpecTheorems`, class
`SpecRunner.Runner`, `CommittedLogprobs`). Drafts become a candidate block, a verify, the accept walk, a capped
prefix, a commit. The target is a function of what the device really attends to (key-value context and
recurrent state, both overwritten by rejected drafts), so losslessness also says that the accepted counts
select the right device state.

**Device state slots** (`StateSlots`): ownership map, prefill allocator, gather permutation, two-phase commit,
model sessions; a ghost device array says whose state is in each slot.

**Persistent batch** (`PersistentBatch`, `RequestStates`, `BatchHistory`, `BatchRuns`, class `BatchUpdate.Runner`): parallel
arrays, row-keyed dictionaries and id-keyed sets against a rebuild from the request states, over runs of
scheduler outputs and applied tokens.

**Lane slots** (`LaneSlots`, `LaneLockstep`, classes in `LaneRunner`): coordinator and lane batch keep separate
maps and layout flags.

**Small components**: the prefix-cache mirror (`PrefixMirror`, `MirrorCache`, `MirrorRecords`), the noise cache
of the host sampler (`NoiseCache`), block-output lengths (`BlockOutput`).

Each class carries the source's fields and loops and is proved equal to a specification function; the theorems
are about those functions.

## Where the code and its promises part

Each has a concrete input and the exact condition under which the promise holds.

- `_update_states` appends a resumed request's replacement blocks behind the old ones when the request still
  holds its row, while its request state drops the old ones. One output leaves the batch equal to a rebuild if
  and only if no such request has blocks left (`RequestStates.RebuildExactly`). A forced prefix-cache reset
  reaches this: it preempts running requests between two steps, their preemption is reported by the next output
  (model_runner.py:1283-1287), and that output may already resume them. `BatchRuns.ResumeInPlaceDiffers` is such
  a run. Over all runs every column but the block table is the rebuild's, and the block table is if and only if
  the request was not resumed in place behind blocks since it entered the batch (`BatchRuns.BatchIsAlwaysARebuild`).
  A row that is behind reads and writes pages its request no longer owns (`PagedMemory.StalePageIsForeign`), so the
  losslessness of overlapped runs is claimed of requests whose pages nobody else writes. A step none of whose rows is
  behind grants that to everybody (`PageOwners.NotBehindIsSheltered`).
- A decode whose read the model refuses after accepting it (async_decode.py:1504-1514) is retried from host inputs. The
  pages are rewritten, but a recurrent state has already taken the token in (`AsyncLossless.UnreadAdvancesState`), so
  such a request has to be prefilled again before losslessness is claimed of it.
- The rowless branch of the speculative commit applies no length cap. A prefix is published from the position its
  block was submitted at and written at the length the history has later. These agree in every run, and the prefixes
  are equal if and only if the request still holds a row or its whole prefix fits (`SpecTheorems.CommitWritesPublished`,
  `AsyncCommits.VerifyIsWrittenWhereBuilt`, `SpecDecode.RowlessCommitOverflows`).
- The early return for a declined step equals the full build if and only if the caps cover the row count; elsewhere
  only the full build raises (`SpecDecode.DeclinedStepEqualsFullBuild`). Admission covers every row count of a launch
  (`SpecDecode.AdmittedCovers`).
- A block-output request of 0 tokens is left unchanged where it is rejected (`BlockOutput.UnchangedIffAcceptedExactly`,
  `BlockOutput.ZeroRequestDiffers`), and a negative one can grow (`BlockOutput.FitWithinRequestExactly`). A 0 is what
  the worker's own clamp writes into the request where no canvas fits (input_batch.py:440-447) and finds when that
  request is added again; the scheduler's clamp returns early on it, before its no-budget error (scheduler.py:699-700).
  A negative limit takes a prebuilt engine request that skipped validation (platform.py:129-133); vLLM's checks of
  sampling parameters, which may exclude it, are not part of this model.
- A step without device output sets its completion event at submission, so it can be pruned before it is in the
  completed queue (`DeferredOutput.EmptyStepPrunesEarly`); every other step is in the queue first.

## Model

| member | source | states |
|---|---|---|
| `AsyncHistory.DeviceDecodesSynchronousHistory` | src/vllm_tt_plugin/async_decode.py:426-509 | in every run from a cold start, forced resets included, a decode reads, per live row, the last token at its position of the history a runner that waits for every answer holds, and the step's own block tables, reloaded or not |
| `AsyncHistory.OverlapIsAlwaysSafe` | src/vllm_tt_plugin/async_decode.py:700-737 | in every run from a cold start the unsafe-overlap counter stays 0; a reload finds every earlier result applied, a verify finds nothing pending |
| `AsyncHistory.NextKnown` | src/vllm_tt_plugin/async_decode.py:1124-1179 | one step of the asynchronous runner is one step of the waiting one for every request: nothing lost, doubled or reordered by overlap, late application, a reset or a failed read |
| `AsyncHistory.RunKnown` | src/vllm_tt_plugin/async_decode.py:1124-1179 | the same over whole runs: the newest results of the waiting history are those still queued, the host holds the others |
| `AsyncHistory.PreparedKnown` | src/vllm_tt_plugin/model_runner.py:3208-3221 | drain rule, apply and re-check at any reader progress do to a request exactly what its scheduler output announces |
| `AsyncHistory.AppliedTracks` | src/vllm_tt_plugin/async_decode.py:817-911 | an apply moves results to the host and drops the newest d, which needs that nothing is left pending behind them |
| `AsyncHistory.DiscardDrains` | src/vllm_tt_plugin/async_decode.py:947-974 | a discard makes the preflight wait for every pending step, so the newest d are all there |
| `AsyncHistory.PrefilledTracks` | src/vllm_tt_plugin/model_runner.py:4777-4826 | a prefill's tokens reach the history once, at once or through the completed steps |
| `AsyncHistory.RunKeeps` | src/vllm_tt_plugin/async_decode.py:379-401 | the invariant holds in every reachable state, whatever the device held at the start |
| `AsyncCommits.VerifyIsWrittenWhereBuilt` | src/vllm_tt_plugin/model_runner.py:3589-3620 | in every asynchronous run a verify is written whole by the very next step, alone, to histories that end where its block was built; its published prefix is what the commit writes if and only if the request still holds a row within the cap, or holds none and the whole prefix fits |
| `AsyncCommits.VerifyAlone` | src/vllm_tt_plugin/async_decode.py:947-974 | a submitted verify is the only result on its way |
| `AsyncCommits.PreparedCount` | src/vllm_tt_plugin/model_runner.py:3800-3806 | whatever is drained when, a request that keeps its row or state slot is built with the count of the last verify it was in |
| `AsyncCommits.DecodedCount` | src/vllm_tt_plugin/model_runner.py:2290-2305 | a plain decode puts its rows back to count 1, a verify to what it committed, and nobody else's count moves |
| `AsyncCommits.PrefilledCount` | src/vllm_tt_plugin/model_runner.py:2098-2116 | a prefill puts its rows back to count 1 |
| `AsyncCommits.ReadyIsPlain` | src/vllm_tt_plugin/async_decode.py:947-974 | what is left unread at a build holds no verify |
| `AsyncLossless.OverlappedTextIsGenerated` | src/vllm_tt_plugin/async_decode.py:426-509 | over every run with overlapped decodes, verifies, host answers, failed reads and resets, whose answers come from the tokens, pages and candidate state the device really reads: the current history of a request whose pages nobody else writes is what the target generates from the prompt |
| `AsyncLossless.SentCountsSelectTheirState` | src/vllm_tt_plugin/model_runner.py:1501-1563 | in such a run, whenever a decode runs a row of a recurrent target, its sent count selects the state of everything but the last token |
| `AsyncLossless.UnreadAdvancesState` | src/vllm_tt_plugin/async_decode.py:1504-1514 | after a refused read the state a retry would select already holds the token it decodes again |
| `AsyncLossless.SettledIsPrompt` | src/vllm_tt_plugin/model_runner.py:1044-1051 | that prompt is the one the request arrived with |
| `AsyncLossless.StepFaithful` | src/vllm_tt_plugin/model_runner.py:3208-3254 | one step keeps text, pages, state and count together, from preflight to submission |
| `AsyncLossless.HonestRowKeeps` | src/vllm_tt_plugin/model_runner.py:3435-3499 | one row's answer, plain or accepted prefix, continues the target's text and leaves pages and state ready for it |
| `AsyncLossless.ColumnsStored` | src/vllm_tt_plugin/model_runner.py:2374-2389 | a row's columns land behind its text, through the block table the device holds |
| `AsyncLossless.PrefilledRow` | src/vllm_tt_plugin/model_runner.py:2416-2470 | a prefill chunk continues the pages where the request's text is computed and samples the target's token once it reaches the end |
| `PagedMemory.ContinuedHolds` | src/vllm_tt_plugin/model_runner.py:2374-2389 | writing consecutive positions through an own table leaves the longer text, whatever the other rows write elsewhere |
| `PagedMemory.UntouchedHolds` | src/vllm_tt_plugin/model_runner.py:2374-2389 | pages nobody writes to keep their text |
| `PagedMemory.StalePageIsForeign` | src/vllm_tt_plugin/model_runner.py:1066-1077 | a table that starts with a page given to another request reads that request's token |
| `PageOwners.NotBehindIsSheltered` | src/vllm_tt_plugin/model_runner.py:979-1099 | in every run of the persistent batch, a step none of whose rows is behind writes to no page of another request, given that the scheduler's allocation does not |
| `AsyncLossless.BuiltFollows` | src/vllm_tt_plugin/model_runner.py:2148-2305 | the columns a row decodes from start at its current last token and run on through its drafts, column 0 resident or reloaded |
| `AsyncRunner.Runner.Execute` | src/vllm_tt_plugin/model_runner.py:3187-3254 | preflight, update, late results, build and submission in the source's order are one step of the runs; it raises exactly for missing outputs or a step that cannot be built |
| `AsyncRunner.Runner.ApplyCompletedBeforeBuild` | src/vllm_tt_plugin/async_decode.py:913-933 | apply, predict again, wait and apply again; the error exactly when a discard lacks outputs |
| `AsyncTheorems.DecodeConsumesCurrent` | src/vllm_tt_plugin/async_decode.py:426-484 | one step: residents after the reload commands equal the current history, page table equals the step's tables |
| `AsyncTheorems.ReloadSeesEverything` | src/vllm_tt_plugin/async_decode.py:913-974 | drain rule, re-check and prediction together: not steady, or a verify, implies nothing pending; reloading inputs implies nothing unapplied |
| `AsyncTheorems.PrefillSeesEverything` | src/vllm_tt_plugin/model_runner.py:3208-3221 | a prefill is never built over an unapplied result |
| `AsyncTheorems.OverlapIsSteady` | src/vllm_tt_plugin/async_decode.py:669-694 | outstanding work at the build forces the steady fast path for the decode that is built |
| `AsyncTheorems.CandidateBuilds` | src/vllm_tt_plugin/async_decode.py:580-642 | facts the preflight read off the old batch hold of the decode built from the new one |
| `AsyncTheorems.ReadyAgrees` | src/vllm_tt_plugin/model_runner.py:2881-2894 | updating states and applying late results keeps the residents equal to the current history of every row that stays |
| `AsyncTheorems.StepKeeps` | src/vllm_tt_plugin/model_runner.py:3208-3254 | queue shape, chain, page tables, counters and residency survive every prefill, decode, verify, host answer, failed read and idle step |
| `AsyncTheorems.CommittedTables` | src/vllm_tt_plugin/async_decode.py:486-509 | the recorded page table is the device's after every accepted decode, resent or not |
| `AsyncTheorems.SubmittedAgrees` | src/vllm_tt_plugin/async_decode.py:440-470 | after a submission whose tokens are fed back the residents are the new last tokens |
| `AsyncTheorems.SubmittedBase` | src/vllm_tt_plugin/async_decode.py:1181-1252 | a submission over a steady or an empty queue keeps counters at zero unsafe overlaps and the overlap flags truthful |
| `AsyncTheorems.UnreadCurrent` | src/vllm_tt_plugin/async_decode.py:1504-1514 | a failed read registers nothing and leaves the chain invalid |
| `AsyncTheorems.WideLaunchVerifies` | src/vllm_tt_plugin/model_runner.py:218-225 | without narrow decodes every step of a speculating launch is a verify |
| `AsyncOverlap.SteadyDecodeOverlaps` | src/vllm_tt_plugin/async_decode.py:947-974 | in any launch, speculating or not, and at any reader progress, a steady decode that neither check expects to verify is submitted over what is still unread, without reloading, as a safe overlap, and the next step has the same choice |
| `AsyncOverlap.LeavesUnread` | src/vllm_tt_plugin/async_decode.py:913-933 | such a step waits for nobody: what stays pending is exactly what the readers have not got to |
| `AsyncOverlap.OverlapHasNoBound` | src/vllm_tt_plugin/async_decode.py:700-737 | runs from a cold start that reach any depth: one prefill, then decodes all submitted unread over each other, counted as that many overlaps and no unsafe one |
| `AsyncOverlap.NextPhase` | src/vllm_tt_plugin/async_decode.py:947-974 | in such a run the first decode reloads, the second waits for it, and every later one overlaps |
| `AsyncOverlap.SomethingPending` | src/vllm_tt_plugin/async_decode.py:801-815 | that is something if and only if the readers have not reached the newest step before the prune |
| `DecodeReload.PreflightSeesVerify` | src/vllm_tt_plugin/async_decode.py:976-1023 | `_next_step_verifies` over-approximates the build: with a step outstanding, no verify is built that was not predicted |
| `DecodeReload.VerifyCause` | src/vllm_tt_plugin/model_runner.py:196-230 | a narrow launch verifies only when every row is speculable, and only for a draft or an unresolved commit |
| `DecodeReload.DraftIsOffered` | src/vllm_tt_plugin/model_runner.py:1446-1499 | a draft that gets verified is a real offered token or comes from a retained proposal |
| `DecodeReload.BuiltColumnZero` | src/vllm_tt_plugin/model_runner.py:2479-2504 | column 0 of any built decode is each row's last host token at its position |
| `DecodeReload.BuiltVerifyRow` | src/vllm_tt_plugin/model_runner.py:2030-2063 | a row of a built verify carries its drafts behind column 0, at consecutive positions |
| `AsyncResidency.DrainedOrOverlaps` | src/vllm_tt_plugin/async_decode.py:947-974 | work stays unread only for a steady candidate, over overlap-safe steps, and before a step not predicted to verify |
| `AsyncResidency.PreparedCurrent` | src/vllm_tt_plugin/async_decode.py:913-933 | prune, drain and apply at any reader progress leave the current history of a live request as it was |
| `AsyncResidency.ApplyCurrent` | src/vllm_tt_plugin/async_decode.py:858-861 | one apply moves results from the queues into the history |
| `AsyncResidency.DrainSplits` | src/vllm_tt_plugin/async_decode.py:801-815 | prune then drain takes exactly the oldest unapplied results, whatever resolves in between |
| `AsyncController.Controller.PlanDecodeReload` | src/vllm_tt_plugin/async_decode.py:426-484 | inputs are left on the device only over a valid chain with an unchanged layout after a device-answered plain decode; such a step is overlap-safe; tables are resent whenever they differ, so committing records the step's own |
| `AsyncController.Controller.NextStepVerifies` | src/vllm_tt_plugin/async_decode.py:976-1023 | the loop over scheduled requests decides the prediction, both directions |
| `AsyncController.Controller.MustDrainPending` | src/vllm_tt_plugin/async_decode.py:947-974 | drains exactly for a discard, a non-candidate, an unsafe pending step or a predicted verify |
| `AsyncController.Controller.PruneFinished` | src/vllm_tt_plugin/async_decode.py:801-808 | drops exactly the resolved prefix of both deques |
| `AsyncController.Controller.DrainCompleted` | src/vllm_tt_plugin/async_decode.py:810-815 | returns all completed steps in order and leaves none |
| `AsyncController.Controller.WaitForAllPending` | src/vllm_tt_plugin/async_decode.py:935-945 | resolves every pending step, completions enqueued in order |
| `AsyncController.Controller.BeforeUpdate` | src/vllm_tt_plugin/model_runner.py:3208-3218 | preflight on the old batch: everything is resolved exactly when draining is due |
| `AsyncController.Controller.ApplyReadySteps` | src/vllm_tt_plugin/async_decode.py:817-911 | prune, drain and apply with readers running in between; the error exactly when a discard lacks outputs |
| `AsyncController.Controller.SubmitDecode` | src/vllm_tt_plugin/async_decode.py:1288-1545 | chain and steadiness after an accepted, host-answered or unread submission |
| `AsyncController.Controller.SubmitAsyncDecode` | src/vllm_tt_plugin/async_decode.py:1181-1252 | deques and counters after each of them |
| `LateResults.NewestAreDiscarded` | src/vllm_tt_plugin/async_decode.py:863-911 | of a request's drained results exactly the newest d are left out, older ones are applied in order, a finished request gets none |
| `LateResults.AppliedWhole` | src/vllm_tt_plugin/async_decode.py:844-856 | without a discard every published token is applied |
| `LateResults.ApplyReady` | src/vllm_tt_plugin/async_decode.py:863-911 | the counter loops compute that result and the recorded counts; the error exactly when some request has fewer results than discards |
| `LateResults.RecordedCount` | src/vllm_tt_plugin/model_runner.py:3794-3806 | a live request that keeps its state ends with the count of the last verify applied |
| `LateResults.WriteCounts` | src/vllm_tt_plugin/model_runner.py:3762-3806 | the commit loop records a count for exactly the rows not skipped that still have a batch row or a slot |
| `LateResults.CountResults` | src/vllm_tt_plugin/async_decode.py:868-878 | counts, per request, the drained steps that published for it |
| `LateResults.FrameDiscards` | src/vllm_tt_plugin/async_decode.py:892-905 | a frame's discarded requests are those inside the newest-d window |
| `LateResults.Scrub` | src/vllm_tt_plugin/async_decode.py:1133-1148 | a finished request's late tokens leave the published output, all others stay |
| `DeferredOutput.ExactlyOnceInOrder` | src/vllm_tt_plugin/async_decode.py:200-258 | under every interleaving: one readback per step, one outcome for all callers, completions enqueued once and in submission order |
| `DeferredOutput.PrunedIsQueued` | src/vllm_tt_plugin/async_decode.py:801-815 | a pruned non-empty step was read back and, if that succeeded, enqueued before |
| `DeferredOutput.EmptyStepPrunesEarly` | src/vllm_tt_plugin/async_decode.py:1196-1197 | an empty step is pruned before its completion is enqueued |
| `DeferredOutput.NextKeeps` | src/vllm_tt_plugin/async_decode.py:228-251 | every atomic action of every thread keeps lock ownership, cache, flag, event and queue consistent |
| `DeferredOutput.EnqueueKeepsOrder` | src/vllm_tt_plugin/async_decode.py:696-698 | a completion about to be enqueued is newer than every real one before it |
| `SpecTheorems.SpeculationIsLossless` | src/vllm_tt_plugin/spec_decode.py:504-590 | over every run, drafter, cap, padding and placement each history is what ordinary decoding generates at that length |
| `SpecTheorems.RunsAgree` | src/vllm_tt_plugin/spec_decode.py:504-590 | two launches, speculating or not, batched in any way, give a request the same text |
| `SpecTheorems.CountsSelectTheirState` | src/vllm_tt_plugin/model_runner.py:1501-1563 | every count of every reachable state lies in [1, 1+K]; between its steps it selects the device state that holds all but the last token, surviving unscheduled steps |
| `SpecTheorems.PublishedIsWrittenExactly` | src/vllm_tt_plugin/model_runner.py:3589-3620 | in every reachable state with a verify in flight the submitted position is still the end of the history, so the published prefix is the written one exactly where the commit caps or needs no cap |
| `SpecTheorems.CommitWritesPublished` | src/vllm_tt_plugin/model_runner.py:3741-3806 | a commit adds to a request what was published for it if and only if the request holds a row or its whole prefix fits |
| `SpecTheorems.VerifyProgress` | src/vllm_tt_plugin/model_runner.py:3773-3806 | a verified row gains between one and 1+K tokens, cut only by the room left, and records what it gained |
| `SpecTheorems.RunInvariant` | src/vllm_tt_plugin/model_runner.py:2148-2305 | histories, counts, device context and flight agree in every reachable state |
| `SpecTheorems.CommitKeeps` | src/vllm_tt_plugin/model_runner.py:3741-3806 | both commits keep history and device aligned |
| `SpecTheorems.SubmitKeeps` | src/vllm_tt_plugin/model_runner.py:2148-2305 | building and submitting keeps them aligned, rejected drafts included |
| `SpecTheorems.VerifiedRowContinues` | src/vllm_tt_plugin/model_runner.py:3435-3499 | one row's committed block is the target's own continuation and leaves the device aligned with it |
| `SpecTheorems.CommitPlainPointwise` | src/vllm_tt_plugin/model_runner.py:4617-4738 | a plain commit appends to every row its own token, and to nobody else |
| `SpecLossless.AcceptedContinues` | src/vllm_tt_plugin/spec_decode.py:504-590 | an accepted prefix of answers given after the drafts is what the target answers after its own tokens |
| `SpecLossless.ContinuesIsGenerate` | src/vllm_tt_plugin/spec_decode.py:504-590 | a history each of whose tokens is the target's answer is the autoregressive sequence |
| `SpecLossless.CommittedRowAligned` | src/vllm_tt_plugin/model_runner.py:3800-3806 | after a commit the recorded count selects the state matching the new history |
| `SpecLossless.BuiltRow` | src/vllm_tt_plugin/model_runner.py:2148-2305 | what a built row carries: last token, drafts, positions, count, for either shape |
| `SpecLossless.BuildKeepsHistory` | src/vllm_tt_plugin/model_runner.py:2148-2305 | the builder never changes a history |
| `SpecDecode.VerifyBlockShape` | src/vllm_tt_plugin/model_runner.py:2030-2063 | live rows carry token, drafts up to the valid count and nothing beyond; every other row is inert at count 1 |
| `SpecDecode.DeclinedStepEqualsFullBuild` | src/vllm_tt_plugin/model_runner.py:2207-2305 | the declined-step early return gives the rows and the state of the full build if and only if a cap covers the row count; otherwise the full build raises |
| `SpecDecode.AdmittedCovers` | src/vllm_tt_plugin/spec_admission.py:283-288 | an admitted launch has a cap for every row count from 1 to its concurrency |
| `SpecDecode.CutIsWrittenExactly` | src/vllm_tt_plugin/model_runner.py:3589-3620 | one prefix, cut at a position and written at the length behind it: the exact condition for equality |
| `SpecDecode.RowlessCommitOverflows` | src/vllm_tt_plugin/model_runner.py:3794-3795 | a rowless commit at the cap writes past it |
| `SpecAccept.AcceptGreedyDraftsCorrect` | src/vllm_tt_plugin/spec_decode.py:504-590 | the tensor walk commits exactly the longest matching draft prefix and one more answer, placeholders elsewhere |
| `SpecAccept.RowCountExact` | src/vllm_tt_plugin/spec_decode.py:560-590 | the argmax over the padded mismatch mask is c if and only if the first c-1 drafts match and the c-th does not count |
| `SpecAccept.DraftCapCorrect` | src/vllm_tt_plugin/spec_decode.py:305-323 | the cap is that of the tightest entry that covers the row count |
| `SpecAccept.LookUpDraftCap` | src/vllm_tt_plugin/spec_decode.py:305-323 | the lookup loop finds it |
| `SpecRunner.Runner.ConsumeDrafts` | src/vllm_tt_plugin/model_runner.py:1446-1499 | popping proposals row by row yields the step's drafts and leaves the other proposals |
| `SpecRunner.Runner.RowState` | src/vllm_tt_plugin/model_runner.py:1501-1563 | counts, valid counts and padded drafts per live row; the error exactly for a draft wider than K |
| `SpecRunner.Runner.Scatter` | src/vllm_tt_plugin/model_runner.py:1501-1563 | live values at their block rows, padding elsewhere |
| `SpecRunner.Runner.BuildStep` | src/vllm_tt_plugin/model_runner.py:2148-2305 | the in-place build equals the specification, errors included |
| `SpecRunner.Runner.ApplyCommitted` | src/vllm_tt_plugin/model_runner.py:3741-3806 | the commit loop equals the specification: skips, caps, rowless requests, counts |
| `CommittedLogprobs.Cut` | src/vllm_tt_plugin/model_runner.py:3550-3587 | each request keeps exactly its first published rows; the input comes back untouched exactly when nothing was cut; the error exactly on a boundary-count mismatch |
| `CommittedLogprobs.SumIsWholeExactly` | src/vllm_tt_plugin/model_runner.py:3571-3577 | kept rows add up to all rows if and only if no prefix is shorter than its walk |
| `StateSlots.StateFollowsRequests` | src/vllm_tt_plugin/model_runner.py:1265-1410 | over all prefill, decode, finish and preempt steps: no raise is reached, slots stay distinct and in range, each live request's state is in its slot, model sessions equal the map, and after a decode row i has gathered request i |
| `StateSlots.PrefillAllocates` | src/vllm_tt_plugin/model_runner.py:1295-1336 | under the admission bound the allocator hands out distinct slots nobody else holds |
| `StateSlots.PrefillWrites` | src/vllm_tt_plugin/model_runner.py:1295-1336 | a prefill overwrites no other live request's state |
| `StateSlots.DecodeWants` | src/vllm_tt_plugin/model_runner.py:1338-1394 | wanted slots are distinct and in range, so the gather is a permutation |
| `StateSlots.DecodeFollows` | src/vllm_tt_plugin/model_runner.py:1338-1410 | row i gathers the state of request i, everybody else's state moves with its map entry |
| `StateSlots.FollowedHolds` | src/vllm_tt_plugin/model_runner.py:256-289 | the moves reported to the model lead to the ownership map |
| `StateSlots.IdentityGather` | src/vllm_tt_plugin/model_runner.py:1380-1394 | leaving out an identity gather changes nothing |
| `StateSlots.ReleaseKeeps` | src/vllm_tt_plugin/model_runner.py:960-977 | finish and preempt drop map entry and session and move no state |
| `StateSlots.SlotMap.ReleaseDead` | src/vllm_tt_plugin/model_runner.py:1265-1293 | drops exactly the dead requests' entries |
| `StateSlots.SlotMap.Allocate` | src/vllm_tt_plugin/model_runner.py:1295-1336 | the allocation loop equals the specification, raise included |
| `StateSlots.SlotMap.Remap` | src/vllm_tt_plugin/model_runner.py:1338-1394 | the gather and the pending map, raises included |
| `BatchRuns.BatchIsAlwaysARebuild` | src/vllm_tt_plugin/model_runner.py:979-1099 | in every run of scheduler outputs and applied tokens each row is the rebuild of its request in columns, generator, bad words, mask and sets, tokens equal prompt and output list, and the block table is the rebuild's if and only if the request was not resumed in place behind blocks since it entered |
| `BatchRuns.ResumeInPlaceDiffers` | src/vllm_tt_plugin/model_runner.py:1066-1077 | a run from the empty batch: added, then resumed by the output that reports its forced preemption; the row keeps a stale block in front |
| `BatchRuns.BehindByResumeOnly` | src/vllm_tt_plugin/model_runner.py:1053-1077 | only an output that resumes a request in its row, with blocks in it, ever makes its table differ |
| `BatchRuns.TableReplaced` | src/vllm_tt_plugin/input_batch.py:177-196 | appending replacement blocks leaves the request's own at the end of the row's table, behind whatever was there |
| `BatchRuns.TableExactly` | src/vllm_tt_plugin/input_batch.py:177-196 | such a table is the request's own if and only if nothing is in front |
| `BatchRuns.ScheduleKeeps` | src/vllm_tt_plugin/model_runner.py:979-1099 | one scheduler output keeps all of it |
| `RequestStates.SteppedMatches` | src/vllm_tt_plugin/model_runner.py:1044-1087 | one scheduler output leaves every scheduled row equal to its rebuild but for blocks |
| `BatchHistory.ExtendKeeps` | src/vllm_tt_plugin/model_runner.py:3781-3795 | an applied block keeps row and output list equal and every block table as it was; the length bound survives if and only if the request holds a row or the block fits |
| `BatchHistory.ExtendAllAt` | src/vllm_tt_plugin/model_runner.py:4713-4738 | of one step's frames exactly its own reaches a request's row and output list, once |
| `BatchHistory.OneTokenFrameExact` | src/vllm_tt_plugin/model_runner.py:4683-4711 | an accepted one-token frame loses no token to the cap |
| `RequestStates.RebuildExactly` | src/vllm_tt_plugin/model_runner.py:1053-1092 | one output leaves the batch equal to a rebuild if and only if no resumed request that kept its row had blocks in it |
| `RequestStates.SteppedRow` | src/vllm_tt_plugin/model_runner.py:1053-1087 | the same for one request |
| `RequestStates.SteppedKeys` | src/vllm_tt_plugin/model_runner.py:1031-1087 | exactly the scheduled requests hold a row afterwards; output lists stay unshared |
| `RequestStates.SteppedOrigin` | src/vllm_tt_plugin/model_runner.py:1044-1064 | prompt and output list never change hands |
| `RequestStates.AppendIsReplace` | src/vllm_tt_plugin/input_batch.py:177-196 | appending blocks equals replacing them if and only if every old group is empty |
| `RequestStates.UpdateAllAt` | src/vllm_tt_plugin/model_runner.py:1053-1077 | the cached loop gives each request its own update and no other |
| `BatchUpdate.Runner.UpdateStates` | src/vllm_tt_plugin/model_runner.py:979-1099 | the whole update, removals to `condense`, equals the specification; the layout flag is set exactly when a row is gained or given up, and without it no row moves |
| `BatchUpdate.Runner.ApplySampled` | src/vllm_tt_plugin/model_runner.py:4617-4738 | frames reach rows and output lists as specified; a refused frame changes nothing |
| `BatchUpdate.Runner.UpdateCached` | src/vllm_tt_plugin/model_runner.py:1053-1077 | the cached loop, and who is left to be placed |
| `BatchUpdate.Runner.AdmitNew` | src/vllm_tt_plugin/model_runner.py:1044-1051 | each new request gets its own empty output list |
| `BatchUpdate.PlaceAll` | src/vllm_tt_plugin/model_runner.py:1079-1087 | lowest freed row first, then the end; every placed row is its rebuild |
| `BatchUpdate.ToAdd` | src/vllm_tt_plugin/model_runner.py:1044-1071 | placed are exactly the scheduled requests without a row, and they fit |
| `PersistentBatch.Batch.AddRequest` | src/vllm_tt_plugin/input_batch.py:392-560 | the row becomes the rebuild of the request, no other row changes |
| `PersistentBatch.Batch.RemoveRequest` | src/vllm_tt_plugin/input_batch.py:562-587 | the row becomes a hole with nothing row-keyed left, no other row changes |
| `PersistentBatch.Batch.Condense` | src/vllm_tt_plugin/input_batch.py:589-682 | terminates without holes, every request keeps everything in its row, rows below the count do not move |
| `PersistentBatch.Batch.MoveRow` | src/vllm_tt_plugin/input_batch.py:589-682 | one move takes every column and dictionary entry along |
| `PersistentBatch.Batch.UpdateRow` | src/vllm_tt_plugin/model_runner.py:1074-1077 | counter and appended blocks of one row |
| `PersistentBatch.Batch.AppendTokens` | src/vllm_tt_plugin/model_runner.py:3773-3780 | the fitting part is written behind the row's history |
| `PersistentBatch.SamplingBatch.Write` | src/vllm_tt_plugin/input_batch.py:460-560 | tensors, generator, bad words and the lazily allocated mask row are what the request asks for |
| `PersistentBatch.MovedViews` | src/vllm_tt_plugin/input_batch.py:589-682 | moving a row into a hole changes no request's view |
| `PersistentBatch.RemovedViews` | src/vllm_tt_plugin/input_batch.py:562-587 | removal drops one view and keeps the others |
| `PersistentBatch.AddedViews` | src/vllm_tt_plugin/input_batch.py:392-560 | adding enters one view and keeps the others |
| `PersistentBatch.HoleCount` | src/vllm_tt_plugin/input_batch.py:589-610 | live rows and listed holes add up to the rows, so the last live row is found |
| `PersistentBatch.CondensingStep` | src/vllm_tt_plugin/input_batch.py:604-682 | one pass keeps: all rows above the last live one are holes, the listed ones below |
| `PersistentBatch.PrefixCount` | src/vllm_tt_plugin/input_batch.py:589-682 | live rows that are a prefix are as many as the requests |
| `LaneLockstep.LanesStayInLockstep` | src/vllm_tt_plugin/input_batch.py:956-1095 | in every run whose newcomers fit their lanes nothing raises and the layout flags agree; both maps are equal, every row lies in its request's lane, free slots and holders add up to each lane, and between two occupants of a row its release hook was called |
| `LaneLockstep.Lockstep` | src/vllm_tt_plugin/model_runner.py:2943-2957 | the batch applies any plan without error, ends with the coordinator's rows, and raises the same layout flag |
| `LaneLockstep.AdmissionSuffices` | src/vllm_tt_plugin/lane_scheduler.py:570-582 | assignments never run out of slots while each lane's holders and newcomers fit |
| `LaneLockstep.PlanSucceeds` | src/vllm_tt_plugin/lane_scheduler.py:604-647 | the whole plan raises nothing under that bound and puts every row in its request's lane |
| `LaneLockstep.AssignedAllInLane` | src/vllm_tt_plugin/lane_scheduler.py:570-582 | a row lies in the lane its request was sent to |
| `LaneLockstep.PlannedKeeps` | src/vllm_tt_plugin/lane_scheduler.py:604-647 | releases then assignments: survivors keep their rows, every scheduled request gets one, the flag is exact |
| `LaneLockstep.ReleasedBetween` | src/vllm_tt_plugin/input_batch.py:1060-1095 | no row changes hands without a release in between |
| `LaneLockstep.ToPlace` | src/vllm_tt_plugin/input_batch.py:1015-1048 | placed are exactly the scheduled requests without a row |
| `LaneLockstep.FlagsAgree` | src/vllm_tt_plugin/input_batch.py:1000-1053 | the batch's own layout flag says that some request gained or gave up a row |
| `LaneLockstep.PlacedAllKeeps` | src/vllm_tt_plugin/input_batch.py:907-919 | no placement meets an occupied row |
| `LaneSlots.AssignSucceedsExactly` | src/vllm_tt_plugin/lane_scheduler.py:570-582 | a slot is assigned if and only if the request has one or the lane is not full |
| `LaneSlots.LaneIsFull` | src/vllm_tt_plugin/lane_scheduler.py:570-593 | free slots and holders of a lane add up to the lane |
| `LaneSlots.ReleaseKeeps` | src/vllm_tt_plugin/lane_scheduler.py:584-593 | release keeps the sorted, duplicate-free partition |
| `LaneSlots.AssignKeeps` | src/vllm_tt_plugin/lane_scheduler.py:570-582 | assignment keeps it, in the request's own lane, moving nobody |
| `LaneRunner.LaneCoordinator.BuildStepPlan` | src/vllm_tt_plugin/lane_scheduler.py:604-647 | the loops over dictionaries and free lists equal the specification, raises included |
| `LaneRunner.LaneCoordinator.AssignSlot` | src/vllm_tt_plugin/lane_scheduler.py:570-582 | a holder keeps its row; a newcomer gets the lowest row of its lane nobody holds, and none exactly when the lane is full or unknown; the partition survives |
| `LaneRunner.LaneCoordinator.ReleaseSlot` | src/vllm_tt_plugin/lane_scheduler.py:584-593 | exactly the request's own row becomes free in its lane, and the partition survives |
| `LaneRunner.LaneBatch.ApplyStepPlan` | src/vllm_tt_plugin/input_batch.py:956-1058 | the in-place application equals the specification and the coordinator's rows and flag |
| `MirrorRecords.HitIsShared` | src/vllm_tt_plugin/prefix_routing.py:147-170 | a hit of k blocks on an engine means a prompt with the same first k blocks, salt and overlapping items was sent to it since the last clear |
| `MirrorRecords.RecordedPromptHits` | src/vllm_tt_plugin/prefix_routing.py:172-188 | a recorded prompt that fits hits in full on its engine |
| `MirrorRecords.Mirror.CachedTokens` | src/vllm_tt_plugin/prefix_routing.py:147-170 | one walk for all engines gives each its longest leading run, capped |
| `MirrorRecords.Mirror.Record` | src/vllm_tt_plugin/prefix_routing.py:172-188 | reinsertion and eviction equal the specification and keep the mirror sound |
| `MirrorCache.RetainedExactly` | src/vllm_tt_plugin/prefix_routing.py:182-187 | a block is retained if and only if fewer than `max_blocks` distinct ones were recorded after it |
| `MirrorCache.RunIsLongest` | src/vllm_tt_plugin/prefix_routing.py:147-170 | the run length is at least k if and only if the engine holds the first k blocks |
| `PrefixMirror.BlockHashes` | src/vllm_tt_plugin/prefix_routing.py:106-145 | the one-pass pointer computes the chain over all overlapping items, for every full block |
| `PrefixMirror.SameChainExactly` | src/vllm_tt_plugin/prefix_routing.py:112-145 | two prompts' hashes at block k are equal if and only if salt, tokens and overlapping items of the first k blocks are |
| `PrefixMirror.OverlapIsRange` | src/vllm_tt_plugin/prefix_routing.py:129-140 | the items of a block are a contiguous range |
| `PrefixMirror.ChainDepth` | src/vllm_tt_plugin/prefix_routing.py:127-145 | hashes at different depths never collide |
| `NoiseCache.Sampler.SampleSeeded` | src/vllm_tt_plugin/host_sampler.py:72-169 | whatever is cached, a call uses the noise and leaves the generator states that drawing directly would; the byte count is the sum and within the bound |
| `NoiseCache.Sampler.TakeNoise` | src/vllm_tt_plugin/host_sampler.py:85-99 | cached noise is used only for the same width and complete state |
| `NoiseCache.Sampler.Prefetch` | src/vllm_tt_plugin/host_sampler.py:149-161 | insertion and eviction keep sum and bound |
| `NoiseCache.PopKeeps` | src/vllm_tt_plugin/host_sampler.py:88-90 | taking an entry keeps the byte count the sum of what is left |
| `NoiseCache.InsertKeeps` | src/vllm_tt_plugin/host_sampler.py:154-157 | inserting one does too |
| `NoiseCache.DrawnNext` | src/vllm_tt_plugin/host_sampler.py:117-118 | row by row, prepared noise and next state are those of a direct draw |
| `BlockOutput.UnchangedIffAcceptedExactly` | src/vllm_tt_plugin/platform.py:121-140 | fitting leaves a request unchanged exactly when it is accepted, but for 0 tokens where no canvas fits |
| `BlockOutput.FitWithinRequestExactly` | src/vllm_tt_plugin/platform.py:121-140 | the fitted limit is within the request if and only if the request is not negative or a canvas fits |
| `BlockOutput.ZeroRequestDiffers` | src/vllm_tt_plugin/platform.py:121-140 | the concrete input for both |
| `BlockOutput.FitIsIdempotent` | src/vllm_tt_plugin/platform.py:121-140 | fitting twice is fitting once |
| `BlockOutput.MaxFitIsLargest` | src/vllm_tt_plugin/platform.py:134-137 | the budget is the largest whole number of canvases that fits |
| `BlockOutput.FittedIsAccepted` | src/vllm_tt_plugin/platform.py:2640-2672 | a fitted positive limit is accepted |
| `BlockOutput.MinModelLenIsTight` | src/vllm_tt_plugin/platform.py:143-157 | a context serves a one-token prompt exactly from the startup floor on |

## Left out

- Structured-output grammar and deferred device sampling: a structured step counts as host-sampled; `logits`-mode verifies, penalties, temperature and rejection sampling are not modelled.
- Contract version 0 and residency in lane mode: their reload policy is not decided by this code alone.
- A decode without device output (no live row anywhere) is not submitted in `AsyncRuns`; `DeferredOutput` has it.
- A failed readback after submission ends a run in `AsyncRuns`; `DeferredOutput` models it. A read the model refuses at submission is in both.
- Drafters leave arbitrary proposals behind, in `AsyncRuns` as in `SpecRuns`.
- `AsyncLossless.OverlappedTextIsGenerated`: nothing is claimed of a request while another row writes to its pages, as after a resume in place. A host answer of the drafter is taken to be the target's and to continue the row's context; a prefix-cache hit is taken to name pages that hold the prefix.
- Length caps in `AsyncRuns`: an answer is applied whole, which for a verify is what the capped commit writes (`AsyncCommits.VerifyIsWrittenWhereBuilt`); `BatchHistory` and `SpecDecode` have the caps.
- Prefill chunking in `SpecRuns` and `StateSlots`: a prefill writes its slot whole; `AsyncLossless` has chunks.
- Hash collisions: block hashes are free constructors, so two different prefixes never share one.
- Engine bitmasks are sets, and the mirror's dispatch records and queued-prefill estimate are not modelled.
- Block tables are compared as block ids, before their zero padding to a fixed width.
- Lane columns: the lane batch is modelled by its rows, map and hook calls; its columns are those of `PersistentBatch`.
- Thread pool, cancellation and token choice of the host sampler: a prefetched entry holds its result.
- Block-output clamping inside `add_request`, multimodal features, logits processors and encoder caches of a row.
- Requests' sampling parameters are immutable while they live, and a finished id is reused only as a new request.
- Configuration, platform registration, merging of lane outputs, prefix-target choice: plumbing or one-branch rules.
