# SRH and mamba-align verification model

A Dafny 4 model of the parts of this repository whose correctness is hardest to see, with proofs.
`dafny verify dfyconfig.toml` checks all of it.

The project models, in six groups of modules:

- **State copies** (`Memory`, `TiledCopy`, `OverlapCopy`, `StateCopy`): the byte copies of the fused
  mamba kernels over one flat memory. Programs run in any order; tiles split a copy; windows shift
  over themselves; a guard skips block ids outside the pool.
- **State columns** (`AlignColumns`, `AlignBatch`, `ColumnRefinement`, `CopyGrid`, `AlignGrid`): one
  request's block columns as a step machine (pre-copy, forward, accept, save, restart), the host loop
  and device kernel that take the same decisions for a batch, the refinement from launches on bytes to
  copies of columns, and the two launches of a step, which leave every request of a batch the columns
  of that machine.
- **Row table** (`PleTable`): gathers from a table split over shard files, inline and threaded, and
  the placeholder with its reused staging buffer.
- **Recovery** (`Publish`, `Campaign`): two procedures whose remote calls may fail at any point.
- **Search and choice** (`Calibrate`, `Ranking`, `Shortlist`).
- **Evidence and planning** (`Evidence`, `Acceptance`, `Recommend`, `Deployment`, `Contracts`,
  `WorkloadPlan`, `Intake`, `IntakeChain`): replaying observations, the verdicts drawn from them, and
  the chain from client intake over contract and experiment plan to admissible evidence.

Code that updates arrays, buffers or lists in place is modelled by methods and classes that do so,
each proved against a specification function or predicate about which the lemmas speak. Where a
stated property fails, the model keeps the code's behaviour and the exact condition is proved:
`OverlapCopy.BatchCopyIsMemmove`, `AlignColumns.SeedNeedsOwnBlockSize`, `AlignColumns.BoundarySavedIff`,
`AlignBatch.HostAndDeviceAgree`, `PleTable.RefusedThoughServed`, `Campaign.RestoredExactly`,
`Contracts.ValidateContract`, `WorkloadPlan.PlanFitsExactly` and `IntakeChain.OwnExperimentsAdmitted`.

Findings where code and its documentation or intent part: an explicit `null` for `context_behavior`,
`tools` or `quality` passes the validator's null check and then crashes it; an explicit `"max": null`
makes the planner emit an experiment without token counts; a contract without declared maxima may plan
requests beyond its own maximum context; omitted cache probabilities are validated as 0 but translated
as 0.2 and 0.3; reasoning left "optional", which is what an intake without a choice translates to,
admits no evidence at all; with a shard missing, ids whose own shard is loaded are refused; a campaign
whose first readiness check fails still journals `restored`, and an interrupt during the last variant
stop leaves the source down without a restart; if that stop fails instead, the file of a campaign that
ends as restored no longer names the variant that may still run.

## Model

| member | source | states |
|---|---|---|
| TiledCopy.EachByteOnce | src/mamba_utils_guarded.py:64-119 | for all addresses, sizes, tile counts and block sizes, byte `o` of the region is moved by exactly one tile through exactly one access, the ones the addresses determine (both directions) |
| TiledCopy.AccessesInsideAndAligned | src/mamba_utils_guarded.py:64-119 | no access of any tile leaves the region, and every 8-byte access is 8-byte aligned at source and destination |
| TiledCopy.AccessesAscend | src/mamba_utils_guarded.py:77-107 | within a tile the accesses go upwards without overlap: head, body, tail |
| TiledCopy.RunPointwise | src/mamba_utils_guarded.py:91-107 | between separate or identical regions, any list of accesses moves exactly the bytes it covers and nothing else |
| TiledCopy.TileMovesItsBytes | src/mamba_utils_guarded.py:64-119 | one tile run in program order moves exactly the bytes it owns |
| TiledCopy.AnyInterleavingCopies | src/mamba_utils_guarded.py:49-54 | however the accesses of all tiles interleave, the result is one plain copy |
| TiledCopy.MemcpyTile | src/mamba_utils_guarded.py:40-119 | the kernel's loops, in place on memory, perform the tile's accesses in order (both alignment paths) |
| TiledCopy.OneTileCopies | src/mamba_utils_guarded.py:52-53 | a single-tile launch between separate regions is a plain copy |
| OverlapCopy.ShiftTokens | src/mamba_utils_guarded.py:282-296 | the low-to-high token loop on one block equals a copy from a snapshot, for every shift of at least a token and every length |
| OverlapCopy.ShiftOneCell | src/mamba_utils_guarded.py:218-250 | one lane's element move keeps the invariant of the row loop: moved cells hold their old sources, all other bytes are untouched |
| OverlapCopy.AnyLaneOrderShifts | src/mamba_utils_guarded.py:214-250 | rows may advance in parallel at any speeds: with each row low-to-high, every row gets the copy of its old window |
| OverlapCopy.ShiftedUnique | src/mamba_utils_guarded.py:214-250 | the finished shift is determined: at most one memory is the shift of a given one |
| OverlapCopy.ShiftRows | src/mamba_utils_guarded.py:218-251 | the token and row-block loops, in place, perform that shift |
| OverlapCopy.BatchCopyIsMemmove | src/mamba_utils_guarded.py:596-616 | the batch kernel equals a snapshot copy for every memory and lane order if and only if the destination does not start inside the source |
| OverlapCopy.RightOverlapBreaks | src/mamba_utils_guarded.py:602-616 | for every right overlap, a memory and a lane order on which the batch kernel is not a snapshot copy |
| OverlapCopy.CopyEntriesNeverOverlapRight | src/mamba_utils_guarded.py:596-616 | entries built from block ids of one pool never overlap to the right, so the batch kernel's condition holds for them |
| OverlapCopy.BatchMemcpyProgram | src/mamba_utils_guarded.py:596-616 | the chunk loop in place: load, barrier, store under a left overlap; plain lanes otherwise |
| StateCopy.DataInside | src/mamba_utils_guarded.py:195-211 | every byte a copy replaces lies in its destination block, and the byte it comes from in its source block |
| StateCopy.CopyStateBlock | src/mamba_utils_guarded.py:169-317 | for any block-table contents: the guarded copy, branch by branch, changes exactly its tile's share of the destination data range to the right source bytes, and when it counts a hit it changes nothing |
| StateCopy.CopyOrShift | src/mamba_utils_guarded.py:267-296 | a window copied at once between blocks and token by token within its block is a snapshot copy either way |
| StateCopy.ProgramRespects | src/mamba_utils_guarded.py:169-317 | a copy program writes only the bytes it moves, and what it writes depends only on the bytes it reads |
| StateCopy.LayoutApart | src/mamba_utils_guarded.py:305-309 | blocks of two states keep their data apart when the states lie in separate pools or are views of the same pages, with distinct ids in one state |
| StateCopy.CopiesIndependent | src/mamba_utils_guarded.py:320-457 | two programs never touch each other's bytes if, when both pass the guard, neither's destination data meets the other's data, or they are tiles of one copy |
| StateCopy.LaunchOrderIrrelevant | src/mamba_utils_guarded.py:383-457 | unless a copy the guard lets through is aimed at data of another such copy, all orders of the (request, state, tile) programs leave the same memory |
| StateCopy.LaunchMovesByte | src/mamba_utils_guarded.py:298-317 | after a launch, in any order, every data byte of a copy the guard lets through is the right old source byte |
| StateCopy.LaunchKeepsByte | src/mamba_utils_guarded.py:191-194 | a byte no such copy is aimed at keeps its value |
| StateCopy.SkippedCopyIsCounted | src/mamba_utils_guarded.py:191-208 | a copy is let through exactly when none of its tiles raises the guard counter, and otherwise no tile writes |
| Memory.AnyOrderSameMemory | src/mamba_utils_guarded.py:383-457 | any order of pairwise independent programs leaves the same memory |
| Memory.RunAllSnapshot | src/mamba_utils_guarded.py:383-457 | independent programs leave at each byte what its only writer computes from the initial memory |
| Memory.LoadStore | src/mamba_utils_guarded.py:91-94 | a masked vector load followed by its store is a snapshot copy of those lanes |
| AlignColumns.PostArithmetic | src/mamba_utils_guarded.py:403-428 | for every step: the bias is in 0..accepted-1, the destination ends on a block boundary inside the accepted tokens, never lies past the running column, equals it exactly when every draft is accepted on a boundary, and is at most one column back when drafts are fewer than a block; without a save no boundary was reached |
| AlignColumns.SeedIsLastBlock | src/mamba_utils_guarded.py:1428-1430 | at a block boundary the seed is the column of the last computed block |
| AlignColumns.SeedNeedsOwnBlockSize | src/patch_mamba_block_size.py:14-17 | with another group's block size dividing it, the seed is right if and only if the two sizes are equal: why the fix is needed |
| AlignColumns.PreCopyReady | src/mamba_utils_guarded.py:1425-1470 | after pre-copy the state of the computed tokens is found where the forward pass looks for it, and saved columns are untouched and behind |
| AlignColumns.ForwardReady | src/mamba_utils_guarded.py:1437-1446 | under the stated forward contract, each draft prefix's state is at its column, and saved columns are untouched |
| AlignColumns.SavesRightBlock | src/mamba_utils_guarded.py:413-432 | the save leaves in the destination column the state after exactly (dst+1)*block_size tokens, and the running position still reads the accepted tokens, also when the count is reset to 1 |
| AlignColumns.StepKeepsExact | src/mamba_utils_guarded.py:399-432 | one engine step keeps the running state exact and every saved column right and unchanged |
| AlignColumns.RestartKeepsExact | src/mamba_utils_guarded.py:1428-1430 | a resume or prefix hit at m blocks, seeded from the column formula, reads exactly the state after m*block_size tokens |
| AlignColumns.EveryRunExact | src/mamba_utils_guarded.py:399-432 | over every run of steps and restarts, any scheduled, draft and accepted counts: column state_idx + accepted - 1 holds exactly the state after the computed tokens, and each saved column d the state after (d+1)*block_size |
| AlignColumns.SavedNeverOverwritten | src/mamba_utils_guarded.py:413-432 | along any run of steps no later step overwrites a saved column |
| AlignColumns.BoundarySavedIff | src/mamba_utils_guarded.py:413-422 | a boundary a step crosses is saved if and only if the running state reaches it and no later boundary follows in the step |
| AlignColumns.DecodeSavesEveryBoundary | src/mamba_utils_guarded.py:413-432 | with single-token decode steps and fewer drafts than block_size, every boundary crossed ends up saved |
| AlignColumns.EveryRunWithinSlack | src/mamba_utils_guarded.py:1432-1447 | the accepted count plus the rejected drafts never exceeds the speculative columns plus one |
| AlignColumns.TouchedColumnsAllotted | src/mamba_utils_guarded.py:1432-1447 | over every run, every column a step reads or writes lies in the allotted cdiv + speculative columns, even when the running column moves back |
| AlignBatch.HostAndDeviceAgree | src/mamba_utils_guarded.py:489-503 | host loop and device kernel choose the same column, source, bias and reset if and only if the accepted count is positive or nothing is carried |
| AlignBatch.DecisionIsPreCopy | src/mamba_utils_guarded.py:1425-1470 | the host's decision is the one the column machine takes |
| AlignBatch.HostRunner.Cleanup | src/mamba_utils_guarded.py:1332-1347 | exactly the finished, preempted and resumed requests lose their recorded column |
| AlignBatch.HostRunner.StageEntry | src/mamba_utils_guarded.py:1425-1470 | one loop iteration: column recorded and staged, source and bias staged, count reset when state is carried, nothing else changed |
| AlignBatch.HostRunner.Preprocess | src/mamba_utils_guarded.py:1380-1470 | after the loop every batch entry holds the decision taken from the state before the loop |
| AlignBatch.PreprocessLane | src/mamba_utils_guarded.py:485-503 | one device lane, in place on its slot |
| AlignBatch.PreprocessKernel | src/mamba_utils_guarded.py:460-503 | the launch with its lanes in any order: every slot holds the decision taken from its values before the launch |
| CopyGrid.OrdinarySweepOwned | src/mamba_utils_guarded.py:1000-1004 | a launch over states in separate pools or views of shared pages, whose destination ids are used by no other copy of the same tensor, has no copy aimed at another's data |
| CopyGrid.AnyGridOrder | src/mamba_utils_guarded.py:320-457 | of such a launch, any two orders of its (entry, state, tile) programs leave the same state memory |
| CopyGrid.GridMoves | src/mamba_utils_guarded.py:320-457 | in any order it leaves, for each batch entry and state, temporal or convolution in either layout, the columns its entry's copy makes of those the memory held; entries without a copy keep theirs, and a destination outside the pool stops the copy |
| AlignGrid.PrecopyProgram | src/mamba_utils_guarded.py:539-590 | one pre-copy program: skipped entries, fresh and unmoved requests copy nothing, others copy from the staged column and bias |
| AlignGrid.PrecopyKernel | src/mamba_utils_guarded.py:506-590 | the pre-copy launch in place, in any order |
| AlignGrid.HostLoopStages | src/mamba_utils_guarded.py:1425-1470 | what the host loop stages for a request is the copy its decision asks for, seed included |
| AlignGrid.KernelStages | src/mamba_utils_guarded.py:485-503 | so is what the device kernel leaves in a request's slot |
| AlignGrid.PrecopyCarries | src/mamba_utils_guarded.py:568-590 | from what host or device staged, for every batch and any order: the launch leaves each request the columns that pre-copy of the column machine gives it, or those it had if the new column's block lies outside the pool |
| AlignGrid.DecisionsAgree | src/mamba_utils_guarded.py:403-411 | both ways of finding the running token count lead to the same save |
| AlignGrid.SeenResetLosesCopy | src/mamba_utils_guarded.py:1187-1204 | a program that saw the reset count would not copy, although a copy is due whenever the bias is positive: why counts are read from a snapshot |
| AlignGrid.PostprocessProgram | src/mamba_utils_guarded.py:383-457 | the copying part of one post-processing program: decide from column, advanced count and snapshot, then copy |
| AlignGrid.PostprocessKernel | src/mamba_utils_guarded.py:320-457 | the copying part of the launch in place, in any order |
| AlignGrid.PostprocessSaves | src/mamba_utils_guarded.py:399-457 | for every batch, every order, every computed, scheduled, draft and accepted count: the launch leaves each request the columns that the save of the column machine gives it, those it had when no save is due, or those it had if the block saved to lies outside the pool |
| AlignGrid.StoreCounts | src/mamba_utils_guarded.py:424-428 | any order of the grid's programs leaves each mapped slot's count reset to 1 exactly when due by the snapshot, and every other count alone |
| AlignGrid.ResetsAsMachine | src/mamba_utils_guarded.py:424-428 | a count is reset exactly when the column machine resets it |
| ColumnRefinement.LaunchKeepsBlock | src/mamba_utils_guarded.py:186-195 | a block that is nobody's destination keeps its data through a launch |
| ColumnRefinement.LaunchRefinesCopyState | src/mamba_utils_guarded.py:298-317 | a byte-level launch carries encoded temporal columns to exactly the columns the column machine's copy gives |
| ColumnRefinement.LaunchRefinesWindows | src/mamba_utils_guarded.py:199-296 | the same for convolution windows, token-major (one row) and dim-major (a row for each dimension): the shift leaves the window the column machine gives, and every other column's window unchanged |
| PleTable.ShardsHoldVocabulary | src/vllm_ple_mmap.py:615-623 | with shards of ceil(vocab / parts) rows the expected row counts sum to exactly the vocabulary |
| PleTable.IdInItsShard | src/vllm_ple_mmap.py:615-619 | an id is below the vocabulary size if and only if its local row exists in its shard |
| PleTable.ShardLength | src/vllm_ple_mmap.py:618-623 | a shard's slice of the table has exactly the rows the size check demands |
| PleTable.AnswerUnique | src/vllm_ple_mmap.py:180-234 | there is exactly one right answer to a gather, and over a complete table it is a row list exactly for the in-range id lists |
| PleTable.NoGapServes | src/vllm_ple_mmap.py:180-206 | with no missing shard before a loaded one, every id whose shard is loaded is in range |
| PleTable.RefusedThoughServed | src/vllm_ple_mmap.py:188-206 | a served id is refused if and only if it is not below the loaded rows, and such an id exists if and only if a shard with rows is missing before a loaded one |
| PleTable.RefusedInstance | src/vllm_ple_mmap.py:615-623 | an instance: two rows in two shards, the first missing, and the row that is there refused |
| PleTable.Unique | src/vllm_ple_mmap.py:199-201 | sort and dedupe: ascending distinct ids and an inverse that leads back to every position |
| PleTable.GatherInline | src/vllm_ple_mmap.py:184-198 | the inline path answers as plain indexing does, refusals included |
| PleTable.BuildTasks | src/vllm_ple_mmap.py:211-218 | the segments and chunks cut the unique ids into consecutive non-empty pieces of at most a chunk, each inside one shard |
| PleTable.CutsPartition | src/vllm_ple_mmap.py:211-218 | each position belongs to exactly one task |
| PleTable.RunTask | src/vllm_ple_mmap.py:220-227 | one task fills its slice from its shard and nothing else |
| PleTable.RunTasks | src/vllm_ple_mmap.py:229-233 | the tasks in any order fill every position with its row, or refuse exactly when a shard is missing |
| PleTable.GatherPooled | src/vllm_ple_mmap.py:199-234 | the threaded path answers as plain indexing does, refusals included |
| PleTable.EndsTell | src/vllm_ple_mmap.py:202-206 | the ends of the sorted list decide whether the whole request is in range |
| PleTable.Gather | src/vllm_ple_mmap.py:180-234 | both paths give table[ids[i]] at every position and refuse exactly the same lists |
| PleTable.Placeholder.PinnedBuffer | src/vllm_ple_mmap.py:271-281 | the old buffer when it fits, else a fresh one of sufficient size, else none |
| PleTable.Placeholder.Forward | src/vllm_ple_mmap.py:283-307 | a forward call answers as the resident table would, whatever earlier calls left in the buffer |
| PleTable.Placeholder.ForwardAll | src/vllm_ple_mmap.py:271-307 | so does every call of any sequence of calls over one growing buffer |
| Publish.EveryHistorySafe | scripts/publish_srh_release.py:40-78 | over any number of runs cut or refused at any call, with others pushing and merging meanwhile: the tag is the old one or was put on a commit with the tested tree, and a new release stands only over such a tag |
| Publish.EachCallSafe | scripts/publish_srh_release.py:65-77 | at each single call an existing tag never changes, and a release appears only under a verified tag |
| Publish.FirstMergedIs | scripts/publish_srh_release.py:46-47 | the search finds the first listed pull merged with this head, and nothing if and only if there is none |
| Publish.FirstOpenIs | scripts/publish_srh_release.py:46-52 | the same for the first open one |
| Publish.CompletesIffReady | scripts/publish_srh_release.py:40-78 | an uninterrupted run finishes if and only if the first listed pull merged with the tested head stands on good ground, or there is none and a merge of a listed open pull with that head, or of a new one, would |
| Publish.MergedIsFound | scripts/publish_srh_release.py:45-47 | after a merge whose answer was lost, a rerun finds the merged pull |
| Publish.StaysOnTrack | scripts/publish_srh_release.py:40-78 | every call of a run from a ready remote leaves a ready remote |
| Publish.RerunCompletes | scripts/publish_srh_release.py:40-78 | from a ready remote, after any number of runs cut anywhere, one uninterrupted run completes the job |
| Publish.EveryHistoryCompletes | scripts/publish_srh_release.py:40-78 | the same with others' changes in between, as long as they leave the remote ready: after any such history one uninterrupted run completes the job |
| Publish.CompletedRunIsQuiet | scripts/publish_srh_release.py:40-78 | a run after completion makes no writes and finishes again |
| Publish.Run | scripts/publish_srh_release.py:40-78 | the procedure, call by call over an API that may be cut before or after taking effect, behaves as that protocol |
| Campaign.EveryMomentApart | srh/recommendation/campaign.py:127-174 | after any number of calls, whatever they meet (success, error or interrupt, landed or not): at most one variant runs, and none beside the source unless a stop of one has failed |
| Campaign.EveryMomentNamed | srh/recommendation/campaign.py:148-151 | at every moment the file names the variant that runs; only a campaign that also noted its failed stop may end with the name taken out again |
| Campaign.EveryMomentRecorded | srh/recommendation/campaign.py:100-120 | before anything is stopped, created or started, every measurement that counts is in the file |
| Campaign.FailureEndsMeasuring | srh/recommendation/campaign.py:155-161 | for all fates: once a call of the protected part fails or is interrupted, no later call stops the source, creates, starts, checks or measures; the journal has an error if and only if there was such a call, the file if and only if a later save landed; the evidence counts the measurements that worked |
| Campaign.RestoredExactly | srh/recommendation/campaign.py:127-174 | for all fates of all calls: the source is up and ready at the end if and only if its stop was asked and never landed, or was asked and the calls of the final part bring it back (last stop not interrupted, restart works, check lands), or was not asked and the first check found it ready; the file says restored if and only if the final part's calls lead to that save, and then the source runs |
| Campaign.EndsApart | srh/recommendation/campaign.py:162-174 | variants are apart at the end too, and one is left running only if stopping it failed |
| Campaign.InterruptSkipsRestart | srh/recommendation/campaign.py:163-171 | an interrupt of the last stop passes the handler: the run, state by state, ends with the source down although no restart or later check was ever made |
| Campaign.FirstCheckFails | srh/recommendation/campaign.py:129-131 | if the first readiness check fails, the file says restored over a source never seen ready |
| Campaign.OrderlyCampaign | srh/recommendation/campaign.py:127-174 | when every call works, source and all variants are measured, nothing but the source runs at the end, it is ready, and the file says so |
| Campaign.Runner.RunVariant | srh/recommendation/campaign.py:135-157 | one variant makes exactly the specified calls in order, each ending the variant if it fails, and leaves `active` as the final part must find it |
| Campaign.Runner.Body | srh/recommendation/campaign.py:127-157 | the protected part makes exactly the specified calls, with `stopped` set before the source is asked to stop |
| Campaign.Runner.Restore | srh/recommendation/campaign.py:162-174 | the final part ends exactly as the specified calls do: a body that skips the stop, the restart, the check or the save has another outcome |
| Campaign.Runner.Run | srh/recommendation/campaign.py:127-174 | the procedure passes exactly through the specified states, call by call, for the same fates, so the statements about every moment and every outcome hold of it; variants are apart at exit |
| Calibrate.NeighboursDecide | srh/scenarios/generate_enterprise_orders.py:323-337 | for a non-decreasing count, being no further off than the two counts at the threshold is being no further off than any |
| Calibrate.Calibrator.Measure | srh/scenarios/generate_enterprise_orders.py:251-283 | the cache never changes the answer |
| Calibrate.Calibrator.Bracket | srh/scenarios/generate_enterprise_orders.py:285-295 | doubling ends with an upper count that reaches the target above a lower one that does not, or with 65536 records short of it |
| Calibrate.Calibrator.Search | srh/scenarios/generate_enterprise_orders.py:304-321 | binary search ends on an exact hit or with the ends crossed at the threshold, never worse than it started |
| Calibrate.Calibrator.Run | srh/scenarios/generate_enterprise_orders.py:245-337 | calibration terminates; its count is closest to the target among all counts, not only the measured ones; it gives up if and only if 65536 records stay short |
| Ranking.SortAscends | srh/capacity/planner.py:382-382 | sorting distinct values by a strict order puts them in ascending order and keeps exactly them |
| Ranking.SortReordered | srh/recommendation/engine.py:112-117 | the ranking of distinct values does not depend on the order they came in |
| Shortlist.EligibleRanked | srh/capacity/planner.py:380-382 | the feasible candidates, each once, in strict order |
| Shortlist.PickOption | srh/capacity/planner.py:387-398 | the pick for a model is its first option in the best one's tier, within 15 points of its score and on hardware not yet shown, or its best one if there is none |
| Shortlist.BeforeIsLeads | srh/capacity/planner.py:382-382 | the sorting order is: better tier, then higher score, then smaller id |
| Shortlist.ModelsByBest | srh/capacity/planner.py:385-385 | models are taken in the order of their best candidates |
| Shortlist.PickModels | srh/capacity/planner.py:383-402 | one such pick per model class, in order, while there is room |
| Shortlist.AddHardware | srh/capacity/planner.py:403-409 | then each entry is the best candidate on hardware not shown before it, until all hardware is shown or there is no room |
| Shortlist.FillUp | srh/capacity/planner.py:410-414 | then each entry is the best candidate not selected before it; the loop stays within the size because the best entry is already selected when it is entered |
| Shortlist.Choose | srh/capacity/planner.py:379-415 | for distinct ids and size >= 1: exactly min(size, feasible) distinct feasible entries, the overall best first, in three stretches: a fair pick for each model, the best on fresh hardware while some is not shown, the best of the rest |
| Evidence.PercentileMeetsLimit | srh/experiments/executor.py:30-42 | the nearest-rank percentile meets a limit if and only if at least ceil(pct%) of the values do |
| Evidence.MinimumReaches | srh/experiments/executor.py:45-63 | the reported minimum reaches a target if and only if every rounded value does |
| Evidence.RoundIsNearest | srh/experiments/executor.py:45-63 | rounding to 2 or 4 places gives the nearest multiple, the even one between two |
| Evidence.MetricReads | srh/experiments/executor.py:30-63 | the reported percentile is the rounded value that at least 95% do not exceed and fewer than 95% are under; the reported minimum the rounded least value |
| Evidence.CountedRequests | srh/experiments/executor.py:453-462 | the counted requests are the successful ones of all batches in order, the others the failures |
| Evidence.ReplayedRest | srh/experiments/executor.py:453-520 | its passes count the answers that ended by themselves with all five checks, its throughput is tokens of successes per second of each batch |
| Evidence.ReplayedMeans | srh/experiments/executor.py:453-520 | a replayed summary read off the raw observations: request and failure counts, metrics and worst fresh score |
| Evidence.AllSuccessesRewritten | srh/recommendation/evidence.py:48-62 | rewriting touches nothing but the quality of successful requests |
| Evidence.ReplayIgnoresStored | srh/recommendation/evidence.py:24-77 | observations that differ only in stored request quality and batch aggregates replay to the same result, refusals included |
| Evidence.ReplayRequest | srh/recommendation/evidence.py:48-73 | one request of the loop: counted as failed, or evaluated anew in place, with the counters advanced |
| Evidence.ReplayBatch | srh/recommendation/evidence.py:39-74 | one batch is refused exactly when invalid, else its copy is rewritten in place |
| Evidence.ReplayAll | srh/recommendation/evidence.py:24-77 | the nested loops over the copied batches give exactly the specified replay |
| Acceptance.NothingRejected | srh/recommendation/engine.py:96-105 | nothing is rejected if and only if every item judges well and no key repeats |
| Acceptance.CleanReordered | srh/recommendation/engine.py:96-105 | whether everything is accepted, and which rows then result, does not depend on the order |
| Acceptance.Collect | srh/recommendation/engine.py:95-105 | the loop that appends rows and rejections gives the specified ledger |
| Recommend.JudgedExactly | srh/recommendation/engine.py:24-68 | a record gives a row if and only if it passes the gates, the contract has its targets and both modes' observations are valid; the missing-metric gate never fires |
| Recommend.EligibleMeans | srh/recommendation/engine.py:58-86 | a row is eligible if and only if, on the raw requests: some succeeded, at least 95% meet each latency limit, all meet the throughput floor and the score, all answers ended and have what the rules demand, and the failed share is within its limit; then its ranking numbers exist |
| Recommend.AssessMeans | srh/experiments/paired_modes.py:53-180 | the assessment of a summary passes exactly when the sample meets the objectives and the mandatory rate is 1 |
| Recommend.RowReads | srh/experiments/paired_modes.py:60-118 | the numbers a row is ranked by: the 95th percentiles of the raw times to first answer and to the end, to four places of seconds and then two of milliseconds, and the least raw rate; none if nothing succeeded |
| Recommend.FiguresUnique | srh/experiments/paired_modes.py:60-118 | the raw observations determine those numbers |
| Recommend.JudgeIgnoresStored | srh/recommendation/engine.py:24-86 | the gates and the row do not depend on stored quality, aggregates, summaries or assessments |
| Recommend.DecideIgnoresStored | srh/recommendation/engine.py:89-132 | nor do the ledger, verdict, ranking and recommended profile |
| Recommend.DecideReordered | srh/recommendation/engine.py:95-132 | verdict, ranking and recommended profile are unchanged by any reordering of the evidence list |
| Recommend.VerdictMeans | srh/recommendation/engine.py:106-126 | insufficient if and only if there are not three records, all good, of distinct profiles and measured alike on one machine type; else recommended if and only if a record meets every objective on its raw requests; the ranking lists exactly those records, by the figures read off their raw requests, then hash; the recommended profile is its first |
| Recommend.RecommendProfile | srh/recommendation/engine.py:89-132 | the procedure gives that decision, and refuses a contract the workload validator refuses, or with objectives that are not finite, before looking at evidence |
| Deployment.ManifestByProfile | srh/recommendation/deployment.py:24-46 | the manifest is refused if and only if it is invalid; otherwise exactly its entries are found under their profiles |
| Deployment.RecommendDeployment | srh/recommendation/deployment.py:53-110 | the procedure gives the specified decision |
| Deployment.DecideOnManifest | srh/recommendation/deployment.py:49-110 | with the manifest: refused exactly for a refused contract or manifest |
| Deployment.DeploymentReordered | srh/recommendation/deployment.py:53-110 | the decision is unchanged by any reordering of the evidence list |
| Deployment.DeploymentIgnoresStored | srh/recommendation/deployment.py:53-110 | the decision does not depend on stored results |
| Deployment.OutcomeMeans | srh/recommendation/deployment.py:76-110 | insufficient if and only if there are not two records, all good, listed in the manifest, of distinct profiles and one cohort, with a cost for every deployable one under cost-first; else recommended if and only if a record meets every objective under an approved licence; the ranking lists exactly those records by the policy's order of cost and raw figures, then hash; the first is selected |
| Contracts.ValidateDistribution | srh/workloads/contract.py:23-65 | nothing is appended exactly for a sound distribution, and nothing is ever removed |
| Contracts.ValidateTraffic | srh/workloads/contract.py:95-129 | the same for the concurrency list: positive integers, no duplicates |
| Contracts.ValidateResponse | srh/workloads/contract.py:260-315 | the same for the response contract |
| Contracts.ValidateContract | srh/workloads/contract.py:68-329 | the validator raises if and only if a section is given as null or the maximum context is no number where it is compared; otherwise its error list is empty if and only if the contract is sound |
| Contracts.NullSectionCrashes | srh/workloads/contract.py:173-234 | giving context, tools or quality as null crashes the validator on every contract that is otherwise sound, though leaving the section out does not |
| WorkloadPlan.Unique | srh/workloads/planner.py:229-246 | the loop with its seen set keeps the first point of each key |
| WorkloadPlan.KeepFirstKeys | srh/workloads/planner.py:229-246 | deduplication loses no key, keeps none twice, and keeps the first point first |
| WorkloadPlan.BuildPlan | srh/workloads/planner.py:49-246 | the planner gives the specified plan |
| WorkloadPlan.PlanStartsWithBaseline | srh/workloads/planner.py:84-100 | the plan starts with the baseline at the least concurrency, and no two experiments share a key |
| WorkloadPlan.PlanCoversUsers | srh/workloads/planner.py:102-122 | every declared concurrency keeps a warm typical-request measurement after deduplication |
| WorkloadPlan.PlanIsWanted | srh/workloads/planner.py:84-246 | the plan measures exactly: the typical request warm under every load, the tail request warm under the least and largest load and cold under the least, the largest request warm under the least, and, if and only if context reuse is expected, shared context under the least and the largest load |
| WorkloadPlan.PlanClassed | srh/workloads/planner.py:84-224 | the percentile class of each point is that of its sizes |
| WorkloadPlan.PlanFitsExactly | srh/workloads/planner.py:161-175 | every planned request fits a limit if and only if the largest one does, an undeclared maximum meaning the 95th percentile and a null one nothing |
| WorkloadPlan.DeclaredPlanFits | srh/workloads/planner.py:161-175 | with both maxima declared no planned request exceeds the declared maximum context |
| WorkloadPlan.UndeclaredPlanMayNotFit | srh/workloads/planner.py:64-70 | a sound contract without maxima whose plan exceeds its own maximum context |
| WorkloadPlan.PlanNamesDistinct | srh/workloads/planner.py:87-223 | no two points of a plan carry the same experiment id |
| Intake.TranslationSound | srh/capacity/planner.py:103-176 | a valid intake with valid assumptions never crashes the validator, and its contract is sound if and only if its workload class is a non-empty string |
| Intake.TranslatedSizes | srh/capacity/planner.py:108-126 | each translated size is the least whole number of tokens enough for the retrieved pages, or in the other mode all pages, with the overhead, or for the words it stands for, by the assumptions given or 450, 1.34 and 256 |
| Intake.TranslatedLimits | srh/capacity/planner.py:147-172 | the declared context is exactly what the largest request needs; the assistant may use the whole answer, the probe a typical one but at most 128 tokens |
| Intake.TranslateIntake | srh/capacity/planner.py:103-182 | the procedure gives the translated contract exactly then, and refuses otherwise |
| Intake.IntakePlanned | srh/capacity/planner.py:119-173 | the plan of an accepted intake: baseline for one user first, the declared users measured, no key twice, nothing beyond the declared maximum context |
| IntakeChain.OwnExperimentsAdmitted | srh/recommendation/engine.py:24-57 | the contract translated from an accepted intake is sound, and some record is admitted for an experiment if and only if the experiment is in its own plan and reasoning is not left optional |
| Intake.ReuseByDefault | srh/capacity/planner.py:147-151 | omitted probabilities become 0.3 and 0.2, so shared-context experiments are left out only when both are given as 0: translation does not use validation's default |

## Left out

- AlignColumns.EveryRunExact: the steps are functions on column contents, one request at a time; batches and memory are tied to it in `AlignBatch` and `AlignGrid`.
- AlignColumns.ForwardReady: the forward pass is an assumed contract taken from the source's own comments; its kernels are not modelled.
- AlignColumns.RestartKeepsExact: a restart is at a block boundary that was saved; which blocks the cache evicts is a parameter.
- OverlapCopy.ShiftTokens: copies of successive tokens are ordered, as one program without a barrier issues them; warp-level reordering is not modelled.
- OverlapCopy.BatchCopyIsMemmove: under a left overlap every lane of a chunk loads before any stores; chunks are issued in order.
- TiledCopy.AnyInterleavingCopies: an 8-byte access is one indivisible move.
- StateCopy.CopyStateBlock: addresses are natural numbers in one flat memory; 64-bit wrap-around of addresses is not modelled.
- AlignBatch.PreprocessKernel: buffers handed over asynchronously between host and device are read as written; stream timing is not modelled.
- PleTable.Unique: built by sorted insertion; NumPy's own sorting is not modelled.
- PleTable.Gather: one kind of refusal for a missing shard, where the inline path raises a TypeError and the pooled path an IndexError.
- PleTable.Placeholder.Forward: the asynchronous copy out of the pinned buffer is taken to finish before the next call refills it.
- PleTable: file parsing, madvise, prewarming, counters and dtype views.
- Publish.EveryHistorySafe: others may push, open and merge but do not touch this tag or its release, and trees of commits do not change.
- Publish.Run: titles and bodies of pulls and releases, the local git checks before it, and printing.
- Campaign.Runner.Run: containers stop only when asked; what a call does, it does at that call, and an interrupt comes during a call; that the error is raised again at the end; a readiness check establishes readiness that lasts until the next stop or start; failures of file locking and signal set-up before the protected part.
- Calibrate.Calibrator.Run: `materialize` and the tokenizer are one function from a filler count to a token count, assumed never to fall.
- Shortlist.Choose: ids are integers that stand for strings in their order; the float powers that produce the scores are not modelled.
- Evidence.ReplayAll: numbers are exact reals, rounded half to even where the source rounds; medians, time to first token and prompt tokens, which no decision reads; the text of a refusal.
- Evidence.ReplayRequest: what the semantic evaluator finds in an answer is a field of the request; its text matching is not modelled.
- Evidence.ReplayAll: fields of the wrong JSON type other than a number's, all of which the source refuses.
- Recommend.RecommendProfile: the next action, the control experiment, the mismatching fields (which do depend on order when a profile occurs twice), timestamps and hashes of evidence and contract.
- Recommend.JudgedExactly: the profile hash is a number recomputed from the execution identity; hashing and JSON are not modelled.
- Deployment.RecommendDeployment: service objectives that are not finite numbers, which this entry point does not refuse.
- Contracts.ValidateContract: the warnings; texts of errors.
- WorkloadPlan.BuildPlan: cache probabilities that are not numbers; purposes and policy fields copied into the plan.
- Intake.TranslateIntake: infinite or undefined numbers; the name, description and rate fields; the provenance trace.
- `_estimate_candidate`, the web service, the streaming client, the decision engine and its live variant, report renderers, `src/patch_*.py` other than the block-size fix, and the quantization patches: simple branching, display, or code against files not in the repository.
