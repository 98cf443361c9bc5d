# litelink, verified

A model of litelink's three-tier log, and proofs of what it promises. litelink commits rows
to a SQLite buffer, seals them into staging files, compacts the staging files, publishes them
to a second Iceberg table, swaps merged files in for what it published, and evicts what is
published, while readers, several maintenance processes and crashes interleave.

Rows are immutable once committed, so an offset stands for its row wherever its contents do
not matter. A SQLite transaction is one step, an Iceberg commit is one step, and a file write
is a step of its own. A process may stop for ever between any two of its steps.

## The parts

**The tiers as a state machine.** `TierState` holds the durable tables and the operations in
flight; `TierSteps` the steps: append, reserve, claim, write and register a seal, bulk load,
compact, publish, confirm, evict, truncate, drain, and a crash at any point. A publish reads
the staging table, the published table and the intents one after another, reconciles, forgets
the intents it did not find landed, lists and commits its swaps, then lists and commits its
push, each list by what is finished with, flushed or covered as it is made. It forgets and
swaps however stale its claim, and one whose claim has lapsed still forgets, and may still
name a copy. `TierTables`, `TierMerge`, `TierPublish`,
`TierEvict` and `TierOps` prove what each step keeps. `TierEffects` says what each step does to
each table, row by row and file by file. `TierRuns` shows that every step keeps
what safety rests on (`StepSafe`); `TierTidy` and `TierOrderly` that every orderly step, one
that drops no intent anything rests on and begins no swap once its claim is stale, also keeps
published files covered and lined up (`StepKeeps`). `TierTheorems` and `TierHistory` state what
holds of every run, and what of every orderly run; `TierPushes` exactly when a push is refused. `TierTruncate`
follows a truncation through its three commits, and `TierProgress` shows that each pass can be
run to its end. `QueryReader` interleaves a query's five reads
with any steps. `TierFailures` holds the exact conditions of the promises that fail, and the
runs that break them.

**Where the steps come from.** `TierQueue` and `QueueRuns` run the seal queue beside the tiers:
the group a sealer reads as due is one the protocol lets it seal, and a queue that owes nothing
is one a bulk load may start on. `MergePlans` shows that a run compaction plans is one the
protocol's merge may take, `MergeRewrites` that what the writer produces is one it may commit,
`PushPlans` that the swaps and the files a publish lists are those the protocol has it make,
and `TruncateFloor` that the floor found is one a truncation may cut at.

**A merge.** `CompactionPlan` is what compaction chooses, and `CompactionRuns` exactly which files
those are; `SettledFiles` when it is finished with a file. `InputSlices`, `SliceReads`, `RowGroups` and `MergeWriter` are how it reads,
groups, sorts, cuts and checks rows. `KWayMerge` is the benchmark's merge of sorted inputs.

**The seal queue.** `SealQueue` decides which rows each seal file will hold, as they arrive.
`SealTakeover` is several sealers whose claims lapse, taking over from one another, and
`SealProgress` what one of them comes to uninterrupted.

**Caches, claims, the lease.** `TailCache` is the buffer's cached tail, `ClaimTable` the claims
on offset ranges, `LeaseRuns` the compare-and-swap lease between handles whose clocks differ and
whose writes may land late, `Lease` the handle and its file store.

**Narrowing.** `Prune` turns WHERE into terms, and terms into tiers a query may skip;
`PruneExact` says exactly which it skips;
`Statistics` folds what is known of the tiers' rows; `TierSkips` joins both to the reader.

`Options` and `Sorting` are shared by the rest.

## What the code does not promise everywhere

Each row is a promise that fails on a concrete run or input, and exactly when it holds.

| promise | fails on | holds |
|---|---|---|
| Watermark and intents cover what is published. | `TierFailures.StaleForgetUncovers`: a publish whose range another push has passed forgets a live push's intent. `TierFailures.LapsedForgetUncovers`: so does one that stalls past its claim's end before it forgets, its range as fresh as ever. | A dropped intent leaves everything covered if and only if it is below the watermark, or no push or swap whose range reaches past the published end is in flight under it and no registered or straddling file rests on it (`TierFailures.ForgetKeepsIff`). A publish that holds its claim, over a range past the published end, drops no such intent (`TierFailures.FreshPublishForgetsSafely`). |
| A swap replaces whole published files. | `TierFailures.StaleSwapCuts`: a stale publish's swap commits after a larger merge of the same rows was swapped in. | If and only if each published file lies inside the swap's range or apart from it as it commits (`TierFailures.SwapWholeIff`); and over every orderly run, in which a swap is begun only while its claim reaches past the published end (`TierTheorems.SwapsRemoveWholeFiles`). |
| No push straddles what is published, so none is refused under a claim that holds. | `TierFailures.StraddlerRefused`: a merged file straddling the published end is left out of the swaps as unfinished, and is due by the time the push is listed: a stalled publish has written an intent over it, or compaction's target was lowered. | A push whose claim reaches past the published end is refused if and only if a staging file straddles that end (`TierPushes.PushRefusedIff`). The push takes such a file if and only if, as it is listed, watermark and intents cover it or compaction is finished with it, inside the claim (`TierPushes.StraddlerPushedIff`); and then only because of an intent written, or a policy changed, since the publish read the intents (`TierPushes.StraddlerPushedBecause`). A refusal changes no table. |
| A settled file is not rewritten. | `SettledFiles.SettledThenRewritten`: the run was chosen before the file settled. | If and only if no run in flight holds the file (`SettledFiles.SettledRewrittenIff`); always for a file pushed as settled (`SettledFiles.PushedNeverRewritten`). |
| Every seal file is named. | `SealTakeover.StaleRecordUnnames`: a sealer that lost its claim replaces the row of the one that took over. `SealTakeover.DrainedThenWritten`: a name queued and drained before its file is written. | If and only if each record replaces no file's only name, and each write is at a path still named (`SealTakeover.FilesNamedIff`). |
| A queued name stays unreferenced (`_maintenance.py`, lines 1373 to 1386). | `SealTakeover.QueuedThenReferenced`: a sealer that renewed and stalled registers the file a recovery queued. | Unless a sealer registers its file there, its group not covered yet (`SealTakeover.QueuedReferencedIff`): nothing else ever refers to a queued name. What then keeps the file is the drain's own look at the table. |
| A query is exact. | `TierFailures.TruncatedRowReturned`: both tables are empty, and the cached tail still has a truncated row. | If and only if a table cuts the tail or the tail has no truncated match (`QueryReader.QueryExactWhen`); when a row gone from the buffer is still answered is `TailCache.GoneAnswered`. |
| At most one handle holds the lease. | `LeaseRuns.SetBackHolds`: clocks set back. `LeaseRuns.FarApartHolds`: clocks one further apart than twice the margin. | While no clock is set back, and clocks differ by at most twice the margin (`LeaseRuns.AtMostOneHolder`). |

## Model

| member | source | states |
|---|---|---|
| TierRuns.StepSafe | src/litelink/_maintenance.py:637-852 | Every step any process may take, stale or lapsed publishes and crashes included, keeps what safety rests on: files hold committed rows once, the tiers' legs and the watermark, the tier row, and each operation's own premise. |
| TierOrderly.StepKeeps | src/litelink/_handle.py:3670-4023 | Every orderly step also keeps every published file covered by watermark and intents and lined up with staging, and what each publish in flight counts on. |
| TierEffects.BufferChanges | src/litelink/_buffer.py:2556-2575 | At any step a row enters the buffer only by an append, and leaves it exactly when an eviction's range or a truncation's floor takes it. |
| TierEffects.StagingChanges | src/litelink/_maintenance.py:803-852 | At any step in a reachable state: a seal is added unless a table or the watermark has its rows; a load is added; a merge puts its outputs for every file within its run's span; an eviction or a truncation takes the files ending by its offset; nothing else changes. |
| TierEffects.PublishedChanges | src/litelink/_table.py:1926-2050 | At any step: a swap takes out each file with a row in its range and puts in the merged file and what it cut; a push adds its copies exactly when they lie past all that is published; a truncation takes the files ending by its floor; nothing else changes. |
| TierEffects.QueuedChanges | src/litelink/_maintenance.py:822-838 | At any step, the names queued for deletion are exactly those of a declined seal, of a merged run, of the files an eviction or a truncation takes, and any added by hand; only a drain removes one. |
| TierEffects.TierChanges | src/litelink/_tiers.py:127-154 | At any step the stored row grows by the rows of the files about to leave staging and by rows widened for, and is replaced only by the published rows a query takes from there. |
| TierEffects.LookSees | src/litelink/_handle.py:3670-3821 | What a publish notes of the published table is its end, the copies that reach past the first row it saw staged, and which files it saw staged are unpublished and meet published files all lying within them. |
| TierEffects.NotesTaken | src/litelink/_handle.py:3670-4023 | What an operation notes as it goes: the rows a seal file takes, the floor a merge reads, the intents a publish has yet to drop, the swaps it has yet to make, the files and the end its push has come to, and what is to be confirmed after. |
| TierTheorems.NothingLost | src/litelink/_maintenance.py:893-926 | In every reachable state, each committed row not truncated is in the buffer, staging or published. |
| TierTheorems.BufferedBelowStaging | src/litelink/_buffer.py:1349-1393 | A buffered row below the staging end is already in a staging or published file. |
| TierTheorems.FiledOnce | src/litelink/_handle.py:3365-3384 | No table ever holds a row in two files. |
| TierTheorems.WatermarkPublished | src/litelink/_buffer.py:1701-1758 | In every reachable state, a committed row up to the watermark and not truncated is in the published table. |
| TierTheorems.WatermarkBrackets | src/litelink/_buffer.py:1701-1758 | In every state an orderly run reaches, watermark plus intents cover every offset of every published file. |
| TierTheorems.SwapsLineUp | src/litelink/_maintenance.py:739-748 | In every state an orderly run reaches, a published file lies wholly inside or wholly outside every staging file. |
| TierPushes.PushRefusedIff | src/litelink/_table.py:1926-2050 | In every state an orderly run reaches, a push about to commit has its files still in staging. One whose claim was left behind is declined; one whose claim reaches past the published end is refused if and only if a staging file straddles that end, a file left out of its swaps and then found due, and is registered otherwise. A refusal changes no table. |
| TierPushes.StraddlerPushedIff | src/litelink/_handle.py:3827-3858 | In every state an orderly run reaches, as a publish lists its push: a straddler was neither flushed nor finished with when swaps were listed; it is pushed if and only if it is inside the claim and by then covered by watermark and intents or finished with; and nothing else is pushed. |
| TierPushes.StraddlerPushedBecause | src/litelink/_handle.py:3649-3668 | Over any such run from the reading of the intents: a straddler is pushed only if compaction has finished with it since, or each of its offsets past the published end is under an intent written since. |
| TierTheorems.LoadNeverDeclined | src/litelink/_handle.py:2853-2904 | In every reachable state, a bulk load registers: nothing filed or published reaches its range. |
| TierTheorems.CommitsRemoveWholeFiles | src/litelink/_maintenance.py:803-852 | In every reachable state, a merge, an eviction and a truncation about to commit remove whole files: none straddles the range they delete. |
| TierTheorems.SwapsRemoveWholeFiles | src/litelink/_handle.py:3920-4023 | In every state an orderly run reaches, a swap removes whole published files and writes nothing but the file swapped in. |
| TierTheorems.EvictionOnlyPublished | src/litelink/_maintenance.py:928-1092 | From any reachable state, a row leaves the buffer or staging only if the published table holds it. |
| TierTheorems.NothingResurrected | src/litelink/_maintenance.py:637-685 | From any reachable state, a row that enters staging is above everything filed and not truncated: no merge or late seal brings one back. |
| TierTheorems.LeavesQueued | src/litelink/_maintenance.py:822-838 | From any reachable state, a file that leaves staging is in the deletion queue by then. |
| TierHistory.NeverRestaged | src/litelink/_maintenance.py:968-1084 | Over any run, a row that left staging never returns to it. |
| TierHistory.ReachesEvolves | src/litelink/_read.py:753-766 | Over any run, loads, truncations and crashes included: rows arrive only above all others and move only from buffer to staging to published; the ends never fall, staging's start never falls, and the published table loses only truncated rows. |
| TierTruncate.TruncationCuts | src/litelink/_maintenance.py:1142-1184 | However far a truncation has got, and whatever came between its three commits: each tier it has reached has lost exactly its rows below the floor, and each it has not reached still holds them. |
| TierTruncate.TruncationResumes | src/litelink/_maintenance.py:1094-1140 | After a crash at any stage, the next call may cut at the same floor. |
| TierProgress.LoadMayFinish | src/litelink/_handle.py:2853-2904 | From any reachable state in which every row is filed and nothing is claimed, a load can be run to its end, and leaves one staging file of its rows. |
| TierProgress.EvictionMayFinish | src/litelink/_maintenance.py:928-1092 | From any reachable state, nothing claimed below a published staging file's end, an eviction up to it can be run to its end, and leaves the files past it, the others' names queued. |
| TierProgress.TruncationMayFinish | src/litelink/_maintenance.py:1142-1184 | From any reachable state with nothing claimed, a truncation at an offset that no file straddles and that is published can be run to its end, and leaves nothing below it in any tier and all the rest. |
| TierProgress.BufferMayEmpty | src/litelink/_buffer.py:2556-2575 | From any reachable state, the buffer may lose every row the watermark covers, and only those. |
| TierProgress.WatermarkMayCatchUp | src/litelink/_buffer.py:1701-1758 | From any reachable state, whoever looks at the published table may raise the watermark to its last row, and forget the intents of copies seen there. |
| TierProgress.QueueMayDrain | src/litelink/_maintenance.py:1373-1386 | From any reachable state, a name queued by anyone can be drained unless a table refers to it, and the stored row can be widened. |
| QueryReader.QueryExact | src/litelink/_read.py:713-775 | Whatever moved between the query's reads, loads and truncations included, and whichever tiers it skipped: each matching committed row, not truncated, below one cut comes back exactly once, and no row twice; a row truncated before the snapshots comes back just when no table cuts the tail and the cache has it. |
| QueryReader.QueryExactWhen | src/litelink/_read.py:905-927 | With no truncation finishing between the snapshots, the whole answer is exact if and only if a table cuts the tail or the tail has no truncated match. |
| TierFailures.ForgetKeepsIff | src/litelink/_handle.py:3859-3890 | In every state orderly runs reach, dropping an intent keeps everything covered and every operation's premise if and only if nothing rests on it. |
| TierFailures.StaleForgetUncovers | src/litelink/_handle.py:3592-3648 | An orderly run, its tier row written, to a publish with a stale claim whose forget leaves another's file published and covered by nothing, open to compaction. |
| TierFailures.LapsedForgetUncovers | src/litelink/_handle.py:3787-3821 | The same from a publish whose claim lapsed before it forgot, its range still past the published end. |
| TierFailures.ForgottenIntentUncovers | src/litelink/_handle.py:3859-3890 | In any reachable state, once a copy's intent is dropped no offset only it covered can be seen to be published: not while the copy has landed unconfirmed, nor after a push or a swap registers it. |
| TierFailures.FreshPublishForgetsSafely | src/litelink/_handle.py:3787-3821 | A publish that still holds its claim, over a range that reaches past the published end, drops no intent that anything rests on, pushes, swaps and landed copies alike. |
| TierFailures.SwapWholeIff | src/litelink/_handle.py:3963-4018 | In every reachable state with no published file cut yet, a swap writes no part of a file anew, and leaves only files written, if and only if its file lines up with what is published. |
| TierFailures.StaleSwapCuts | src/litelink/_handle.py:3963-4018 | A reachable run in which a stale publish's swap cuts a published file in two. |
| TierFailures.StraddlerRefused | src/litelink/_table.py:1995-2050 | Two orderly runs to a push refused under a claim it holds and that reaches past the published end: by an intent a lapsed publish writes, and by a target lowered between two reads of the policy. |
| TierFailures.TruncatedRowReturned | src/litelink/_read.py:905-927 | A reachable log with no row anywhere, whose cached tail a query still returns. |
| CompactionPlan.StretchesPartition | src/litelink/_maintenance.py:253-289 | The stretches hold every file in order; each is one full file or a run of files under the target; only the last may be open. |
| CompactionPlan.Stretches | src/litelink/_maintenance.py:253-289 | The loop over files gives exactly those stretches. |
| CompactionPlan.StablePrefix | src/litelink/_maintenance.py:344-378 | The loop counts the files of the leading stretches compaction leaves alone. |
| CompactionPlan.SettledEndsFull | src/litelink/_maintenance.py:344-378 | With at least two files to a merge, the stable prefix is empty or ends on a full file, and is stable by itself. |
| CompactionPlan.PlanLeavesSettled | src/litelink/_maintenance.py:560-601 | Every run compaction chooses has at least two files, all under the target, all past the stable prefix. |
| CompactionPlan.PlanContiguous | src/litelink/_maintenance.py:519-601 | Every run compaction chooses is adjacent files of the table past the stable prefix, under the target. |
| CompactionRuns.PlanExact | src/litelink/_maintenance.py:292-341 | Files are a run of the plan if and only if they are due: a longest run of candidates under the target, enough of them, that a full file follows; or, of the files at the end of the table, all of them when none is published, the published ones when the first is, each once a step's worth follows the first or on a flush, and those past the floor once they fill a target. |
| CompactionRuns.PlanInOrder | src/litelink/_maintenance.py:575-601 | The plan's runs come in the table's order, and none overlaps another. |
| MergePlans.PlannedIsWhole | src/litelink/_maintenance.py:617-685 | In every reachable state, a run planned from the table's listing holds every committed row of its range, as the protocol's merge claims. |
| MergePlans.PlannedIsCandidate | src/litelink/_maintenance.py:575-601 | And each of its files is one the protocol's check, read from watermark and intents, lets merge. |
| PushPlans.SwapsAreListed | src/litelink/_handle.py:3963-3990 | Whatever files are owed a swap, those the candidate test picks of the files lined up are what the protocol asks of a list of swaps, every flushed or finished straddler among them. |
| PushPlans.SwapListedIff | src/litelink/_handle.py:3963-3990 | A file lined up is listed if and only if it is owed a swap or straddles the floor, and compaction is finished with it, or it straddles the floor under a flush. |
| PushPlans.PushedInTurn | src/litelink/_handle.py:3827-3858 | The files a publish pushes, the longest prefix due and inside its claim, are at each point exactly what the protocol lets it push next, and then nothing. |
| PushPlans.FrozenIsRead | src/litelink/_maintenance.py:482-517 | The prefix walked over the watermark's range and the intents' is the one the protocol goes by. |
| SettledFiles.SettledForEver | src/litelink/_maintenance.py:344-378 | After any seals, choices, late commits and evictions, a settled file no run in flight holds is still settled, or was evicted, and no merge rewrote it. |
| SettledFiles.SettledRewrittenIff | src/litelink/_maintenance.py:617-685 | A settled file is ever rewritten if and only if a run chosen before it settled is in flight and holds it. |
| SettledFiles.PushedNeverRewritten | src/litelink/_handle.py:3649-3668 | A file pushed as settled, under a claim apart from those of the merges in flight, is never rewritten. |
| SettledFiles.SettledThenRewritten | src/litelink/_maintenance.py:637-852 | A run in which two files settle while a merge of them is written, and the merge commits. |
| SettledFiles.FinalNotPlanned | src/litelink/_maintenance.py:575-601 | A settled file no run in flight holds is in no run compaction plans from then. |
| SettledFiles.PlannedMayBeChosen | src/litelink/_maintenance.py:617-640 | Each run compaction plans is one that may be chosen, once no run in flight meets it. |
| CompactionPlan.MergeShrinks | src/litelink/_maintenance.py:750-797 | A merge leaves fewer files under the target than it found. |
| CompactionPlan.CompactionEnds | src/litelink/_maintenance.py:292-341 | With no new seals, merging the plan's own runs ends after at most as many merges as there are files under the target. |
| CompactionPlan.RewritesBounded | src/litelink/_config.py:153-184 | An in-progress file grows to the target in at most the ceiling of target over step rewrites. |
| CompactionPlan.Covered | src/litelink/_maintenance.py:381-406 | The walk over sorted ranges answers yes exactly when every offset asked for is in one of them. |
| CompactionPlan.PublishedPrefix | src/litelink/_maintenance.py:482-517 | The end reached covers a file if and only if it and every file below it are held by the ranges. |
| InputSlices.Slices | src/litelink/_maintenance.py:149-183 | A file is read a row group at a time, a slice each, exactly when it has several row groups, all with statistics, no two of which share an offset; and whole otherwise. |
| InputSlices.SlicesCover | src/litelink/_maintenance.py:149-183 | The slices are in order and apart, span the file, and split no row group: each row is read exactly once. |
| SliceReads.SlicesReadable | src/litelink/_maintenance.py:687-735 | A run's slices, each scanned for its rows in offset order, are in order and apart, read within their bounds, and end right after a row: what the writer and the protocol's merge assume. |
| RowGroups.Chunks | src/litelink/_maintenance.py:99-146 | Each group holds no more rows than the cap, and costs less than the budget without its last row, a row costing its batch's bytes over its batch's rows and at least one; every group but the last is at the budget or the cap; and they are the rows in order, cut where taking one row at a time would cut them. |
| RowGroups.GreedyKeepsRows | src/litelink/_maintenance.py:99-146 | Those groups hold every row, in order. |
| RowGroups.GreedyWithin | src/litelink/_maintenance.py:99-146 | No group is empty or over the row cap; each is within the byte budget but for less than its last row's measure; every one but the last is full. |
| RowGroups.RowGroups | src/litelink/_maintenance.py:186-241 | The loop over inputs gives the groups of whole inputs, with an input that does not fit cut on its own: the rows in order, broken only where they may be, each group within its limits, and no two in a row that could have been one. |
| RowGroups.GroupsSound | src/litelink/_maintenance.py:186-241 | The groups hold every row in order; none is empty; one is flagged exactly when it ends where an input ends; one that runs past an input's end starts and ends at one. |
| RowGroups.GatheredSized | src/litelink/_maintenance.py:186-241 | Every group is whole inputs within both limits, or one input, or a piece of an input that needs several. |
| RowGroups.GatheredApart | src/litelink/_maintenance.py:186-241 | Two groups in a row are apart for a reason: one is a piece of an input too large for a group, or the first input of the second would take the first past its bytes or its rows. |
| MergeWriter.Tally.Add | src/litelink/_maintenance.py:1717-1743 | The tally is the count and exact extent of all rows added. |
| MergeWriter.WriteMerge | src/litelink/_maintenance.py:687-801 | It fails with lost rows or a changed extent exactly when count or extent differ from the run's, and otherwise returns each file with its own extent and bytes. |
| MergeWriter.MergeSound | src/litelink/_maintenance.py:739-797 | The files hold a permutation of the run's rows, each row group sorted; their ranges are disjoint, in order and span the run; each but the last is full and ends at or above the watermark or at a file's end; and none goes on past a row group that brings it to the target at the end of a slice that stops at or above the watermark or at a file's end. |
| MergeRewrites.MergeRewritesRun | src/litelink/_maintenance.py:739-797 | What the writer produces from tight slices is what the protocol's merge step allows, cuts below the watermark included. |
| KWayMerge.Rolling.Append | benchmarks/compaction.py:211-236 | Rows appended are all written or pending, in order, in row groups of the exact size, and a file stays open only below the target. |
| KWayMerge.Rolling.Close | benchmarks/compaction.py:244-252 | Everything appended is written in order; every row group but the last is of the size asked for; and a file ends on the row group that brings it to the target, the last excepted. |
| KWayMerge.Pack | benchmarks/compaction.py:367-381 | The bins are the files in order; each fits unless it is one file; each ends only where the next file would not fit. |
| KWayMerge.Draw | benchmarks/compaction.py:415-430 | A round takes of an input exactly its rows up to the bound, and uses up the batch that set it. |
| KWayMerge.Merge | benchmarks/compaction.py:384-433 | Inputs each sorted are written as one sorted permutation of all their rows, in row groups of the size asked for but the last, in one file unless one reaches 2^62 bytes; and the rounds end. |
| SealQueue.CutsFirst | src/litelink/_buffer.py:800-809 | A cut falls on the first row at which the group reaches a limit, and the rows after it start afresh. |
| SealQueue.CutsAtLimits | src/litelink/_buffer.py:733-809 | With a row target, or fewer offsets than the 2^62 that stand for none: every group but the last ends on the first of its rows at which its bytes or its offsets reach a limit, and the last has reached none. |
| SealQueue.CutsBatches | src/litelink/_buffer.py:827-842 | However rows are split into batches, the groups are the same. |
| SealQueue.CutsKeep | src/litelink/_buffer.py:827-842 | The groups hold every row, in order. |
| SealQueue.InOneGroup | src/litelink/_buffer.py:588-638 | Each row owed a file lies in the range of exactly one group. |
| SealQueue.GroupsApart | src/litelink/_buffer.py:1226-1243 | Closed groups are in order and disjoint. |
| SealQueue.SealQueue.Open | src/litelink/_buffer.py:588-638 | A log with no open group gets exactly one, which adopts the buffered rows past every stored end, the filed end and the watermark, and no others, measured again. |
| SealQueue.SealQueue.Append | src/litelink/_buffer.py:703-863 | The batch loop leaves exactly the groups the cuts define, one of them open: each group it closes is cut on the first of its rows to reach the bytes, or the row target where one is set, and the open one has reached neither; earlier entries are untouched. |
| SealQueue.SealQueue.Reserve | src/litelink/_buffer.py:928-968 | Reserved offsets are above every row, and no row will have them. |
| SealQueue.SealQueue.CloseOpenGroup | src/litelink/_buffer.py:1261-1319 | The open group is closed, at the last buffered row, exactly when it still has a buffered row; and one group is open after. |
| SealQueue.SealQueue.FinishSeal | src/litelink/_buffer.py:1349-1393 | The group with that end is named, and nothing else changes. |
| SealQueue.SealQueue.Evict | src/litelink/_buffer.py:2556-2575 | Exactly the rows below the offset leave the buffer; the queue is as it was. |
| SealQueue.SealQueue.PendingGroup | src/litelink/_buffer.py:1226-1243 | The oldest group awaiting a file, below which no other waits; none exactly when no group is closed without a name. |
| TierQueue.OldestMaySeal | src/litelink/_handle.py:3156-3269 | Where queue and tiers agree, the oldest waiting group is filed already or begins at the first row no file holds. |
| TierQueue.NothingOwedMayLoad | src/litelink/_handle.py:2853-2904 | Where they agree, a queue with no group waiting and none begun leaves no row unfiled. |
| QueueRuns.MovesAreSteps | src/litelink/_handle.py:3156-3269 | What a sealer or a load does on the queue's reads alone is a step the tier protocol allows. |
| QueueRuns.QueueChanges | src/litelink/_buffer.py:703-1393 | What each move of a joint run does to the queue is what the queue's own methods do: rows appended are all owed, the open group is cut short and another opened, a group filed is named, and nothing else changes. |
| QueueRuns.MoveKeeps | src/litelink/_handle.py:3307-3384 | Every move of the queue and the tiers together keeps them agreeing: each group waiting is filed or past all that is, and every unfiled row is in one. |
| QueueRuns.QueueRunsReach | src/litelink/_buffer.py:703-863 | Every run of a new log and its queue ends in a state the tier protocol reaches, so all its theorems hold there. |
| SealTakeover.SealedOnce | src/litelink/_handle.py:3156-3269 | Over every run of sealers that stall, lapse, stop and take over, each group is registered at most once, whole and in queue order, and its rows are in the buffer until it is. |
| SealTakeover.StepKeeps | src/litelink/_handle.py:3307-3384 | Every step of a seal or a recovery keeps what that rests on. |
| SealProgress.SealMayFinish | src/litelink/_handle.py:3307-3384 | From any reachable state, a sealer nobody interrupts files the unfiled head of the queue in a new file that holds all its rows, and names it. |
| SealProgress.RecoveryMayFinish | src/litelink/_handle.py:3444-3485 | From any reachable state in which a seal is recorded and its file is not in the table, a recovery nobody interrupts queues the old name and files the group, whole, under a new one. |
| SealProgress.LandedMayFinish | src/litelink/_handle.py:3444-3485 | And one whose file is in the table is only named. |
| SealProgress.LapsedWriteQueued | src/litelink/_handle.py:3355-3364 | A sealer that wrote its file and then finds its claim lost queues the file's name and stops. |
| SealProgress.FilesMayGo | src/litelink/_maintenance.py:1373-1409 | A file merged or evicted away can be drained, and is then nowhere. |
| SealTakeover.FilesNamedIff | src/litelink/_handle.py:3444-3485 | Over every run of sealers that stall, lapse, stop and take over: every seal file is named by the table, `sealing` or `pending_delete` throughout if and only if each record and each write met its condition. |
| SealTakeover.FilesNamed | src/litelink/_handle.py:3444-3485 | Every seal file is named throughout any run in which seals are recorded and finished under claims still held, and no name is drained that a sealer has yet to write a file under. |
| SealTakeover.StepNames | src/litelink/_handle.py:3307-3384 | Any step leaves every file named if and only if: a record replaces no file's only name; a write is at a path still named; any other step, always. |
| SealTakeover.RecordNames | src/litelink/_buffer.py:1323-1336 | Recording a seal, its claim held or not, leaves every file named if and only if the row it replaces was not a file's only name. |
| SealTakeover.StaleRecordUnnames | src/litelink/_buffer.py:1323-1336 | A reachable run in which a stale sealer's record leaves a file with no name. |
| SealTakeover.DrainedThenWritten | src/litelink/_maintenance.py:1373-1409 | A reachable run, every record under a claim still held, in which a drained name's file is written afterwards and has no name. |
| SealTakeover.QueuedReferencedIff | src/litelink/_maintenance.py:1373-1386 | A queued name becomes referenced at a step if and only if that step registers the file written there, its group not covered. |
| SealTakeover.QueuedThenReferenced | src/litelink/_maintenance.py:1373-1386 | A reachable run in which a queued name becomes referenced afterwards. |
| TailCache.Buffer.RowsFrom | src/litelink/_buffer.py:1020-1101 | The answer is in order, nowhere below the start, leaves out no buffered row and holds only committed rows; it is the plain read's wherever no row from the start on has left the buffer. |
| TailCache.ReusableExact | src/litelink/_buffer.py:1103-1142 | The slice found by arithmetic is exactly the cached rows from the start on, gaps or not. |
| TailCache.GoneAnswered | src/litelink/_buffer.py:1103-1142 | A row that has left the buffer is answered if and only if it is cached, at or above the start, and the cache is complete from the start with no hole up to it. |
| TailCache.EvictedAnswered | src/litelink/_buffer.py:1020-1101 | Whatever leaves the buffer between two reads from one boundary, the second answers as the first did. |
| ClaimTable.Claim.Acquire | src/litelink/_claim.py:122-183 | It takes the range unless a live claim of another owner overlaps. Then each row there before is there still, unchanged, if and only if it was live or lies apart, the one new row is the claimant's over its range until its time, and nothing else is; refused, nothing changes; after an error nothing is believed held. |
| ClaimTable.Claim.Renew | src/litelink/_claim.py:185-216 | It succeeds exactly when its row is still there, expired or not. |
| ClaimTable.Claim.Release | src/litelink/_claim.py:230-241 | It removes its own row and no other, and the handle lets go. |
| ClaimTable.OwnersApart | src/litelink/_claim.py:122-183 | In every table any run reaches, rows of different owners never overlap, expired ones included, whatever the clocks read. |
| ClaimTable.RemovedIff | src/litelink/_claim.py:122-241 | A row leaves the table at an event if and only if its owner releases it, or clears its own range after an error, or an acquisition that is granted finds it expired and overlapping: no acquisition removes a live claim, or one apart from its range. |
| ClaimTable.AddedIff | src/litelink/_claim.py:149-183 | A row appears at an event if and only if it is an acquisition that no live claim of another owner overlaps, and it is the one asked for. |
| ClaimTable.StaysIff | src/litelink/_claim.py:122-241 | Over any run, a claim is still there at the end if and only if no event of it removes it. |
| ClaimTable.RenewalProves | src/litelink/_claim.py:185-216 | A renewal that finds its row proves that no other owner took any of the range since it was inserted. |
| LeaseRuns.AtMostOneHolder | src/litelink/_lease.py:75-135 | While no clock is set back and clocks differ by at most twice the margin, at most one handle has authority at any time, whatever writes lost their answers and however late they land. |
| LeaseRuns.SetBackHolds | src/litelink/_lease.py:117-121 | For every lease time and margin, a run with clocks that agree, and a step that sets them back, by which two handles have authority. |
| LeaseRuns.FarApartHolds | src/litelink/_lease.py:75-121 | For every lease time and margin, a run with clocks never set back and one further apart than twice the margin, and two handles with authority. |
| LeaseRuns.StaleHarmless | src/litelink/_lease.py:94-115 | A renewal or release changes the record only while it is the handle's own, however late it lands. |
| LeaseRuns.TakenExpired | src/litelink/_lease.py:75-92 | An acquisition, however late it lands, replaces only a record past its expiry and the margin. |
| LeaseRuns.CallComes | src/litelink/_lease.py:94-115 | What a renewal or a release by a handle with authority comes to in any state: answered, it replaces its own record, and costs the handle its authority if the record is another's; unanswered, a renewal leaves the handle as it was, and the write may land later to the same effect. |
| LeaseRuns.TakeComes | src/litelink/_lease.py:75-92 | What a look and an answered acquisition come to in any state: a live record refuses it; one replaced since leaves the handle free to try again; otherwise the record and the authority are the handle's. |
| Lease.FileStore.Write | src/litelink/_lease_store.py:68-100 | The record is replaced exactly when it is still the version expected. |
| Lease.Lease.Acquire | src/litelink/_lease.py:75-92 | The first of four tries that is not met by a conflict decides: refused by a record then in the store and still live, held with its own record stored, or unanswered with it stored or not; when all four are, the lease is lost. |
| Lease.Lease.Renew | src/litelink/_lease.py:94-103 | It keeps a successor's record, and gives up authority, on a conflict; an answer that never came leaves the handle as it was, the record replaced or not. |
| Lease.Lease.Release | src/litelink/_lease.py:105-115 | The handle lets go however it ends, and only its own record becomes a tombstone. |
| Prune.WhereImpliesTerms | src/litelink/_prune.py:112-221 | Every term holds on a row for which WHERE is true under three-valued logic; where every conjunct translates in full, WHERE is true on exactly the rows the terms hold on. |
| Prune.SkipSound | src/litelink/manifest.py:198-343 | A unit left out by its statistics holds no row for which WHERE is true. |
| PruneExact.LeftOutIff | src/litelink/manifest.py:198-343 | A unit is left out if and only if it has an entry that counts no rows, or whose range for some column, or for the offset, no number in it meets what a conjunct of WHERE says of that column. |
| Statistics.Merge | src/litelink/_statistics.py:374-437 | The loops fold each column of the parts, and count their rows. What the parts know is kept: a count is known when each part's is; bounds are known unless a part with rows lacks them without being all NULL, and each is some part's and the least or the greatest of them. |
| Statistics.MergeTrue | src/litelink/_statistics.py:374-437 | Folded from parts each true of its rows, a summary is true of all of them: counts, NULLs, NaNs, and bounds wherever it has some. |
| Statistics.Widen | src/litelink/_tiers.py:127-154 | The widened row's range is the least that holds both, an empty one adding nothing; its counts and bounds are kept as a fold's are. |
| Statistics.WidenTrue | src/litelink/_tiers.py:127-154 | The published row widened by what eviction takes is true of the rows it was true of and of those taken. |
| Statistics.TrueDescribes | src/litelink/manifest.py:198-343 | A stored row true of some rows describes each of them to the test that skips. |
| TierSkips.WidenedFor | src/litelink/_tiers.py:127-154 | Widening keeps the stored row true of every row the protocol's tier row stands for; no row stays no row. |
| TierSkips.TierLeftOutIff | src/litelink/_read.py:779-883 | A tier is left out if and only if its stored row counts no rows, or neither an offset of its range nor a number between its bounds meets what a conjunct of WHERE says. |
| TierSkips.WhereExact | src/litelink/_read.py:713-883 | For any WHERE, and whichever tiers its terms and the stored statistics let the reader leave out, whatever moved between its reads: each committed row for which it is true, not truncated and below the query's cut, comes back exactly once. |
| Prune.BufferSkipSound | src/litelink/_read.py:779-839 | The buffer left out, by its closing row or its lowest offset, holds at no later time a row of its leg for which WHERE is true. |
| PruneExact.BufferLeftOutIff | src/litelink/_read.py:779-839 | The buffer is left out if and only if its closing row is, or, while it is open, a conjunct is about offsets below every one its leg can hold. |
| PruneExact.ClosedLeftOutIff | src/litelink/_buffer.py:2198-2242 | A buffer just closed is left out if and only if a conjunct is about offsets, and it is empty or none from its lowest row to the last offset issued meets it. |
| Prune.RetiredSkips | src/litelink/_buffer.py:2198-2242 | A retired log's buffer is read by no query, with terms or without. |
| TruncateFloor.Floor | src/litelink/_maintenance.py:1125-1140 | The loop ends at the greatest offset, no higher than asked or published, that no file of either table straddles. |
| TruncateFloor.FloorMayCut | src/litelink/_maintenance.py:1125-1148 | Under its claim, the floor found is one the protocol's truncation may cut at. |

## Left out

- SQLite, DuckDB, pyiceberg, Parquet, S3, fsync and litestream: kept only as atomic transactions, atomic commits, durable writes and compare-and-swap. Of `_tiers.py` and `_statistics.py`, only the folding and the widening of what is stored.
- Column types, JSON encoding, Arrow casts and refusal messages: a row is an offset, a sort key and a payload, and its size is given.
- The tiers are a step machine over values: fields updated in place, aliasing between handles and threads inside one process are not modelled there. The seal queue, the tail cache, claims, the lease and the benchmark's writer are classes.
- In `TierSteps` an eviction may take any file boundary it may reach, and a buffer's eviction any rows the watermark covers: retention by age or size is not modelled.
- TierRuns.StepSafe: a commit and the renewal before it are one step. A push refused ends as one declined does: the claim is let go.
- TierPushes.StraddlerPushedBecause: the policy is what it is at each listing; that it changed since is said by the two limits.
- TierOrderly.StepKeeps: of orderly steps only, because of a dropped intent that something rests on and of a swap begun under a stale claim it is false (`TierFailures.StaleForgetUncovers`, `TierFailures.LapsedForgetUncovers`, `TierFailures.StaleSwapCuts`).
- TierTruncate.TruncationCuts: the buffer meanwhile also gains appended rows and may lose rows the watermark covers, as its contract says.
- QueryReader.QueryExactWhen: of a row truncated between the two snapshots it says only that it does not come back twice.
- SealTakeover.FilesNamedIff: compaction and eviction of sealed files are one step that removes the file and queues its name.
- SealTakeover.QueuedThenReferenced: a drain's look at the table and its unlink are one step, which the source takes in turn.
- QueueRuns.MoveKeeps: a bulk load's reads of the queue and its claim are one move, as a sealer's reading of the queue and its claim are; `SealTakeover` parts the latter.
- Lease.Lease.Acquire: other processes, and the handle's own late writes, act only between the read and the write of a try; `LeaseRuns` lets them act anywhere.
- LeaseRuns.AtMostOneHolder: each handle's calls are one at a time, under its lock.
- ClaimTable.RenewalProves: one database; a claim's row is never edited by hand.
- TailCache.Buffer.RowsFrom: combining Arrow chunks changes no row and is not modelled.
- MergeWriter.WriteMerge: each slice's scan gives its rows in offset order and within its range, as `scan_range` and the staging table's files do; file paths and per-file claims are `MergeRewrites`' and `TierSteps`'.
- SealQueue.SealQueue.Evict: removes the rows below an offset, as eviction's passes do from the front; `TailCache` removes any range.
- Statistics.Merge: file and value counts, which nothing is skipped by; and the folding of one table's files into a summary, which is the same rule.
- InputSlices.Slices: no row group's statistics have a least offset above the greatest.
- PruneExact.LeftOutIff: a stored range's least value is not above its greatest.
- KWayMerge.Merge: keys are numbers in place of tuples of columns.
- Prune.WhereImpliesTerms: the query's shape test (one SELECT over `log`, no subquery) and the cache of terms are not modelled; what DuckDB binds a constant to is given.
- TierSteps' listing of swaps takes any set of finished files for those owed one: the awaiting-swap table itself is not modelled.
- Published tables other than the log's own (legacy per-file rows, `published_from`), re-pointing, restore, and retire beyond its closing of the buffer.
- Snapshot expiry, stranded-metadata sweeps, grace periods and the published table's drain: only that a drain skips what a table references.
- `_config.py` beyond fixed parameters, paths, credentials, migrations, extension loading and the readers' file caches.
