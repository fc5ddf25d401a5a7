# Recovery, coverage and scheduling of the collector

This Dafny project models the parts of the collector that keep crash-recoverable local
state in agreement with a database and with a chain that reorganises, and proves what
they are for. `dafny verify dfyconfig.toml` checks everything.

The model is organised by component, one module to a file.

**DEX runtime.** `Intervals` and `DexState` hold the state that the publication protocol
protects: normalised intervals, active keys and per-height counts. `DexOwner` is the owner
with its operation log as a class; each of its requests is proved to compute one
specified step. `DexProtocol` puts any number of callers, that owner, a database that may
lose replies or commit late, other writers and crashes into one step machine and proves
an invariant over all interleavings. `DexCrash` gives the exact condition under which a
revision survives a crash. `DexConversion` is the two-pass comparison of a stored table with
the state built from it.

**Across runtime.** `AcrossRanges` is the sort-and-compact merge on an array,
`AcrossCaptures` the record and order maps, `AcrossCoverage` the meaning of coverage,
`AcrossRuntime` the class whose `Capture` keeps incremental coverage, cursors and partial
captures equal to their recomputation, `AcrossRevisions` the revisions, `AcrossReorg` the
ordered scan for affected captures, `AcrossInvalidation` the record of a reorganisation and
its end, `AcrossResume` the resumable loop in between with captures arriving at every point,
`AcrossRuns` arbitrary runs, `AcrossQueries` what may be concluded, `AcrossRecovery` the states
that recovery refuses, `AcrossHistory` the repair windows. A state is *steady* when coverage,
cursors and bounds are right and *sound* when besides every stored partial capture has a block
left to decode, as recovery demands. `Receipts` and
`ReceiptCleanup` are the receipt schedule with its reverse index, `Probe` and
`ProbeSelection` the watched orders, their tasks and the choice among them, `Quota` the
pacing state shared by all processes. `OrderedScan` is the ordered paging that all of them
use.

**Keeper and arbitrage.** `DynamicMerge` merges events independently of their order,
`SelectionRounds` chooses an order for a slot and checks published rounds, `SelectionScheduler`
fills and closes them, `SelectionOutcomes` says what its steps mean on the fields, `SelectionFairness` bounds how often an order can be passed over, `Checkpoint` is the two-cache
checkpoint on a directory whose operations may fail before or after taking effect,
`FactBytes` the canonical encoding, `PageChain` the pagination check. `Psm` simulates the
Sky PSM on 256-bit numbers and `Windows` is the opportunity report.

Where the original changes fields or arrays in place the model does so too; every such
method is tied by its contract to a specification function or relation, and the theorems are
lemmas about those.

## Where the code does not do what one would expect of it

Each expectation is named first; the code is kept as it is.

- **Expected: a crash never takes a stored revision back.** When another writer stored a newer
  revision that was read back by the resubmission of an applied, checkpointed operation, a
  crash restores the older checkpoint. `DexCrash.CrashKeepsRevision` states exactly when a
  revision is kept, `DexCrash.CrashCanLowerARevision` is a run in which it is not, and
  `DexProtocol.RevisionsNeverGoBack` covers keys without other writers.
- **Expected: pages that form one chain from the empty token to the empty token are a complete
  window.** They count as incomplete when a token is asked twice along the chain;
  `PageChain.IndexWindowComplete` has the exact condition and `PageChain.ChainIsNotEnough` the
  example.
- **Expected: a revision that uncovers blocks moves the cursor back to them.** The rewind never
  does anything, because the cursor already stands before them (`AcrossRevisions.NothingToRewind`);
  likewise the upper clamp in the repair windows is redundant.
- **Expected: a state that the program made passes its own recovery checks.** Two runs end in
  states that do not.
  A finalized capture above a pending bad height moves the anchor past it, and the check that
  compares bad heights with the anchor fails: `AcrossRecovery.AnchorPassesABadHeight` builds such
  a state and `AcrossRecovery.AnchorStaysBelow` says exactly when it happens. What every reachable
  state does satisfy is that no recorded bad height is finalized
  (`AcrossQueries.CoverageIsNested`).
  A complete capture that holds a bad height and arrives while the job is pending counts only
  once the job has ended, and if a stored partial capture lies inside it, that partial is then
  complete and the check on partials fails: `AcrossRecovery.LateCapture` and
  `AcrossRecovery.ClearCanBreakRecovery` are the run, `AcrossInvalidation.Clear` says exactly when
  it happens. Coverage and cursors stay right (`AcrossRuns.Serve`), and the next decoded capture
  of the chain strikes such a partial out (`AcrossQueries.DecodedHealsTheChain`).
- **Expected: an active capture never goes back to an older revision.** It does not while it stays
  active (`AcrossRuns.ActiveNeverGoesBack`). Once a newer revision has ended it, nothing in the state
  stops a batch with an older one: `AcrossRecovery.CaptureComesBack` is the run, and
  `AcrossRuns.RunNeverGoesBack` says what keeps it from happening.
- **Expected: a verified event that comes later in the chain settles the order.** In another block it
  does; in the same block it becomes the origin, but the order counts as contested and unverified
  until one batch verifies both events (`DynamicMerge.LaterEventIsTaken`,
  `DynamicMerge.RunKeepsChainOrder`).
- **Expected: the end of a reorganisation changes no coverage.** It does not if and only if
  everything that only this job held back was covered anyway (`AcrossInvalidation.Clear`), in
  particular if no affected active capture is left (`AcrossInvalidation.ClearIsQuiet`); one that
  slips in after the last page starts to count.
- **Expected: an order that stays eligible is passed over by no more explorations than orders
  wait longer.** An order that began to wait at the very moment of an admission can be passed
  over once more: `SelectionScheduler.TieCostsOne` is a run, `SelectionFairness.ExplorationIsFair`
  the exact bound.
- **Expected: what can be saved can be restored.** A scheduler cache whose version is not 1 can be
  saved but not restored (`Checkpoint.Restored`, used by `Checkpoint.StateWriter.Save`).

## Model

| member | source | states |
|---|---|---|
| `DexState.Search` | internal/dexruntime/state.go:36-58 | the binary search of `contains`, `add` and `remove`: the first interval that reaches the height, or touches it from below |
| `DexState.Contains` | internal/dexruntime/state.go:36-39 | membership in the set that a normalised list denotes, both directions |
| `DexState.Add` | internal/dexruntime/state.go:40-58 | the list stays sorted, disjoint and non-adjacent, and denotes the old set with exactly one height more |
| `DexState.Remove` | internal/dexruntime/state.go:59-79 | the list stays normalised and denotes the old set without exactly that height |
| `Intervals.SameElementsSameList` | internal/dexruntime/state.go:36-79 | two normalised lists with the same heights are equal, so the stored form is canonical |
| `DexState.State.Track` | internal/dexruntime/state.go:114-148 | key and counter move together: every height count is the number of active keys at that height |
| `DexState.State.SetCovered` | internal/dexruntime/state.go:149-158 | coverage of one height is set or cleared and no other height changes |
| `DexState.State.Apply` | internal/dexruntime/state.go:99-158 | a block is refused for exactly the listed reasons and then changes nothing; otherwise the new state is the specified one and all counts and intervals still agree |
| `DexState.State.Gap` | internal/dexruntime/state.go:159-164 | the least uncovered height after the first interval, or 0 when and only when there is none |
| `DexState.ValidIntervals` | internal/dexruntime/state.go:165-172 | accepts exactly the normalised lists that start above 0 |
| `DexState.CoveredAfter` | internal/dexruntime/state.go:99-158 | coverage is always the active heights united with the finalized ones: a block can change only whether its own height is covered |
| `DexState.MeaningDeterminesState` | internal/dexruntime/state.go:99-184 | intervals and height counts of a valid state are determined by its active keys and finalized heights |
| `DexState.OrderDoesNotMatter` | internal/dexruntime/state.go:99-158 | blocks with distinct keys lead to the same state in every order, or are refused in every order |
| `DexOwner.Owner.Lookup` | internal/runtimecheckpoint/store.go:813-820 | finds the logged operation of an identity, if any |
| `DexOwner.Owner.AskLease` | internal/dexruntime/owner.go:365-396 | the lease request refines the specified step: unresolved work of the key first, one holder at a time, exact revision |
| `DexOwner.Owner.AskBegin` | internal/dexruntime/owner.go:428-449 | the begin request refines the specified step, also when its log write fails or its outcome is lost |
| `DexOwner.Owner.AskFinish` | internal/dexruntime/owner.go:452-472 | the applied block enters the state, the operation is marked, the lease ends; every failure stops the owner |
| `DexOwner.Owner.Drop` | internal/dexruntime/owner.go:409-427 | ends a lease that has not begun anything |
| `DexOwner.Owner.Save` | internal/dexruntime/owner.go:94-114 | a checkpoint stores the state and trims resolved log entries, as specified |
| `DexOwner.Owner.Pending` | internal/runtimecheckpoint/store.go:847-866 | a page holds the oldest unresolved operations after a given one, and a short page all of them |
| `DexOwner.Owner.ReplayPage` | internal/dexruntime/owner.go:268-296 | works off one page in order and leaves the rest of the replay as it was |
| `DexOwner.Owner.Recover` | internal/dexruntime/owner.go:268-296 | the paged replay loop has the outcome of replaying every unresolved operation, oldest first |
| `DexOwner.ReplayAllResolves` | internal/dexruntime/owner.go:268-296 | a recovery that succeeds leaves no unresolved operation and an unchanged log |
| `DexProtocol.InvRun` | internal/dexruntime/owner.go:350-483 | the protocol invariant is kept by every sequence of caller, owner, database, crash and replay steps, whether the owner takes a checkpoint before it serves or not |
| `DexProtocol.PlansAreChecked` | internal/dexruntime/owner.go:405-427 | under the lease a plan goes on if and only if the row can be read and, batches apart, exists and stands at the expected revision or not below the planned one; without an expectation it expects the revision it read, otherwise it stays as the caller made it |
| `DexProtocol.NoStalePlanIsLogged` | internal/dexruntime/owner.go:405-449 | over every run, whatever a step logs, batches apart, of a key that no other writer touched was planned against the row stored at that moment, or is not newer than that row; the expected revision is the caller's own or, when that was 0, the stored one |
| `DexProtocol.OnePublicationInFlight` | internal/dexruntime/owner.go:365-396 | over every run, no two callers hold the lease of one block key |
| `DexProtocol.NothingIsSentBeforeItIsLogged` | internal/dexruntime/owner.go:428-451 | whatever step sends a SQL write sends a payload that was durably logged before that step |
| `DexProtocol.OnlyProperWritesAreSent` | internal/dexruntime/owner.go:365-451 | over every run, whatever was sent is a publication of the known version and of this manifest, on the first chain, with a revision and with the body that its kind calls for |
| `DexProtocol.NoLeaseIsLost` | internal/dexruntime/owner.go:365-483 | over every run, an owner that is not stopped has lent every lease to a caller that still works on its key: no key stays blocked by a lease that nobody can give back, after a crash either |
| `DexProtocol.RecoveryGoesOn` | internal/dexruntime/owner.go:268-296 | over every run, replaying the next operation succeeds if and only if the database answers and takes the row: what it answers is never refused, and recovery goes on with one operation less |
| `DexProtocol.OldWorkComesFirst` | internal/dexruntime/owner.go:376-396 | logged operations never change, a key owes at most one, and a new one is logged only for a key that owes none |
| `DexProtocol.RetriesAreUnchanged` | internal/dexruntime/owner.go:211-237 | a caller that writes holds the only operation its key can owe: unknown outcomes are retried with the original payload |
| `DexProtocol.NoRowIsRefused` | internal/dexruntime/owner.go:452-472 | no row that a caller has read back is ever refused by the state |
| `DexProtocol.RevisionsNeverGoBack` | internal/dexruntime/owner.go:350-483 | for a key that no other writer touched, the revision never decreases between two moments of healthy service, crashes and replays included |
| `DexProtocol.StateAgreesWithDatabase` | internal/dexruntime/owner.go:238-305 | with nothing owed and no other writer, the state is exactly the picture of the stored rows |
| `DexProtocol.TrimKeepsOwed` | internal/runtimecheckpoint/store.go:961-1046 | trimming the log never drops an unresolved operation |
| `DexCrash.LiveRevisionsNeverGoBack` | internal/dexruntime/owner.go:350-483 | while one owner lives, no step lowers the revision of an active key, other writers or not |
| `DexCrash.CrashKeepsRevision` | internal/dexruntime/owner.go:238-305 | whatever happens between a crash and the next service (replays that succeed or fail, checkpoints, late commits, other writers, further crashes), an active key is at no lower revision if and only if `KeptByCrash` holds, a condition on the log and the checkpoint before the crash |
| `DexCrash.CrashCanLowerARevision` | internal/dexruntime/owner.go:238-305 | a run in which a crash takes an active key back from revision 2 to 1, so the condition is needed |
| `DexConversion.GapGrows` | internal/dexruntime/conversion.go:187-194 | the adjacency rule keeps the first gap of the heights seen so far |
| `DexConversion.BuiltState` | internal/dexruntime/conversion.go:136-167 | applying a sorted table of acceptable rows gives the unfinalized canonical keys and all canonical heights |
| `DexConversion.Conversion.Build` | internal/dexruntime/conversion.go:136-167 | the first traversal applies every row, or fails where a row is refused |
| `DexConversion.Conversion.ComparePage` | internal/dexruntime/conversion.go:185-206 | one page of the second traversal never contradicts the state of a sorted table, and keeps gap and count of what was read |
| `DexConversion.Conversion.Rescan` | internal/dexruntime/conversion.go:168-212 | the second traversal reads every row once and ends with the gap and count of the whole table |
| `DexConversion.Conversion.Compare` | internal/dexruntime/conversion.go:213-228 | verified means: same rows, same header count, same unfinalized count, same first gap as the state |
| `DexConversion.Convert` | internal/dexruntime/conversion.go:136-228 | for a sorted acceptable table the conversion is verified if and only if both traversals saw the same rows, and reports their gap and count |
| `AcrossRanges.Sort` | internal/across/runtime_state.go:87-91 | sorted by first and last block, the same ranges |
| `AcrossRanges.CompactInPlace` | internal/across/runtime_state.go:92-106 | the in-place compaction of a shared array has the result of the specified one |
| `AcrossRanges.Merge` | internal/across/runtime_state.go:87-106 | the front of the array is the one normalised list with the same blocks |
| `AcrossRanges.Normalise` | internal/across/runtime_state.go:121-143 | the normalised list of any well-formed ranges |
| `AcrossRanges.FirstUncovered` | internal/across/runner.go:849-864 | for any sorted list, overlapping or not: the first block of the range that no interval holds, or one past its end |
| `AcrossCaptures.CapturePages.Set` | internal/across/runtime_captures.go:46-63 | record map and order map change together: the order map stays the exact key image of the records |
| `AcrossCaptures.CapturePages.Remove` | internal/across/runtime_captures.go:64-73 | the record and its order key go together |
| `AcrossCaptures.CapturePages.Scan` | internal/across/runtime_captures.go:74-91 | the least captures beyond a cut, in order, with their records; a short page holds all of them |
| `AcrossCaptures.CapturePages.All` | internal/across/runtime_captures.go:149-183 | the paged walk visits every capture exactly once |
| `AcrossCoverage.IncrementIsExact` | internal/across/runtime_state.go:197-208 | adding only the new capture to the current lists equals recomputing them from the finalized lists and all active, non-invalidated captures |
| `AcrossCoverage.RebuildShrinks` | internal/across/runtime_captures.go:220-245 | taking a capture back never adds a block |
| `AcrossCoverage.PlacedBase` | internal/across/runtime_state.go:171-196 | bounds, finalized lists and anchor stay consistent when a capture is placed |
| `AcrossCoverage.MoreJobsFewerBlocks` | internal/across/runtime_captures.go:205-219 | a recorded reorganisation only hides blocks, and only of its own chain |
| `AcrossRuntime.Runtime.Settle` | internal/across/runtime_state.go:226-233 | the cursor is one before the first uncovered block of the chain, 0 when that block is 0 |
| `AcrossRuntime.Runtime.Rebuild` | internal/across/runtime_captures.go:220-245 | the recomputed lists are the normalised union of finalized ranges and active, non-invalidated captures |
| `AcrossRuntime.Runtime.Place` | internal/across/runtime_state.go:171-196 | bounds, finalized unions and the set of active captures after one capture |
| `AcrossRuntime.Runtime.Refresh` | internal/across/runtime_state.go:197-208 | increment, rebuild or nothing: the current lists equal the recomputation in every case |
| `AcrossRuntime.Runtime.FilePartial` | internal/across/runtime_state.go:209-215 | exactly the retryable, not yet decoded captures are filed as partial |
| `AcrossRuntime.Runtime.StrikeOut` | internal/across/runtime_state.go:216-225 | exactly the partial captures of the chain that are decoded by now are struck out |
| `AcrossRuntime.Runtime.Capture` | internal/across/runtime_state.go:155-235 | coverage, cursors and files stay equal to their recomputation from any state in which they are, and stored partials stay open if they were; no active capture goes back to an older revision or to other content of the same one; a capture older than the active one changes nothing and is no error, a finalized one that a pending reorganisation hits apart; otherwise active set, lists, cursors and partials are the specified ones |
| `AcrossRuntime.PartialStaysOpen` | internal/across/runtime_state.go:209-225 | under a capture that is let in an open stored partial stays open as long as it is kept |
| `AcrossRuntime.DecodedLeavesOpen` | internal/across/runtime_state.go:216-225 | a decoded capture leaves no completed partial on its chain, however it came to be completed |
| `AcrossRevisions.CheckRevision` | internal/across/runtime_state.go:265-299 | a revision is taken in if and only if it is newer than what is known, follows a known predecessor, and takes neither finality nor block hashes back; otherwise the answer tells which of these fails |
| `AcrossRevisions.RevisionOnlyAdvances` | internal/across/runtime_state.go:265-302 | a revision that changes anything strictly raises the revision of a known identity, never takes finality or hashes back, leaves every other active capture as it was, and a finalizing one puts its blocks into finalized coverage |
| `AcrossRevisions.RevisionIsTaken` | internal/across/runtime_state.go:265-302 | and conversely: a revision that is newer, follows what is known and takes neither finality nor hashes back is answered like any capture |
| `AcrossRevisions.TakeIn` | internal/across/runtime_state.go:300-302 | the capture is taken in or refused as specified; coverage and bounds stay right, and the state sound if it was; no active capture goes back, and an older one than the active changes nothing |
| `AcrossRevisions.Rewind` | internal/across/runtime_state.go:322-328 | the cursor rewind keeps the invariant; it changes nothing |
| `AcrossRevisions.NothingToRewind` | internal/across/runtime_state.go:322-327 | the branch that would move a cursor back is never taken |
| `AcrossRevisions.Revise` | internal/across/runtime_state.go:265-331 | a confirmed revision has exactly the specified answer and effect; coverage and bounds stay right, and the state sound if it was; no active capture goes back, and an older revision than the active one is no error and changes nothing |
| `AcrossQueries.PlainCoverage` | internal/across/runtime_state.go:121-143 | the plain recomputation from stored captures equals the incrementally kept list, entry for entry |
| `AcrossQueries.CoverageMeans` | internal/across/runtime_state.go:114-143 | on the fields: a block is covered if and only if it is finalized or a canonical, committed capture of logs with its one task done holds it that no pending reorganisation hits; decoded, besides, if that capture is complete and knew every event |
| `AcrossQueries.FinalizedMeans` | internal/across/runtime_state.go:180-187 | on the fields: exactly the blocks of a canonical and finalized capture of that kind become final |
| `AcrossQueries.AnchorIsAhead` | internal/across/runtime_state.go:188-193 | the anchor of a chain is the finalized capture that ends highest, was started first and has the least identity, in this order |
| `AcrossQueries.CoverageIsNested` | internal/across/runtime_validation.go:21-54 | decoded is a subset of raw, finalized lists are subsets of the current ones, no recorded bad height is finalized |
| `AcrossQueries.FinalizedStays` | internal/across/runtime_state.go:180-196 | finalized blocks never leave the coverage of any chain |
| `AcrossQueries.PartialsAreOpen` | internal/across/runtime_state.go:209-225 | a partial capture is dropped exactly when a decoded capture of its chain completes it |
| `AcrossQueries.PartialsMean` | internal/across/runtime_state.go:209-225 | on the fields: which captures are filed as partial, in which form, and which of them a complete capture strikes out |
| `AcrossQueries.DecodedHealsTheChain` | internal/across/runtime_state.go:216-225 | after the next decoded capture of a chain every partial that the chain keeps is open again |
| `AcrossQueries.NewestRawGap` | internal/across/runtime_state.go:237-260 | the gap that ends at the last uncovered block and cannot be extended to the left, or none |
| `AcrossReorg.Affected` | internal/across/runtime_captures.go:347-395 | the ordered page scan misses no affected capture: fewer than the limit means all of them |
| `AcrossReorg.OtherChainsFollow` | internal/across/runtime_captures.go:384-387 | at the first key of a later chain the scan may stop |
| `AcrossInvalidation.Mark` | internal/across/runtime_repairs.go:133-157 | a job is recorded unless the chain is unknown or a bad height is finalized; only its own chain is rebuilt |
| `AcrossInvalidation.ReleasedIsExact` | internal/across/runtime_captures.go:205-219 | without the job the chain counts exactly the blocks that it counted before and those of the active captures that only this job held back |
| `AcrossInvalidation.Clear` | internal/across/runtime_repairs.go:207-213 | the job is dropped and the lists grow by exactly the released blocks; they stay as they are if and only if those were covered anyway; a sound state stays sound if and only if no stored partial of the chain lies inside decoded and released blocks |
| `AcrossInvalidation.ClearIsQuiet` | internal/across/runtime_repairs.go:207-213 | with no affected active capture left both conditions hold |
| `AcrossResume.Interlude` | internal/across/runtime_owner.go:396-464 | whatever captures the owner serves between two steps of the loop, coverage stays right, a sound state sound, and every change is accounted for by them |
| `AcrossResume.TakeBack` | internal/across/runtime_repairs.go:190-205 | one affected capture is orphaned; finalized coverage is as before |
| `AcrossResume.TakeBackAll` | internal/across/runtime_repairs.go:178-206 | with captures arriving between all its steps the page loop ends with no active capture that the job hits |
| `AcrossResume.Resume` | internal/across/runtime_repairs.go:162-215 | from any intermediate point and with captures arriving between all steps: no job is left; every active capture arrived or is an old one as it was; no other old one is gone than those that a job hits or that arrived again; one that still holds a bad height arrived after its job's last page, and a sound state stays sound unless there is such a one; if none arrives, exactly the captures with a bad height are gone and finalized coverage is unchanged |
| `AcrossResume.QuietResume` | internal/across/runtime_repairs.go:162-215 | without arrivals exactly the captures that no job hits survive |
| `AcrossRuns.Serve` | internal/across/runtime_owner.go:277-345 | over any sequence of commits with their newer confirmed forms, confirmed revisions, recorded and ended reorganisations, up to the first request that fails for a listed reason, coverage and cursors equal their recomputation and no finalized block is lost; only the end of a reorganisation can make a state unsound; every answer leaves the other active captures alone, an older one changes nothing, a newer one takes the place of the active capture or ends it |
| `AcrossRuns.ActiveNeverGoesBack` | internal/across/runtime_state.go:161-170 | over every run, while an identity stays active its capture never gets a lower revision, and under the same revision it stays the same capture |
| `AcrossRuns.RunNeverGoesBack` | internal/across/runtime_state.go:161-170 | what is active at the start and at the end of a run has gone to no older revision if no answer was older than what was active at the start |
| `AcrossRecovery.CaptureComesBack` | internal/across/runtime_state.go:155-200 | a run of three accepted captures after which an identity that was active at revision 5 is active at revision 4, so that condition is needed |
| `AcrossRecovery.AnchorStaysBelow` | internal/across/runtime_validation.go:57-66 | a capture that is let in leaves a pending bad height above the anchor if and only if it does not finalize a range ending at or above it |
| `AcrossRecovery.AnchorPassesABadHeight` | internal/across/runtime_validation.go:57-66 | a recorded job and one finalized capture that together break what recovery checks |
| `AcrossRecovery.LateCapture` | internal/across/runtime_validation.go:77-81 | a sound state with a job, a stored partial and a later complete capture over it whose release would complete the partial |
| `AcrossRecovery.ClearCanBreakRecovery` | internal/across/runtime_validation.go:77-81 | a run of captures and a job that ends in a state which recovery refuses, although coverage and cursors are right |
| `AcrossHistory.HistoryUncovered` | internal/across/history.go:143-156 | the next window: from the first missing block up to the end, a covered block, or 64 blocks |
| `AcrossHistory.WindowsPartition` | internal/across/history.go:143-156 | iterated over a range, the windows are non-empty, ascending, at most 64 blocks long and hold exactly the missing blocks |
| `AcrossHistory.WindowsAreLong` | internal/across/history.go:143-156 | a window ends only at the end of the range, before a covered block, or when it is full |
| `AcrossHistory.VisitCapture` | internal/across/runtime_repairs.go:24-49 | one pass over the windows of a capture counts the ready ones and keeps the one at the wanted position |
| `AcrossHistory.Visit` | internal/across/runtime_repairs.go:22-66 | one pass over all captures counts every ready window of every readable chain, in page order |
| `AcrossHistory.ChoicesMean` | internal/across/runtime_repairs.go:22-66 | on the fields: the windows to choose from are exactly the missing windows of partial captures of logs not given up, on readable chains, that were not tried in this run and whose time has come |
| `AcrossHistory.SelectPartial` | internal/across/runtime_repairs.go:22-81 | the two passes pick choice number cursor modulo count, or none when there is no choice |
| `Receipts.Recompute` | internal/across/runtime_state.go:341-351 | the flags are the OR of the parents' bits, pending derived from them; nothing else changes |
| `Receipts.FlagsAreUnique` | internal/across/runtime_state.go:341-351 | the flags are a function of the parents |
| `Receipts.Store.Set` | internal/across/runtime_receipts.go:40-78 | record, schedule and reverse index change in step: the schedule is the key image of the pending receipts, the index the inverse of all non-empty parents |
| `Receipts.Store.Delete` | internal/across/runtime_receipts.go:79-104 | the same for a deletion |
| `Receipts.Store.Fact` | internal/across/runtime_state.go:352-373 | one fact adds its bits under its parent and leaves every other receipt alone |
| `Receipts.Store.ParentReceipts` | internal/across/runtime_receipts.go:137-152 | read off the index: exactly the receipts with that parent |
| `Receipts.Store.Seal` | internal/across/runtime_state.go:374-386 | the bits of a finalized parent move to the anonymous one, where they join what was there; no other parent and nothing else of any receipt changes |
| `Receipts.SealingKeepsFlags` | internal/across/runtime_state.go:374-386 | sealing changes no flag |
| `Receipts.Store.DropParent` | internal/across/runtime_state.go:304-316 | an orphaned capture's bits go; a receipt without any parent left goes with them |
| `Receipts.Store.Attempt` | internal/across/runtime_driver.go:196-201 | an attempt of a pending receipt moves it to its new place in the schedule; any other receipt stays as it is |
| `Receipts.Store.ScanOne` | internal/across/runtime_receipts.go:246-270 | the next key of a schedule prefix |
| `Receipts.SelectReceipt` | internal/across/runtime_receipts.go:246-287 | the two-prefix scan with its early stop returns the minimum over all pending, cooled-down, readable receipts, and none only if there is none; on the records: a refund without transfers before any other, then the least recent attempt, then the identifier |
| `ReceiptCleanup.Prune` | internal/across/runtime_receipts.go:291-318 | one cleanup step deletes exactly the spent receipts between the old and the new cursor |
| `ReceiptCleanup.Sweep` | internal/across/runtime_receipts.go:291-318 | once round, with nothing else going on, exactly the spent receipts are gone and all others are unchanged |
| `Probe.Watch.Add` | internal/across/runner.go:54-78 | an order is refused exactly when the watch is full; otherwise order and first tasks are the specified ones and the watch invariant, MaxPending included, is kept |
| `Probe.Watch.Committed` | internal/across/runtime_probe.go:115-176 | the finished task goes, its successors come, follow-ups at most once; a terminal order goes exactly with its last task; errors change nothing |
| `Probe.ProbeMeans` | internal/across/runtime_probe.go:138-175 | on the observation: the order ends exactly if the probe was the last, was cancelled here, or found it filled or past its deadline; then nothing is planned and it goes with its last task; otherwise the next look comes after one, five or ten seconds or when the exclusive relayer loses its claim, and follow-ups are planned once, as soon as anybody can fill it |
| `Probe.Watch.MarkTerminal` | internal/across/runtime_state.go:317-321 | every order that the orphaned capture brought ends, no other one, and the tasks stay |
| `Probe.WatchIsValid` | internal/across/runtime_validation.go:106-118 | what recovery checks holds of every reachable watch: each task has its order, no identity twice |
| `ProbeSelection.NextLive` | internal/across/runner.go:396-404 | the earliest live baseline or follow-up that is not too late |
| `ProbeSelection.SelectProbe` | internal/across/runtime_probe.go:47-113 | the work chosen is the first that can run by rank, deadline, planned time and, among equals, by its place in the list; when none can run, the wait outlasts no task; on the fields: urgent samples by the time they have left, then due samples of live orders, then the rest, the older first, nothing while the next live sample is less than twelve seconds off, and an idle wait ends with the first reason to wait |
| `ProbeSelection.NextSkipped` | internal/across/runtime_probe.go:34-46 | the first skipped order that nobody is noting down, over any number of pages |
| `ProbeSelection.Select` | internal/across/runtime_probe.go:30-113 | pause while a reorganisation is worked off, then skipped orders, then the probe that runs before all others that can |
| `ProbeSelection.PriorityComesFirst` | internal/across/runtime_probe.go:47-79 | a due and fresh live probe is never passed over for another kind of work |
| `DynamicMerge.Work.ApplyRaw` | internal/justlendkeeper/dynamic_state.go:217-310 | one event changes one pair's order and check to the specified ones and no other pair; a verified origin gives way to a verified event of another identity if and only if its block, transaction and log are the later ones |
| `DynamicMerge.RunMerges` | internal/justlendkeeper/dynamic_state.go:217-310 | after any unverified events the origin is the greatest of them, the conflicts are exactly its rivals in its block, and the first-seen time is the least |
| `DynamicMerge.OrderDoesNotMatter` | internal/justlendkeeper/dynamic_state.go:217-310 | the same unverified events in any order and multiplicity give the same origin, ambiguity, conflict set and first-seen time |
| `DynamicMerge.MergedIsUnique` | internal/justlendkeeper/dynamic_state.go:217-310 | what a merge means determines its result |
| `DynamicMerge.LaterEventIsTaken` | internal/justlendkeeper/dynamic_state.go:246-310 | in plain numbers: the new origin is the verified event, at its place and closed if it closes, if and only if (block, transaction, log) is greater than that of the verified origin, and otherwise nothing but the discovery time changes; in the same block the two stay rivals |
| `DynamicMerge.LaterEventIsChecked` | internal/justlendkeeper/dynamic_state.go:217-310 | the check follows: the later event starts a new verified generation, an earlier one leaves the generation as it is |
| `DynamicMerge.RunKeepsChainOrder` | internal/justlendkeeper/dynamic_state.go:217-310 | after any verified events the origin is one of the newest block, at its own place; it counts as verified if and only if the first one of that block to arrive is the last one in the order of the chain, and then it is that one |
| `DynamicMerge.VerifiedNeverGoesBack` | internal/justlendkeeper/dynamic_state.go:217-310 | over runs of verified events the origin never goes back to an older block, and two verified origins of one block are the same |
| `DynamicMerge.ResolveConflicts` | internal/justlendkeeper/dynamic_state.go:488-529 | conflicts end if and only if one batch verifies every rival; then the latest by receipt position wins, otherwise nothing changes |
| `PageChain.Collect` | internal/justlendkeeper/collection.go:275-296 | the first loop ends early for exactly the listed reasons or yields the token map of the window |
| `PageChain.Walk` | internal/justlendkeeper/collection.go:297-311 | from the empty token the walk meets every page once and ends at the empty token if and only if the pages form such a chain |
| `PageChain.IndexWindowComplete` | internal/justlendkeeper/collection.go:274-311 | for valid pages: complete if and only if there is one scan, no token is asked twice, and one chain leads through every page from the empty token to the empty one; a missing or invalid page is answered only if there is one, and invalid means broken in one of the listed ways |
| `PageChain.ChainIsNotEnough` | internal/justlendkeeper/collection.go:285-296 | pages that do form such a chain but ask one token twice count as incomplete, so the extra condition is needed |
| `Psm.FeeAmount` | internal/dexarb/psm.go:44-63 | base and fee with floor division, failing exactly on a bad fee or 256-bit overflow |
| `Psm.ChargeRoundsDown` | internal/dexarb/psm.go:44-63 | the fee is the amount in 18 decimals times the fee fraction, rounded down |
| `Psm.CostGrows` | internal/dexarb/psm.go:83-89 | the cost is strictly increasing and whatever fits, a smaller amount fits too |
| `Psm.Search` | internal/dexarb/psm.go:103-115 | the binary search finds the greatest amount that neither overflows nor exceeds the budget |
| `Psm.PSM.Sell` | internal/dexarb/psm.go:66-82 | succeeds exactly under the stated bounds and moves the stated amounts; a failure names its reason and changes nothing |
| `Psm.PSM.Buy` | internal/dexarb/psm.go:93-133 | succeeds exactly when the greatest affordable amount is in stock, pays its cost, returns the dust; a failure names its reason and changes nothing |
| `Psm.MostIsUnique` | internal/dexarb/psm.go:103-115 | there is only one greatest affordable amount |
| `Psm.DustIsSmall` | internal/dexarb/psm.go:116-133 | the dust is below the marginal price of one more unit unless that price overflows |
| `Psm.ValueNeverDecreases` | internal/dexarb/psm.go:66-133 | over any run of trades DAI + 10^12 USDC never decreases |
| `Psm.SellThenBuy` | internal/dexarb/psm.go:66-133 | buying back with exactly the proceeds never returns more than was sold |
| `Windows.Judge` | internal/dexarb/report.go:120-171 | a block is full exactly when every configured size has one first, valid quote; the best is the first of the greatest gross results within budget |
| `Windows.FullMeansEverySize` | internal/dexarb/report.go:125-171 | counting distinct sizes is enough: a full block has a valid quote of every size |
| `Windows.Budget` | internal/dexarb/report.go:97-104 | the budget is what the last matching capital quote pays out |
| `Windows.Analysis.Observe` | internal/dexarb/report.go:115-221 | one step of the window machine keeps the meaning of all windows and of every route's state |
| `Windows.Analyze` | internal/dexarb/report.go:59-223 | every usable block is judged once for every route, in order, and the judgements are joined to windows |
| `Windows.WindowCoversItsHeights` | internal/dexarb/report.go:179-205 | a window covers consecutive parent-linked heights and its observations are end minus start plus one |
| `Windows.PositiveIsInOneWindow` | internal/dexarb/report.go:175-221 | every positive observation of a route belongs to exactly one window |
| `Windows.BestIsMaximum` | internal/dexarb/report.go:179-205 | the best of a window is the maximum gross result of the blocks it absorbed, all of them positive |
| `Checkpoint.StateWriter.Save` | internal/justlendkeeper/checkpoint.go:41-120 | whatever the directory held during a save restores the former or the new state; success means the new one, with no cache left that it does not name |
| `Checkpoint.StateWriter.Stage` | internal/justlendkeeper/checkpoint.go:63-91 | the caches that changed are durable, and the unchanged ones still there, before the primary file is touched |
| `Checkpoint.StateWriter.Finish` | internal/justlendkeeper/checkpoint.go:95-117 | the primary file is the commit point; obsolete caches go only after it |
| `Checkpoint.Prune` | internal/justlendkeeper/checkpoint.go:232-267 | removes exactly the unnamed caches of one kind, and every content in between restores the new state |
| `Checkpoint.CacheIsHarmless` | internal/justlendkeeper/checkpoint.go:65-91 | an orphan cache under its own digest never changes what is restored |
| `Checkpoint.OnlyIntactCachesAreRead` | internal/justlendkeeper/checkpoint.go:180-227 | a missing or altered cache is refused, never guessed |
| `Checkpoint.Session` | internal/justlendkeeper/checkpoint.go:41-120 | a whole process life: at every moment one of the saved states, the one being saved or the former checkpoint is restored, and the next process can start |
| `FactBytes.Buffer.WriteVarint` | internal/justlendkeeper/canonical.go:23-28 | the loop writes the base-128 form, lowest digits first |
| `FactBytes.Buffer.WriteWord` | internal/justlendkeeper/canonical.go:40-41 | eight bytes, highest first, two's complement |
| `FactBytes.EncodeFact` | internal/justlendkeeper/canonical.go:29-100 | the recursive writer appends exactly the specified bytes, or fails exactly where the specification has none |
| `FactBytes.Bytes` | internal/justlendkeeper/canonical.go:17-22 | the version tag and the fact; it succeeds exactly on encodable facts |
| `FactBytes.EncodingIsPrefixFree` | internal/justlendkeeper/canonical.go:29-100 | no encoding is a proper prefix of another of its shape, and equal encodings state the same fact |
| `FactBytes.BytesStandForFacts` | internal/justlendkeeper/canonical.go:17-100 | equal bytes if and only if the same fact: times to the microsecond, decimals as numbers, an absent list like an empty one |
| `FactBytes.EncodesWhatIsEncodable` | internal/justlendkeeper/canonical.go:50-54 | encoding fails exactly on a decimal finer than eighteen places or an unsupported kind |
| `FactBytes.ShiftedStandsForNumber` | internal/justlendkeeper/canonical.go:50-62 | among precise decimals the shifted integers agree exactly when the numbers do |
| `FactBytes.VarintPrefix` | internal/justlendkeeper/canonical.go:23-28 | varints are prefix-free |
| `FactBytes.SignedPrefix` | internal/justlendkeeper/canonical.go:42-62 | sign byte and framed magnitude are prefix-free and injective |
| `Quota.SourceQuota.Ask` | internal/across/quota.go:118-165 | one locked update has the specified effect and answer; a background request inside a running lease is told to wait at least to its end |
| `Quota.SourceQuota.Open` | internal/across/quota.go:34-42 | a quota exists exactly for a positive interval and a burst of one to ten |
| `Quota.SourceQuota.Before` | internal/across/quota.go:110-179 | no look but the last ends the wait: admitted, refused while discovery cools down, or out of time because the cooldown outlasts the deadline; without an end it looks at every given time |
| `Quota.SourceQuota.After` | internal/across/quota.go:180-206 | the report of a request changes cooldown and escalation as specified; local errors change nothing |
| `Quota.SourceQuota.Cooldown` | internal/across/quota.go:105-109 | what is left of the backoff, never negative |
| `Quota.AdmissionsAreSpaced` | internal/across/quota.go:127-152 | over every run an admission follows every earlier one by at least its members' intervals |
| `Quota.NoneWhileCoolingDown` | internal/across/quota.go:127-152 | no admission before the recorded cooldown, nor before the pause of any earlier failure is over |
| `Quota.FailuresEscalate` | internal/across/quota.go:187-204 | without a success a full minute past the cooldown, failures add up to at most four |
| `Quota.PauseDoubles` | internal/across/quota.go:187-204 | the pause after a failure starts at five seconds and doubles up to forty; the provider's own wish prolongs it, up to five minutes |
| `Quota.UrgentIsInALease` | internal/across/quota.go:153-163 | every urgent admission lies in a lease of four seconds, ten intervals or up to the caller's deadline, whichever is first, whose end was fixed when it was opened |
| `Quota.LeaseGivesPriority` | internal/across/quota.go:146-163 | over every run no background request is admitted before the end of an opened lease, and whoever asks is told to wait at least to that end; urgent requests meanwhile wait for the pace and the backoff alone |
| `Quota.BackgroundIsAnswered` | internal/across/quota.go:118-165 | a background request is admitted if and only if the pace, the backoff and a running lease allow it, and otherwise waits exactly for the last of them |
| `Quota.UrgentIsAnswered` | internal/across/quota.go:128-165 | an urgent request waits for the pace and the backoff inside a lease, yields an interval after its end, and once more when the quota was not available in the meantime |
| `Quota.LeasesAreApart` | internal/across/quota.go:128-163 | successive leases are separated by a background admission or by a span of at least one interval without urgent admissions in which background work would be admitted at once, unless a provider failure between the two leases pushed the next admission past the start of that span |
| `SelectionRounds.PressuresAreOrdered` | internal/justlendkeeper/dynamic_scheduler.go:54-59 | comparing by cross multiplication is a consistent order of fractions |
| `SelectionRounds.LessIsTransitive` | internal/justlendkeeper/dynamic_scheduler.go:102-112 | the ranking of a lane is transitive across classes, pressures and ties |
| `SelectionRounds.Choose` | internal/justlendkeeper/dynamic_scheduler.go:61-121 | the scan returns the eligible order that ranks before every other one, or none if and only if none is eligible; on the fields: in the focus lane a freshly liquidatable order if there is one, else the verified, else the unverified order with the fewest seconds left, in the exploring lane the longest waiting one |
| `SelectionRounds.FocusMeans` | internal/justlendkeeper/dynamic_scheduler.go:74-117 | a focus choice on the fields of orders and checks, class by class, with the ties: the longest since its last attempt, then the smaller key; none if and only if no clear order is liquidatable or has known seconds left |
| `SelectionRounds.ExploreMeans` | internal/justlendkeeper/dynamic_scheduler.go:74-117 | an exploring choice is the order that has waited longest of all that may be tried, and none if and only if there is none |
| `SelectionRounds.PressureIsSeconds` | internal/justlendkeeper/dynamic_scheduler.go:25-53 | the fraction that is compared is the number of seconds left: the deposit minus the consumption in the whole seconds since it was read, not below 0, over the consumption in a second; it exists exactly for a current rate and a deposit of the last day |
| `SelectionRounds.LessIsFewerSeconds` | internal/justlendkeeper/dynamic_scheduler.go:54-59 | cross multiplication compares the seconds themselves |
| `SelectionRounds.ChoiceIsUnique` | internal/justlendkeeper/dynamic_scheduler.go:61-121 | the sequence of the scan does not matter |
| `SelectionRounds.Validate` | internal/justlendkeeper/dynamic_model.go:199-234 | the reader's check accepts exactly the valid batches |
| `SelectionRounds.ClosedIsValid` | internal/justlendkeeper/dynamic_scheduler.go:326-394 | whatever a round publishes when it is closed passes that check, and holds every slot given, in order |
| `SelectionScheduler.Scheduler.Close` | internal/justlendkeeper/dynamic_scheduler.go:326-394 | publishes the round once and starts the pause |
| `SelectionScheduler.Scheduler.Pick` | internal/justlendkeeper/dynamic_scheduler.go:195-213 | the best of the lane, else of the other lane, else none |
| `SelectionScheduler.Scheduler.Admit` | internal/justlendkeeper/dynamic_scheduler.go:195-248 | the next slot goes to that order, its waiting time restarts, no other waiting time moves, and time has passed since the admission before; none is eligible if none is given |
| `SelectionScheduler.Scheduler.Learn` | internal/justlendkeeper/dynamic_state.go:194-318 | an event changes one order; the waiting time of an order that was ever taken stays, that of another one can only be put forward; another generation begins with nothing but its place, the same one keeps its check |
| `SelectionScheduler.Scheduler.ContinueSlot` | internal/justlendkeeper/dynamic_scheduler.go:283-301 | goes on with the slot if and only if its order stands, is clear and verified, and otherwise ends it with the reason; gives no new slot |
| `SelectionScheduler.Scheduler.Complete` | internal/justlendkeeper/dynamic_scheduler.go:396-479 | the exact check and slot after an operation: a good seed goes on, everything else ends the slot; the next look waits thirty seconds |
| `SelectionScheduler.RestsAWhile` | internal/justlendkeeper/dynamic_scheduler.go:433-484 | an order whose slot has ended is out for one to thirty minutes, and no operation moves a waiting time |
| `SelectionOutcomes.ReadMeans` | internal/justlendkeeper/dynamic_scheduler.go:433-484 | when an order comes up again after its state was read: in a minute if it can be liquidated at a confirmed gain, in five if its deposit lasts half an hour at most, else in half an hour; a failed or unconfirmed reading waits five minutes, doubled each time up to half an hour, and is not freshly liquidatable |
| `SelectionOutcomes.CompletedMeans` | internal/justlendkeeper/dynamic_scheduler.go:396-479 | the end of an operation concerns the order of the slot alone, and only if it is of the same generation and open; the slot goes on exactly after a good seed and otherwise ends with what the check says |
| `SelectionOutcomes.PickMeans` | internal/justlendkeeper/dynamic_scheduler.go:195-213 | on the fields: what is picked is the choice of its own lane, the other lane is asked only when the wanted one has none, nothing is picked only when neither has, and a rate of another implementation does not count |
| `SelectionOutcomes.GivenMeans` | internal/justlendkeeper/dynamic_scheduler.go:216-281 | a given slot has the next number, asks for exploration exactly at multiples of five, and names the order's generation; the order's wait starts again and, unverified or unclear, it is seeded; nothing else of any order changes |
| `SelectionOutcomes.BatchExploresEveryFifth` | internal/justlendkeeper/dynamic_model.go:199-234 | in every valid batch exactly each fifth slot asks for exploration, the two counts are the numbers of members taken for each lane, and they add up |
| `SelectionOutcomes.ClosedMeans` | internal/justlendkeeper/dynamic_scheduler.go:144-155 | a round that is over is published with the reason given before, else because it had all fifty slots, else because its time was up, and is complete only with all its slots |
| `SelectionScheduler.Scheduler.Schedule` | internal/justlendkeeper/dynamic_scheduler.go:137-249 | what one look does in each of its cases: a slot is given only when nothing runs, nothing is to be waited for, sources, budget and round last, and whenever they do and some order is eligible; at most one slot given or one round published, every published round passes the check, nothing given is lost |
| `SelectionFairness.NobodyPassesTwice` | internal/justlendkeeper/dynamic_scheduler.go:61-121 | no order passes a waiting one twice by exploration, other than by a tie in the first turn |
| `SelectionFairness.ExplorationIsFair` | internal/justlendkeeper/dynamic_scheduler.go:61-121 | while orders come and are put forward, one that stays eligible is passed over by at most as many exploring admissions as orders were ever ahead of it, and by one more only in a tie |
| `SelectionFairness.FixedPopulationIsFair` | internal/justlendkeeper/dynamic_scheduler.go:61-121 | with a fixed population it is passed over by at most as many as rank before it, and by one more only in a tie: never more than rank at or before it |
| `SelectionScheduler.Scheduler.RunIsFair` | internal/justlendkeeper/dynamic_scheduler.go:61-249 | both bounds hold in every reachable state of the scheduler, for every stretch of its admissions |
| `SelectionScheduler.TieCostsOne` | internal/justlendkeeper/dynamic_scheduler.go:61-249 | a run of the scheduler in which the only order ahead passes twice, so the tie does cost one |
| `OrderedScan.Page` | internal/runtimecheckpoint/paged.go:339-364 | a page holds the least keys in ascending order, and a short page all of them |
| `OrderedScan.LeastRest` | internal/runtimecheckpoint/paged.go:339-364 | the keys after the last one of a page are exactly those not on it, so consecutive pages visit every key once |

## Left out

- Remote calls, SQL text, file locks, fsync, compression, gob and reflection: the abstract database, log, directory and type shapes are kept. Hashes and digests are injective by construction.
- Real time and goroutines: clock readings and interleavings are parameters or explicit steps; context cancellation is the end of the given clock readings.
- 64-bit nanosecond arithmetic of the quota and of the schedulers: times are unbounded integers; the selection scheduler counts in the whole microseconds to which the original cuts every time it records.
- Page caches, memory estimates and byte budgets: a paged map is a map with ordered scans (`OrderedScan`).
- DEX handoff and rollback exports, and the file plumbing of the conversion: they move stored state without interpreting it.
- DEX log rows and batches: one manifest's block rows are modelled; the payload of an operation is its block and expected revision, and a failing membership check is a failing reply.
- DexOwner.Owner.Save: the two files of a log checkpoint are written in one step; their own crash order is not modelled.
- DexOwner.Owner.Recover: a replayed write and its read-back are one answer of the database, and the checkpoints that fall due during the replay are steps of `DexProtocol` only.
- The Across owner's log (`runtime_owner.go`): it follows the same begin, write, apply, mark protocol as the DEX owner.
- AcrossRuntime.Runtime.Refresh: a known capture keeps its members, which `runtime_owner.go:283-318` demands before; the rebuild for changed members is therefore reached only through canonicity.
- AcrossRuntime.Runtime.Capture: as for `Refresh`; the four anchor fields of a capture are one optional span.
- AcrossRevisions.TakeIn: a known capture keeps its members; `AcrossRuns.Serve` makes the check itself and has no such condition.
- AcrossRevisions.Revise: likewise; its receipt and order effects are proved separately, in `Receipts.Store.Seal`, `Receipts.Store.DropParent` and `Probe.Watch.MarkTerminal`.
- AcrossResume.TakeBack: storage answers with the proposed orphaning revision, or, when the capture was revised since its page was read, with that newer form, which the state knows.
- AcrossResume.Resume: the captures that arrive meanwhile are finitely many, their revisions leave room for one more, and no further job is recorded; with them `AcrossRuns.Serve` still keeps coverage right.
- AcrossRuns.Serve: an answer of storage that is older than what is known is not kept for the log tail, a capture is kept for it only once it was taken in, and retired captures are never trimmed.
- The completeness of the partial set after a covering capture is orphaned: only that every stored partial is still open is proved.
- Finding the bad heights of a reorganisation: it needs the chain.
- The inner workings of the library sorts: they are insertion sorts here.
- Receipt and deposit decoding in a committed batch: the facts are parameters of `Receipts.Store.Fact` and `Probe.Watch.Add`.
- Text parsing of raw events in `DynamicMerge`: an event carries its block, transaction text and index.
- SelectionRounds.Validate: member digests, round identity and policy, and the 256-bit bounds of amounts are not modelled.
- SelectionScheduler.Scheduler.Learn: what the merge rules make of an event is its parameter; those rules are `DynamicMerge`. An event is not available before it is seen.
- SelectionScheduler.Scheduler.Pick: the reason that is recorded with a slot names the lane alone.
- SelectionScheduler.Scheduler.Complete: one state reading to an operation.
- Sources, identities and evidence that a selection depends on are the fields of a gate; digests of members are left out.
- Windows.Analyze: routes are distinct, as the fixed route list of the original is, blocks come sorted as the original sorts them, the quote digest check is a field of the block, and daily counts, summaries, candidate lists and identifiers are not kept.
- FactBytes.EncodingIsPrefixFree: shapes are finite trees; recursive Go types have none.
- Checkpoint.StateWriter.Save: going on with a writer after a failed save is excluded, as is damage to files by anything but the writer; the encoded form of a state may vary between saves.
- Psm: governance changes of its fees and the minting of DAI; a run is any sequence of trades.
