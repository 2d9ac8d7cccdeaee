# A verified model of prdozer, jiradozer and their helpers

The repository babysits pull requests (prdozer) and drives issues through agent workflows (jiradozer), on machines it
picks and worktrees it manages (fleet, wt). What its operators rely on are guarantees about whole runs: brakes that bound
merges, polishes and pushed commits; slots that are neither overrun nor leaked; labels that survive crashes; review
gates nobody slips through. This project models that logic and proves those guarantees for every input and every run.

`dafny verify dfyconfig.toml` checks everything.

How it is built:

- Code that mutates state is a class whose methods are proved against specification functions on values: the watcher
  (`Watcher.dfy` against `TickSpec.dfy`), the orchestrator's and discovery's critical sections (`Slots.dfy`), the
  workflow, its state machine and its tracker (`Workflow.dfy` against `WorkflowSpec.dfy` and `WorkflowShape.dfy`), the
  log tailer. Guarantees over runs are lemmas about the specifications.
- What the specifications mean is proved without naming them, from records, snapshots, replies, positions and steps
  alone: `Decisions.dfy`, `Accounting.dfy` and `Cooldowns.dfy` for a tick, `FailureCounts.dfy` and `Line.dfy` for the
  slots, `Feedback.dfy` and `Skipping.dfy` for the workflow, and the lemmas by position beside each filter.
- Concurrency is interleaving: `SlotProtocol.dfy` gives the loop, discovery and each wait goroutine a program counter and
  one atomic step per critical section or channel operation. poll's two reads of the orchestrator are two steps.
- The outside world (git, gh, agents, the tracker, comments, other people editing labels, clocks, map orders) is an
  arbitrary input of every step. A failing label write may still have taken effect.

What the proofs found:

- poll reads the active issues and then drains the releases under separate locks. A cleanup landing between the two
  loses its release: the issue stays suppressed for as long as the tracker lists it, although the comments promise
  re-admission. `Suppression` has the run, shows the issue stays stuck, and proves that without such a cleanup every
  suppressed issue is accounted for.
- A run can polish for ever although the divergence guard is on: a tick that cannot read the review-thread count is not
  guarded, and if it directly follows a polished tick that round is never charged. A run that reads the count on every
  polishing tick can thus go on for ever too. `PolishTermination` proves that these two kinds of tick, infinitely often,
  are exactly what it takes.
- The seen-set's changed flag says an id is new even when the 500 cap drops it at once; the stored list then does not
  change, contrary to the comment on MergeSeenComments.
- The dispatched command runs the intended program only if a shell takes the binary's name for one: a bare name that is
  a builtin, or one with an equals sign, would be taken otherwise.
- The two arms that hand a failed merge to a human cannot be reached, nor can a redo's removal of -done labels, although
  the comment above the latter describes a redo from a later gate into an earlier phase.
- A redo that skips on, because a label turned its phase off in the meantime, does not enter the phase it ends up in: the
  run works there without the -inprogress label. `Skipping` has the input and proves that this is exactly when.
- With worktrees whose parents form a cycle of three or more, a worktree can be rebased after its ancestor's rebase
  failed. `SyncRebases` proves exactly when that is excluded on a given order.

## Model

| member | source | states |
|---|---|---|
| PrHealth.BetterThanIsStrictTotalOrder | prdozer/state.go:220-225 | the health comparison is a strict total order on the two counts |
| PrHealth.SaturatedIffUnbeatable | prdozer/state.go:240-242 | a health is saturated exactly when no health is better |
| SeenSet.MergeSortedCapped | prdozer/state.go:290-317 | the in-place loops (mark, collect keys in any map order, sort, cut) compute the merge specification and its changed flag |
| SeenSet.Sort | prdozer/state.go:308-311 | sorting distinct keys gives the specification's strictly sorted list |
| SeenSet.MergeCappedIsTop | prdozer/state.go:290-317 | the merged list is strictly sorted and is the 500 largest of stored and incoming ids together; unchanged means incoming was already contained |
| SeenSet.TopOfTop | prdozer/state.go:290-317 | cutting to the top 500, adding more and cutting again loses nothing a single cut would keep |
| SeenSet.StoredIsTopOfObserved | prdozer/state.go:276-317 | starting empty, after any sequence of merges the stored list is the 500 largest of everything ever observed |
| SeenSet.SplitIndependent | prdozer/state.go:276-317 | two ways of splitting the same ids over ticks store the same list |
| SeenSet.ListChangesIffSomeNewIdSurvives | prdozer/state.go:276-317 | the stored list changes exactly when a new id survives the cap; the flag alone can be set without a change |
| SeenSet.FlagWithoutChange | prdozer/state.go:276-317 | 500 stored ids and an older incoming one: the flag is set and the list stays the same |
| SeenSet.OrdersAreTotal | prdozer/state.go:290-317 | the orders on comment ids and run ids are strict and total |
| PolishRounds.ValidateRounds | prdozer/registry.go:352-373 | the loop accepts exactly the specs whose rounds are well formed and whose once rounds have distinct keys |
| PolishRounds.ActiveRounds | prdozer/agent.go:105-117 | the loop keeps the rounds in order, dropping once rounds already recorded |
| PolishRounds.RunRounds | prdozer/agent.go:133-189 | the loop runs rounds in order, stops at the first error and reports the once rounds finished before it |
| PolishRounds.Polish | prdozer/agent.go:91-96 | one call runs the active rounds |
| PolishRounds.CallCompletesOnce | prdozer/agent.go:105-189 | one call of a validated spec finishes each once round at most one time, never one already recorded, and reports exactly those it finished |
| PolishRounds.ProgressBeforeFaultIsKept | prdozer/agent.go:133-189 | a call failing at round i reports every once round before i |
| PolishRounds.CallByPosition | prdozer/agent.go:91-189 | by position: the rounds a call works through are all rounds but the once rounds on record, in their order; it finishes those before the one that fails and reports the fault, and its record is of exactly the once rounds it finished; with none owed it makes one call that finishes no round |
| PrState.ComputeChangeset | prdozer/changeset.go:88-186 | the field-by-field diff computes the diff specification |
| PrState.JudgeSnapshot | prdozer/changeset.go:142-183 | the standing conditions: conflicts, mergeable, changes requested, review needed |
| PrState.UnseenCommentsMeaning | prdozer/changeset.go:109-125 | an id is new exactly when an observed comment by somebody else carries it and it was not seen |
| PrState.UnseenRunsMeaning | prdozer/changeset.go:127-140 | a run is new exactly when it failed and was not seen |
| PrState.UnseenByPosition | prdozer/changeset.go:109-125 | the new ids are those of every unseen comment by somebody else, in order and with repeats |
| PrState.UnseenRunsByPosition | prdozer/changeset.go:127-140 | the new runs are every unseen failed run, in order |
| Watcher.Watcher.ExpireStaleDivergence | prdozer/watcher.go:763-788 | refines the specification of retiring a verdict reached on another head |
| Watcher.Watcher.RecordPolishWork | prdozer/watcher.go:991-1011 | refines the work counters and their dirty flag |
| Watcher.Watcher.RecordHealth | prdozer/watcher.go:954-983 | refines the health high-water mark and the rounds-since-improvement counter |
| Watcher.Watcher.ReworkAfterFailedMerge | prdozer/watcher.go:649-692 | refines the agent round after a failed merge, with the texts a cooldown quotes |
| Watcher.Watcher.AttemptMerge | prdozer/watcher.go:313-332 | counts every attempt before its outcome is known and reports the outcome; merge is called once per attempt |
| Watcher.Watcher.InvokePolish | prdozer/watcher.go:411-519 | refines the polish call: once rounds kept on error, no-progress streak, stall stop, self-review mark |
| Watcher.Watcher.DecideAndAct | prdozer/watcher.go:294-519 | chooses among merge, rework, polish, stop and idle exactly as specified and makes only the calls the verdict says |
| Watcher.Watcher.ObserveSnapshot | prdozer/watcher.go:1148-1174 | folds the snapshot into the record and reports whether anything moved |
| Watcher.Watcher.UpdateStreak | prdozer/watcher.go:1180-1221 | the failure-streak arm: count, window, cause |
| Watcher.Watcher.ApplyMergeBrake | prdozer/watcher.go:1223-1277 | the merge brake arm, skipped when the streak arm opened the window or the run ends |
| Watcher.Watcher.RecordSnapshot | prdozer/watcher.go:1137-1282 | refines recording; a dry run records nothing |
| Watcher.Watcher.Tick | prdozer/watcher.go:180-292 | one tick loads the record, decides, records, and writes the file exactly when dirty |
| TickFacts.AttemptActions | prdozer/watcher.go:313-332 | a merge attempt ends the run only by landing the PR; handing a failed merge to a human is unreachable |
| TickFacts.InvokeActions | prdozer/watcher.go:411-519 | only a polish call yields polished, it is never made past the scope or divergence brakes, and it ends the run only by the stall stop |
| TickFacts.TickShape | prdozer/watcher.go:180-292 | how one completed tick moves the merge, once, health and work fields, together |
| TickFacts.TickCooldown | prdozer/watcher.go:1180-1277 | the window, its cause and its watermark after a tick, from the two arms that can open it |
| TickFacts.TickKeepsInv | prdozer/watcher.go:180-292 | every tick keeps the run invariant: a cause implies a window, the watermark never runs ahead, the seen lists are sorted and capped |
| Accounting.TickScores | prdozer/watcher.go:763-1064 | what a completed tick charges, from the record and the snapshot: a polished tick counts as a round, and as one without improvement only if this look finds none; the best health moves exactly when green beats red or fewer threads; the head's new commits are charged when it moved under an agent, and at least one; a run that ended needing a human starts afresh on another head |
| Accounting.TickObserves | prdozer/watcher.go:1137-1282 | after a live tick the file holds the head, base, commit count, action and time that the tick saw, unknown ones left as they were |
| Accounting.CountersAddUp | prdozer/watcher.go:180-292 | over any ticks every merge attempt is counted on disk, and every polished tick is counted or is the last one and still to be charged |
| Decisions.LookingRuns | prdozer/watcher.go:180-232 | a tick starting in a cooldown rests and reports idle, one without a snapshot is an error, any other runs; the first two change nothing and call nobody |
| Decisions.TickMergesIff | prdozer/watcher.go:294-332 | a tick tries to merge if and only if it got its snapshot, the PR is open, green, free of conflicts, approved or in need of no approval, without a new foreign comment, new failed run or moved base, its head reviewed if that is asked for, auto-merge on, the policy not notify, and not in a dry run |
| Decisions.TickPolishesIff | prdozer/watcher.go:333-411 | it calls the polisher if and only if an open PR has work to do or an unreviewed head, is not merely awaiting approval, neither brake stops it, a polisher is there, and not in a dry run |
| Decisions.TickRestsAs | prdozer/watcher.go:294-411 | what a tick that calls nobody reports, and exactly when it raises the scope and the divergence flag |
| Decisions.AttemptReports | prdozer/watcher.go:313-332 | what a merge attempt is reported as, from gh's answer, the policy and the rework round, and the merge error it leaves |
| Decisions.InvokeReports | prdozer/watcher.go:411-519 | what a polish call is reported as and leaves on the record, from the rounds it finished and its error: once record, no-progress streak, stall stop, review mark |
| Cooldowns.TickWindow | prdozer/watcher.go:1180-1277 | what a tick does to the failure streak, the window and the brake's mark on disk: which of the two brakes opens a window, until when, and which ticks clear it |
| Cooldowns.TickCause | prdozer/watcher.go:1293-1341 | a window's cause on disk names the stalled stage, the agent's error or the merge's behind the tick that opened it, or the attempts of the merge brake |
| Cooldowns.StreakIsHistory | prdozer/watcher.go:1180-1221 | over any ticks the failure streak on disk is the number of ticks reported failed, reworked or stalled since the last clearing one; outages do not count |
| Cooldowns.FailureStreakRests | prdozer/watcher.go:1195-1206 | N failing ticks with no clearing one between them: every later tick that starts within a cooldown of the last of them is skipped and calls neither gh nor the polisher |
| Cooldowns.WindowsAreEarned | prdozer/watcher.go:1180-1277 | a window on disk was opened by the streak or the merge brake at some tick with no clearing tick since |
| DiskWrites.SkippedWriteLosesNothing | prdozer/watcher.go:202-291 | when a tick other than a dry run decides not to write, no persisted field changed |
| DiskWrites.ReloadingEqualsMemory | prdozer/watcher.go:180-292 | over any run without dry-run, loading the file every tick is the same as keeping the record in memory |
| DiskWrites.DryRunNeverReachesDisk | prdozer/watcher.go:1137-1140 | a dry-run tick leaves the file alone |
| MergeRate.TickOpensOrCounts | prdozer/watcher.go:1180-1277 | a tick that does not land the PR opens a full cooldown window or leaves fewer than N uncharged attempts |
| MergeRate.MergeRateBound | prdozer/watcher.go:1361-1371 | any half-open interval as long as the cooldown holds at most N merge attempts, until the PR lands |
| PolishTermination.PolishedTicksDescend | prdozer/watcher.go:866-983 | between two polished ticks the triple (best red, best unresolved, rounds left) strictly descends, unless an unreadable tick polished or followed a polished one in between |
| PolishTermination.FinitelyManyPolishes | prdozer/watcher.go:866-939 | in an endless run with readable thread counts only finitely many ticks polish |
| PolishTermination.PolishesForeverIffBlindForever | prdozer/watcher.go:866-983 | the exact condition, for every endless run with the guard on: infinitely many ticks polish if and only if infinitely many completed ticks could not read the count and polished or directly followed a polished tick |
| PolishTermination.AlternatingCountsNeverStop | prdozer/watcher.go:954-983 | a run that polishes for ever although every polishing tick reads the count: the idle tick after each one does not, so no round is ever charged |
| PolishTermination.UnreadableCountsNeverStop | prdozer/watcher.go:866-880 | with every count unreadable the guard never acts: a concrete run polishes on every tick |
| ScopeBrake.PolishCommitsNeverDecrease | prdozer/watcher.go:991-1011 | the charged commits never decrease |
| ScopeBrake.InvokedBelowLimit | prdozer/watcher.go:807-858 | the polisher is never called at 2L charged commits, nor at L when something needs polishing |
| ScopeBrake.MovedHeadsBound | prdozer/watcher.go:1041-1064 | from any record, calls followed by a moved head fit in what is left of 2L |
| ScopeBrake.AtMostTwiceTheLimit | prdozer/watcher.go:807-858 | over a PR's life at most 2L polish calls, stall stops aside, are followed by a moved head |
| OnceRounds.OnceRoundFinishesOnce | prdozer/watcher.go:411-422 | over any ticks, faults and restarts, and even a changing configuration, a once round finishes at most once per PR |
| OnceRounds.ProgressSurvivesFailure | prdozer/watcher.go:413-422 | once rounds before a failing round are on disk after the tick |
| Babysitting.TickAll | prdozer/watcher.go:180-292 | a watcher ticking over any inputs leaves the file, the merge and polish calls and the completed rounds of the specification |
| Babysitting.Babysit | prdozer/watcher.go:180-292 | on a watcher from any saved record: at most N merge calls within one cooldown until the PR lands, each once round completed at most once over any ticks, no call at all in a dry run, and the failure streak equal to the failing ticks since the last clearing one |
| Triggers.OnlyCappedIdsFireAgain | prdozer/changeset.go:88-186 | after a tick on a snapshot, re-diffing it fires no head or base move, and an id again exactly when the cap pushed it out |
| Triggers.TickConsumesItsTriggers | prdozer/watcher.go:1137-1174 | with at most 500 ids per family, only standing conditions are left |
| Slots.Orchestrator.TryReserve | jiradozer/orchestrator.go:492-506 | check and reserve as one section: refused exactly at the limit, else a duplicate exactly when active, else the placeholder is in |
| Slots.Orchestrator.Commit | jiradozer/orchestrator.go:614-616 | the started child takes over the placeholder |
| Slots.Orchestrator.DeleteSlot | jiradozer/orchestrator.go:729-732 | the reservation of a failed start is given back |
| Slots.Orchestrator.Signal | jiradozer/orchestrator.go:733-736 | the send leaves the one-slot channel full, whether or not it was |
| Slots.Orchestrator.RecordRuntimeFailure | jiradozer/orchestrator.go:704-715 | one more consecutive failure |
| Slots.Orchestrator.RecordSuccess | jiradozer/orchestrator.go:720-725 | failures forgotten, pending release withdrawn |
| Slots.Orchestrator.FreeSlot | jiradozer/orchestrator.go:1006-1016 | the entry goes; a failed or cancelled issue below the cap is released |
| Slots.Orchestrator.ActiveIssueIDs | jiradozer/orchestrator.go:370-383 | the active issues and those at the runtime-failure cap |
| Slots.Orchestrator.DrainReleasedForRetry | jiradozer/orchestrator.go:389-401 | hands over every release, each once and in any order |
| Slots.Discovery.Reconcile | jiradozer/discovery.go:148-176 | the locked loop of poll emits the listed issues neither active nor seen-and-unreleased, and makes the listing the seen set |
| Slots.FreshMeaning | jiradozer/discovery.go:158-174 | what is emitted, as an if-and-only-if |
| Slots.FreshByPosition | jiradozer/discovery.go:158-174 | what is emitted by position: every such entry of the listing, in its order |
| SlotSafety.StepKeepsSafe | jiradozer/orchestrator.go:804-894 | every atomic step of loop, discovery and wait goroutines keeps slot ownership, the limit and the wakeup invariant |
| SlotSafety.ChildrenWithinLimit | jiradozer/orchestrator.go:640-689 | live children are at most the limit and never two for one issue |
| SlotSafety.NoWakeupIsLost | jiradozer/orchestrator.go:729-894 | over all interleavings: never above the limit, no issue with two slots, and a loop waiting with work and a free slot can be woken or is about to be |
| FailureCounts.FailuresAreHistory | jiradozer/orchestrator.go:704-737 | over all interleavings, from the steps alone: an issue's runtime failures are its children's recorded failures since its last success, its start failures the failed starts since its last launch; a release stands, and a wakeup is in the channel, exactly when one was given that nothing has taken back since |
| FailureCounts.ThreeFailuresRetire | jiradozer/orchestrator.go:358-383 | after three recorded failures with no success between them no poll that reads the active issues from then on emits the issue, whatever happens between its two reads |
| FailureCounts.ThirdFailedStartGivesUp | jiradozer/orchestrator.go:835-853 | the third failed start since the last launch leaves the issue suppressed, an earlier one makes discovery forget it |
| FailureCounts.OutcomesAreReported | jiradozer/orchestrator.go:640-689 | the outcome a wait goroutine records and frees with is the one its child's end reported |
| Line.StepInLine | jiradozer/orchestrator.go:804-894 | the issues between discovery and a child keep their order: a poll adds at the end, a settled issue leaves its place, every other step leaves the line as it is |
| Line.TriesIffRoom | jiradozer/orchestrator.go:858-893 | an issue that is pending or just received is tried exactly when the loop counts a slot free |
| Line.EmissionsAreConserved | jiradozer/orchestrator.go:804-894 | over all interleavings every emission is settled exactly once, by a launch, an existing worktree or a failed start, or is still in line |
| Suppression.PollEmits | jiradozer/discovery.go:140-176 | exactly what a poll emits, given its two reads |
| Suppression.PollLosesExactly | jiradozer/discovery.go:148-176 | the exact condition for a poll to lose track of a listed issue: its release pending, nothing else holding it, and it in the active set read before |
| Suppression.StepKeepsGood | jiradozer/discovery.go:140-196 | every atomic step keeps each seen issue accounted for, or among the releases a poll consumed unseen |
| Suppression.SuppressionIsJustified | jiradozer/orchestrator.go:806-854 | in every reachable state a seen issue is being emitted, pending, in tryStart, active, released, shipped, capped or given up, unless a cleanup landed between a poll's two reads |
| Suppression.AdjacentPollEmitsExactly | jiradozer/discovery.go:140-196 | with adjacent reads a poll emits exactly the listed issues not active, not capped, and not seen unless released |
| Suppression.StuckForGood | jiradozer/discovery.go:148-176 | an issue whose release was swallowed is never emitted again while it stays listed |
| Suppression.SuppressionCanBeUnjustified | jiradozer/discovery.go:149-157 | a concrete run reaches a suppressed issue nobody accounts for: a cleanup between the two reads |
| WorkflowSteps.StateMachine.Transition | jiradozer/state.go:161-177 | accepts exactly the table's moves and appends to the history |
| WorkflowSteps.StateMachine.ForceState | jiradozer/state.go:182-192 | jumps anywhere, recorded as forced |
| WorkflowProgram.LatestFeedbackComment | jiradozer/poller.go:78-85 | the backward loop finds the specification's latest comment |
| WorkflowProgram.PollForFeedback | jiradozer/poller.go:39-76 | polling over the fetched batches from the cut-off on, failed fetches skipped |
| WorkflowProgram.Workflow.constructor | jiradozer/workflow.go:134-180 | a new workflow: configured and labelled skips, nothing started |
| WorkflowProgram.Workflow.ReconcileSkipPhasesFromLabels | jiradozer/workflow.go:182-202 | label skips follow the labels, configured ones stay |
| WorkflowProgram.Workflow.RefreshLabels | jiradozer/workflow.go:826-851 | the fetched labels, or the last known ones when the fetch fails |
| WorkflowProgram.Workflow.EnterPhase | jiradozer/workflow.go:858-867 | in progress only after the tracker confirmed the label |
| WorkflowProgram.Workflow.CompletePhase | jiradozer/workflow.go:882-894 | -done first, then -inprogress off; done in memory only after -done was confirmed |
| WorkflowProgram.Workflow.CompletePriorPhases | jiradozer/workflow.go:753-762 | the loop completes the phases before the current one in table order |
| WorkflowProgram.Workflow.CleanupStalePhaseLabels | jiradozer/workflow.go:732-745 | the final sweep over freshly fetched labels |
| WorkflowProgram.Workflow.SkipCompletedOrConfiguredPhases | jiradozer/workflow.go:768-816 | the skipping loop, jump by jump |
| WorkflowProgram.Workflow.HandlePhaseBoundary | jiradozer/workflow.go:695-725 | both arms of the boundary |
| WorkflowProgram.Workflow.TryRedo | jiradozer/workflow.go:899-916 | charge, refuse past the limit, otherwise go back and reopen |
| WorkflowProgram.Workflow.ReopenPhaseOnRedo | jiradozer/workflow.go:929-981 | the rewinding loop over the target phase and the later ones |
| WorkflowProgram.Workflow.HandleReviewFeedback | jiradozer/workflow.go:603-662 | approve, approve all, redo and comment |
| WorkflowProgram.Workflow.RunReview | jiradozer/workflow.go:569-683 | an auto-approving gate sets a missing cut-off to the clock and looks once for feedback, any other polls and remembers the time of what it heard |
| WorkflowProgram.Workflow.AwaitFeedback | jiradozer/workflow.go:569-601 | what the gate hears, and lastCommentAt afterwards |
| WorkflowProgram.Workflow.PostWaitingComment | jiradozer/workflow.go:1001-1021 | the waiting comment is excluded from feedback; a missing cut-off becomes its time, or else the clock |
| WorkflowProgram.Workflow.TransitionToReview | jiradozer/workflow.go:983-1022 | the move to the next step and the waiting comment |
| WorkflowProgram.Workflow.RunRounds | jiradozer/workflow.go:373-424 | the loop over configured rounds stops at the first one cancelled, failed or not renderable; the comments posted until then are kept, and only the last round gives a time |
| WorkflowProgram.Workflow.RunSession | jiradozer/workflow.go:466-495 | an unchanged build skips the comment; a comment that cannot be rendered fails the step |
| WorkflowProgram.Workflow.RunStepAgent | jiradozer/workflow.go:446-498 | a step begins with nothing to exclude and no cut-off, and leaves its own comments and time |
| WorkflowProgram.Workflow.RunStep | jiradozer/workflow.go:338-515 | an agent step fails, ends the run for lack of changes, or leads on |
| WorkflowProgram.Workflow.Run | jiradozer/workflow.go:235-334 | the whole run equals the recursive specification, with a proved termination measure |
| WorkflowShape.IterateHasShape | jiradozer/workflow.go:275-334 | the only ways one pass can change history, redo counts, agent runs and approve-all |
| WorkflowShape.TableMeaning | jiradozer/state.go:84-132 | the whole transition table: the start, every step failing or leading on, gates leading back to their own phase's start, the build gate to planning, the two later gates to building |
| WorkflowShape.Progress | jiradozer/workflow.go:275-334 | every pass spends a redo or moves strictly forward |
| WorkflowBounds.EveryRunEnds | jiradozer/workflow.go:235-334 | for all replies the run ends: no transition refused, no unexpected state, history an unbroken chain of table moves and strictly forward jumps, each agent run at most maxRedos + 1 times |
| PhaseOrder.ReopenOrderly | jiradozer/workflow.go:929-981 | a redo only ever reopens its own phase, so its removals of -done never happen |
| PhaseOrder.DoneLabelsStay | jiradozer/workflow.go:768-981 | whoever edits labels, a run removes no -done label and runs nothing of a phase configured to be skipped |
| PhaseLabels.IterateKept | jiradozer/workflow.go:695-981 | one pass keeps memory and tracker in agreement under any write failures |
| LabelRuns.MemoryAndTrackerAgree | jiradozer/workflow.go:858-894 | in progress implies the label, done implies the label or a configured skip, and phases off at the start never run |
| LabelRuns.CrashNeverRedoesARecordedPhase | jiradozer/workflow.go:869-894 | after a crash between any two label writes every recorded phase is still recorded, and a second run executes nothing of it |
| LabelRuns.CleanFinish | jiradozer/workflow.go:695-762 | without failures a run that returns through the done step leaves no -inprogress label and -done on every phase not skipped |
| LabelRuns.FinishTidiesUp | jiradozer/workflow.go:695-745 | once its own calls succeed, the last boundary leaves every phase done and no -inprogress label behind, whatever earlier removals failed or others did before |
| Skipping.SkipMeaning | jiradozer/workflow.go:768-816 | with the labels as fetched, or as last known, skipping goes past exactly the run of phases that have a -done label or that the table turns off, marks those done, and stops at the first other phase or at the end |
| Skipping.TableIsAlwaysFresh | jiradozer/workflow.go:134-202 | in every run, whatever others do to the labels and whichever fetches fail, the skip table at each pass is the one a fresh workflow would build from the labels last fetched |
| Skipping.TableMeaning | jiradozer/workflow.go:134-180 | such a table has the configured phases and those with a skip label, a label outranking all sources but the command line |
| Skipping.BoundaryEnters | jiradozer/workflow.go:695-725 | once its own calls succeed, a boundary that does not end the run enters the phase it leads to |
| Skipping.BeginEnters | jiradozer/workflow.go:235-291 | and so does the start of a run |
| Skipping.RedoEntersIffNothingSkipped | jiradozer/workflow.go:899-981 | a redo enters the phase it ends up in if and only if it skips nothing: tryRedo skips on without entering |
| Skipping.RedoCanWorkUnannounced | jiradozer/workflow.go:899-916 | a skip label set between the gate and the redo: the run works in the next phase without its -inprogress label |
| Feedback.LatestMeaning | jiradozer/poller.go:78-85 | the comment acted on is the last one of its list that is not excluded; none means all are excluded |
| Feedback.FetchedMeaning | jiradozer/tracker/tracker.go:19-21 | a fetch gives exactly the comments created at or after the time it asks for |
| Feedback.FetchedByPosition | jiradozer/tracker/tracker.go:19-21 | and gives them in order |
| Feedback.PollMeaning | jiradozer/poller.go:57-75 | polling ends with such a comment of the first batch that has one from the cut-off on, or every comment from there was excluded |
| Feedback.OutcomeMeaning | jiradozer/workflow.go:338-498 | when a step fails, which comments it posted and which time it leaves, from its sessions or rounds; an unchanged build posts nothing |
| Feedback.StepLeads | jiradozer/workflow.go:338-515 | a step whose session or some round fails fails the run, an unchanged build ends it, and any other step leads on |
| Feedback.IterateIsReady | jiradozer/workflow.go:446-498 | a pass that leads to a gate ran that gate's step to the end; the gate then excludes exactly the comments that the step's call and the waiting comment's posted, and has their time |
| Feedback.GateDecision | jiradozer/workflow.go:569-601 | a listening gate passes by itself only if it may and nobody else has spoken since the gate's time; what it hears is the last such word, in the first batch with any |
| Feedback.GateRemembers | jiradozer/workflow.go:569-601 | a polling gate remembers the time of what it heard, any other the time it listened from, and both keep excluding the same comments |
| ReviewGates.EveryGateIsJustified | jiradozer/workflow.go:569-683 | over every run, each move out of a gate was made by a pass that stood there after exactly the moves before it, the pass before having run the gate's step; by the answers to that step's calls it excluded exactly the workflow's own comments and listened from their time. It goes forward only by auto-approve or an approve-all still in force with nobody else heard, or by the last word heard there and read as approving; back only on one read as redo or feedback; to failure only past the redo limit or unheard |
| ReviewGates.EveryGateListens | jiradozer/workflow.go:446-498 | over every run, whenever a pass stands at a gate the pass before ran the gate's step to the end, and the workflow excludes exactly the comments that the answers to that step's calls show it posted, listening from their time |
| WorkflowRuns.RunIssue | jiradozer/workflow.go:235-334 | a new workflow run to its end: history, agent runs, gates and labels of its objects are as the run theorems say |
| Dispatch.RemoteCommand | fleet/dispatch.go:30-62 | the loop and the joins build the remote command line |
| Dispatch.SSHCommand | fleet/dispatch.go:102-105 | the printed ssh line |
| Dispatch.QuoteRoundTrip | fleet/dispatch.go:108-110 | a shell reads a quoted string back as one word, unchanged, for every string |
| Dispatch.RemoteCommandRuns | fleet/dispatch.go:30-62 | through login shell, tmux's shell and sh -c: exactly BinaryPath and Args, in the named session, with the derived PATH, exactly when a shell runs a command of that name as a program |
| Dispatch.SshCommandRuns | fleet/dispatch.go:102-105 | the same through the local shell and ssh as well, with exactly the three ssh options; an absolute path without an equals sign always qualifies |
| DependencyOrder.BuildDependencyOrder | wt/worktree.go:1204-1267 | for any map order: terminates with a worktree for every branch, a permutation when branches are distinct, parents before children off every cycle |
| DependencyOrder.LinksMeaning | wt/worktree.go:1205-1226 | a branch is linked to its recorded parent exactly when both have a worktree and its own is not detached |
| DependencyOrder.RootedIffNoCycle | wt/worktree.go:1204-1267 | rooted means exactly: no repeated ancestor, so not on or below a cycle |
| SyncRebases.RebaseAll | wt/worktree.go:1122-1179 | the loop with failedBranches attempts exactly the specified rebases |
| SyncRebases.AttemptsMeaning | wt/worktree.go:1122-1179 | a rebase is in the log exactly when its worktree was visited and tried |
| SyncRebases.VisitMeaning | wt/worktree.go:1124-1179 | a detached worktree is left alone, one whose parent was skipped or failed before it is skipped, and every other is rebased |
| SyncRebases.AttemptsByPosition | wt/worktree.go:1124-1179 | the log holds one attempt for each rebased worktree, in order |
| SyncRebases.FailuresAreContained | wt/worktree.go:1124-1140 | a full Sync never rebases a rooted worktree when an ancestor's rebase failed |
| SyncRebases.ContainedIffInOrder | wt/worktree.go:1122-1179 | the exact condition, on any order: a worktree is never rebased after an ancestor's failure, whatever fails, if and only if each ancestor visited before it is reached by parents visited ever earlier |
| SyncRebases.ShortCyclesAreContained | wt/worktree.go:1122-1179 | a branch that is its own parent or its parent's parent is contained |
| SyncRebases.CyclesAreNotContained | wt/worktree.go:1257-1264 | on a cycle of three the containment fails |
| LogTail.CapTailLine | jiradozer/orchestrator.go:178-192 | the two loops trim newlines and find the cut |
| LogTail.CappedStaysValid | jiradozer/orchestrator.go:173-192 | valid UTF-8 stays valid, at most three bytes short of the cap are given up |
| LogTail.CappedMeaning | jiradozer/orchestrator.go:173-192 | what is kept of any line, valid text or not: all but its trailing newlines, or past 2000 bytes the part before the last character start at or below the cap, and an ellipsis |
| LogTail.KeptMeaning | jiradozer/orchestrator.go:197-211 | the kept lines are exactly the capped non-blank fragments, and capping a valid fragment leaves it valid |
| LogTail.Tailer.AppendTail | jiradozer/orchestrator.go:197-211 | the ring is the last 20 kept lines of everything handed on |
| LogTail.Tailer.RingByPosition | jiradozer/orchestrator.go:197-211 | the ring by position: what is kept of the last 20 fragments that are not blank, oldest first |
| LogTail.Reader.ReadLine | jiradozer/orchestrator_logtail.go:105-111 | a buffered read returns a line, or everything buffered with the error |
| LogTail.Tailer.TailSubprocessLog | jiradozer/orchestrator_logtail.go:66-156 | across appends, read errors and reopens the fragments are what the reads gave, one line or rest at a time, and together exactly the first offset bytes; the ring matches them; the tailing ends when and why it has to, after the fourth failed read at the latest |
| Utf8.CutValid | jiradozer/orchestrator.go:183-189 | a cut at the start of a character keeps the text valid |

## Left out

- WorkflowProgram.Workflow.RunStep: what a session or a round does is an outcome (it ran or not, its comment rendered or not, the comment was posted or not); prompts, session resumption, plan text and feedback text have no other effect on the run and are left out, as is the notice posted when a build changed nothing, which no gate follows.
- WorkflowProgram.PollForFeedback: an endless poll is represented by the finite list of batches fetched before the context ended; the tracker is taken to give the comments created at or after the time asked for, as its interface says, and each comment carries the action ParseCommentAction reads in its text.
- WorkflowProgram.Workflow.Run: updates of the issue's tracker state are best effort with no effect on the run and are not modelled, nor are transition callbacks and status lines.
- Watcher.Watcher.Tick: saves succeed and time does not run backwards; the stored record is a value in a field, so aliasing of the Go struct is not captured; PR number and repository, constant over a run, are not fields.
- Watcher.Watcher.AttemptMerge: the merge command, its URL and number checks and the verification are one reply; which agent error is an outage, a stall or a plain failure is part of the input, not read from its text.
- PolishRounds.RunRounds: running a round is a fault input; prompts, templates and commands are not modelled, and a once round's key is its content rather than a hash of it.
- Slots.Orchestrator.TryReserve: MaxConcurrent is constant (UpdateConfig sends no wakeup), and dry-run, RestoreActive after an exec restart and shutdown are not part of the protocol.
- Dispatch.RemoteCommand: the derivation of the remote PATH is a parameter, empty unless BinaryPath is absolute; the shells are modelled on single quotes, backslashes, blanks and semicolons, other unquoted special characters make a line unsupported, and so does any command name that may be an assignment, an option of exec or built into a shell; a NUL byte, which no command line can carry, is treated like any other character.
- DependencyOrder.BuildDependencyOrder: permutation is claimed for distinct branch names only; detached worktrees share one name and all but one of them are dropped by the source.
- SyncRebases.RebaseAll: fetching, merged-parent detection and the choice of the rebase target do not affect which rebases are attempted and are left out.
- LogTail.Tailer.TailSubprocessLog: one reply describes everything around one read; parsing the lines into step transitions and PR links is left out.
- Host ranking (fleet/probe.go): single-branch eligibility checks and a sort, nothing that spans operations.
- Garbage collection of worktrees and branches, failure reporting, Slack, logging, command-line flags and the terminal interface: they would add only easy members.
- File locks and the file system: their guarantee is the kernel's.
