/** What each part of a tick may change, and the run invariant (prdozer/watcher.go). */
module TickFacts {
  import opened Common
  import opened PrHealth
  import opened PrState
  import opened TickSpec
  import SeenSet
  import PolishRounds

  /** A recorded cause comes with a window, and the attempt mark never runs ahead. */
  predicate CooldownInv(s: State) {
    (s.lastCooldownCause != NoCause ==> s.cooldownUntil.Some?) && s.cooldownFromAttempt <= s.mergeAttempts
  }

  ghost predicate SeenInv(s: State) {
    && SeenSet.StrictlySorted(SeenSet.StringLess, s.seenComments) && |s.seenComments| <= SeenSet.MAX_SEEN_IDS
    && SeenSet.StrictlySorted(SeenSet.IntLess, s.seenRuns) && |s.seenRuns| <= SeenSet.MAX_SEEN_IDS
  }

  /** Holds of the empty record and after every tick. */
  ghost predicate Inv(s: State) {
    CooldownInv(s) && SeenInv(s)
  }

  /** Scoring a snapshot touches the health and work counters only. */
  lemma AccountFrame(s: State, snap: Snapshot)
    ensures var a := Account(s, snap).0;
            a == s.(bestHealth := a.bestHealth, roundsSinceImprovement := a.roundsSinceImprovement,
                    invocationsSinceRound := a.invocationsSinceRound, polishRounds := a.polishRounds,
                    polishCommits := a.polishCommits, baselineAdditions := a.baselineAdditions)
    ensures Account(s, snap).0.polishCommits == s.polishCommits + PushedCommits(s, snap)
  {
    var renewed := ExpireStale(s, snap).0;
    assert PushedCommits(renewed, snap) == PushedCommits(s, snap);
  }

  /** A decision touches the merge fields, the review mark, the once record and the no-progress streak only. */
  lemma DecideFrame(cfg: Config, s: State, snap: Snapshot, cs: Changeset, input: TickInput)
    ensures var v := Decide(cfg, s, snap, cs, input);
            && v.state == s.(mergeAttempts := v.state.mergeAttempts, lastMergeError := v.state.lastMergeError,
                             selfReviewed := v.state.selfReviewed, onceRoundsDone := v.state.onceRoundsDone,
                             invocationsSinceRound := v.state.invocationsSinceRound)
            && v.state.mergeAttempts == s.mergeAttempts + (if v.attempted then 1 else 0)
            && s.onceRoundsDone <= v.state.onceRoundsDone
            && (!v.attempted ==> v.state.lastMergeError == s.lastMergeError)
            && (!v.invoked ==> v.state.selfReviewed == s.selfReviewed
                               && v.state.invocationsSinceRound == s.invocationsSinceRound)
  {
    hide InvokePolish, AttemptMerge, Ratcheting, Diverging, NeedsSelfReview;
  }

  /** What a failed agent round can be reported as. */
  lemma AgentFailureActions(stage: string, e: PolishRounds.AgentError)
    ensures AgentFailure(stage, e).action in {Failed, Stalled, Transient}
  {
  }

  /**
    A merge attempt never ends the run except by landing the PR. The two arms that would hand a failed merge to a
    human cannot be reached: an unreviewed PR is not mergeable, and a notify policy is caught before the attempt.
   */
  lemma AttemptActions(cfg: Config, s: State, snap: Snapshot, prev: State, input: TickInput)
    ensures var v := Decide(cfg, s, snap, Diff(prev, snap), input);
            v.attempted ==> !v.invoked && v.report.action in {Merged, Armed, Failed, Reworked, Stalled, Transient}
  {
    hide PolishRounds.PolishCall, AgentFailure, FailedPolish, Ratcheting, Diverging, NeedsSelfReview, UnseenComments,
        UnseenRuns;
    if input.rework.Some? {
      AgentFailureActions("merge rework", input.rework.value);
    }
  }

  /** A tick that called the polisher ended in one of five ways; only that call yields polished. */
  lemma InvokeActions(cfg: Config, s: State, snap: Snapshot, cs: Changeset, input: TickInput)
    ensures var v := Decide(cfg, s, snap, cs, input);
            && (v.invoked ==> v.report.action in {Polished, Failed, Stalled, Transient, NeedsHuman})
            && (v.report.action == Polished ==> v.invoked)
            && (v.invoked ==> !Ratcheting(cfg, s, snap, cs) && !Diverging(cfg, s, snap) && !cfg.dryRun)
            && (v.invoked && v.report.action == NeedsHuman ==> v.stalled)
            && (v.report.action == DryRun ==> cfg.dryRun)
            && (!v.invoked ==> v.completed == [])
  {
    hide PolishRounds.PolishCall, AgentFailure, Ratcheting, Diverging, NeedsSelfReview, MergeResult, Classify;
    if input.rework.Some? {
      AgentFailureActions("merge rework", input.rework.value);
    }
    var res := PolishRounds.PolishCall(cfg.polishSpec, s.onceRoundsDone, input.polish);
    if res.err.Some? {
      AgentFailureActions("polish", res.err.value);
    }
  }

  /** Recording touches what the tick saw, the action, the failure streak, the cooldown and the check time only. */
  lemma RecordFrame(cfg: Config, s: State, snap: Snapshot, rep: Report, prior: bool, clock: Clock)
    ensures var r := RecordSnapshot(cfg, s, snap, rep, prior, clock).0;
            && r == s.(lastCheckAt := r.lastCheckAt, lastSeenHead := r.lastSeenHead, lastSeenBase := r.lastSeenBase,
                       lastSeenCommitCount := r.lastSeenCommitCount, seenComments := r.seenComments,
                           seenRuns := r.seenRuns,
                       lastAction := r.lastAction, consecutiveFailures := r.consecutiveFailures,
                       cooldownUntil := r.cooldownUntil, cooldownFromAttempt := r.cooldownFromAttempt,
                       lastCooldownCause := r.lastCooldownCause)
            && (rep.action != DryRun ==> r.lastAction == rep.action && r.lastSeenHead == snap.head)
  {
    hide Observe, CountStreak, ApplyBrake, Stamp;
  }

  /** The cooldown fields after recording, in terms of the two arms that can open a window. */
  lemma RecordCooldown(cfg: Config, s: State, snap: Snapshot, rep: Report, prior: bool, clock: Clock)
    requires rep.action != DryRun
    ensures var r := RecordSnapshot(cfg, s, snap, rep, prior, clock).0;
            var streakArmed := CountStreak(cfg, s, rep, clock.streak).2;
            var counted := CountStreak(cfg, s, rep, clock.streak).0;
            var braked := !streakArmed && !EndsTheRun(rep.action) && MergeBrakeTripped(cfg, counted, clock.check);
            && r.consecutiveFailures == counted.consecutiveFailures
            && r.cooldownUntil == (if braked then Some(clock.brake + cfg.cooldown) else counted.cooldownUntil)
            && r.cooldownFromAttempt == (if braked then s.mergeAttempts else s.cooldownFromAttempt)
            && r.lastCooldownCause ==
                 (if braked then AttemptsWithoutLanding(s.mergeAttempts, s.lastMergeError)
                     else counted.lastCooldownCause)
  {
    hide Observe, CountStreak, MergeBrakeTripped, EndsTheRun;
    var acted := Observe(s, snap).0.(lastAction := rep.action);
    StreakDependsOn(cfg, acted, s, rep, clock.streak);
    BrakeDependsOn(cfg, CountStreak(cfg, acted, rep, clock.streak).0, CountStreak(cfg, s, rep, clock.streak).0,
        clock.check);
  }

  /** The failure-streak arm looks at the streak, the window and the merge error only. */
  lemma StreakDependsOn(cfg: Config, a: State, b: State, rep: Report, now: int)
    requires a.lastMergeError == b.lastMergeError && a.consecutiveFailures == b.consecutiveFailures
    requires a.cooldownUntil == b.cooldownUntil && a.lastCooldownCause == b.lastCooldownCause
    ensures var (x, y) := (CountStreak(cfg, a, rep, now), CountStreak(cfg, b, rep, now));
            && x.0.consecutiveFailures == y.0.consecutiveFailures && x.0.cooldownUntil == y.0.cooldownUntil
            && x.0.lastCooldownCause == y.0.lastCooldownCause && x.2 == y.2
  {
    CauseDependsOn(a.(consecutiveFailures := a.consecutiveFailures + 1),
        b.(consecutiveFailures := b.consecutiveFailures + 1), rep);
    hide CooldownCause;
  }

  lemma CauseDependsOn(a: State, b: State, rep: Report)
    requires a.lastMergeError == b.lastMergeError
    ensures CooldownCause(a, rep) == CooldownCause(b, rep)
  {
  }

  lemma BrakeDependsOn(cfg: Config, a: State, b: State, now: int)
    requires a.cooldownUntil == b.cooldownUntil && a.mergeAttempts == b.mergeAttempts
        && a.cooldownFromAttempt == b.cooldownFromAttempt
    ensures MergeBrakeTripped(cfg, a, now) == MergeBrakeTripped(cfg, b, now)
  {
  }

  /** The seen lists after recording. */
  lemma RecordSeen(cfg: Config, s: State, snap: Snapshot, rep: Report, prior: bool, clock: Clock)
    requires rep.action != DryRun
    ensures var r := RecordSnapshot(cfg, s, snap, rep, prior, clock).0;
            && r.seenComments == SeenSet.MergeCapped(SeenSet.StringLess, s.seenComments, snap.CommentIds()).0
            && r.seenRuns == SeenSet.MergeCapped(SeenSet.IntLess, s.seenRuns, snap.failedRuns).0
            && r.lastSeenBase == (if snap.base != "" then snap.base else s.lastSeenBase)
            && r.lastSeenCommitCount == (if snap.CommitCount() > 0 then snap.CommitCount() else s.lastSeenCommitCount)
  {
    hide SeenSet.MergeCapped, CooldownCause, MergeBrakeTripped;
  }

  lemma MergedStaysCapped<T(!new)>(lt: (T, T) -> bool, existing: seq<T>, incoming: seq<T>)
    requires SeenSet.StrictTotal(lt) && SeenSet.StrictlySorted(lt, existing) && |existing| <= SeenSet.MAX_SEEN_IDS
    ensures SeenSet.StrictlySorted(lt, SeenSet.MergeCapped(lt, existing, incoming).0)
    ensures |SeenSet.MergeCapped(lt, existing, incoming).0| <= SeenSet.MAX_SEEN_IDS
  {
    SeenSet.MergeCappedIsTop(lt, existing, incoming);
  }

  lemma DryRunRecordsNothing(cfg: Config, s: State, snap: Snapshot, rep: Report, prior: bool, clock: Clock)
    ensures rep.action == DryRun ==> RecordSnapshot(cfg, s, snap, rep, prior, clock) == (s, false)
  {
  }

  /** The record a tick decided on, before its action. */
  function Scored(s: State, snap: Snapshot): State {
    Account(s, snap).0
  }

  /** What one completed tick does to each group of fields. */
  lemma TickShape(cfg: Config, s: State, input: TickInput)
    requires Tick(cfg, s, input).kind == Ran
    ensures input.snap.Some? && !InCooldown(s, input.clock.start)
    ensures var snap := input.snap.value;
            var out := Tick(cfg, s, input);
            var v, m, scored := out.verdict, out.memory, Scored(s, snap);
            && v == Decide(cfg, scored, snap, Diff(s, snap), input)
            && out.disk == (if out.wrote then m else s)
            && m.mergeAttempts == s.mergeAttempts + (if v.attempted then 1 else 0)
            && m.onceRoundsDone == v.state.onceRoundsDone && s.onceRoundsDone <= m.onceRoundsDone
            && m.bestHealth == scored.bestHealth
            && m.roundsSinceImprovement == scored.roundsSinceImprovement
            && m.polishCommits == scored.polishCommits == s.polishCommits + PushedCommits(s, snap)
            && scored.selfReviewed == s.selfReviewed && scored.onceRoundsDone == s.onceRoundsDone
    ensures var out := Tick(cfg, s, input);
            if out.Action() == DryRun then !out.wrote
            else out.memory.lastAction == out.Action() && out.memory.lastSeenHead == input.snap.value.head
  {
    hide Account, Decide, RecordSnapshot, Diff, ActionDirty;
    var snap := input.snap.value;
    var scored := Account(s, snap).0;
    AccountFrame(s, snap);
    var v := Decide(cfg, scored, snap, Diff(s, snap), input);
    DecideFrame(cfg, scored, snap, Diff(s, snap), input);
    var prior := ActionDirty(scored, v.state) || Account(s, snap).1;
    RecordFrame(cfg, v.state, snap, v.report, prior, input.clock);
    DryRunRecordsNothing(cfg, v.state, snap, v.report, prior, input.clock);
  }

  /** Recording leaves alone what the decision did to the merge error, the review mark and the no-progress streak. */
  lemma TickKeepsVerdict(cfg: Config, s: State, input: TickInput)
    requires Tick(cfg, s, input).kind == Ran
    ensures var out, scored := Tick(cfg, s, input), Scored(s, input.snap.value);
            var v, m := out.verdict, out.memory;
            && m.lastMergeError == v.state.lastMergeError
            && m.selfReviewed == v.state.selfReviewed
            && m.invocationsSinceRound == v.state.invocationsSinceRound
            && m.polishRounds == scored.polishRounds && m.baselineAdditions == scored.baselineAdditions
            && (!v.attempted ==> m.lastMergeError == s.lastMergeError)
            && (!v.invoked ==> m.selfReviewed == s.selfReviewed
                               && m.invocationsSinceRound == scored.invocationsSinceRound)
  {
    hide Account, Decide, RecordSnapshot, Diff, ActionDirty;
    var snap := input.snap.value;
    var scored := Account(s, snap).0;
    AccountFrame(s, snap);
    var v := Decide(cfg, scored, snap, Diff(s, snap), input);
    DecideFrame(cfg, scored, snap, Diff(s, snap), input);
    RecordFrame(cfg, v.state, snap, v.report, ActionDirty(scored, v.state) || Account(s, snap).1, input.clock);
  }

  /** The failure streak and the cooldown window after a tick: both arms read the clock after the merge attempt. */
  lemma TickCooldown(cfg: Config, s: State, input: TickInput)
    requires Tick(cfg, s, input).kind == Ran && Tick(cfg, s, input).Action() != DryRun
    ensures var out := Tick(cfg, s, input);
            var v, m := out.verdict, out.memory;
            var (counted, _, streakArmed) := CountStreak(cfg, v.state, v.report, input.clock.streak);
            var braked := !streakArmed && !EndsTheRun(out.Action())
                && MergeBrakeTripped(cfg, counted, input.clock.check);
            && v.state.cooldownUntil == s.cooldownUntil && v.state.cooldownFromAttempt == s.cooldownFromAttempt
            && v.state.consecutiveFailures == s.consecutiveFailures
            && m.consecutiveFailures == counted.consecutiveFailures
            && v.state.lastCooldownCause == s.lastCooldownCause
            && v.state.mergeAttempts == m.mergeAttempts
            && m.cooldownUntil == (if braked then Some(input.clock.brake + cfg.cooldown) else counted.cooldownUntil)
            && m.cooldownFromAttempt == (if braked then m.mergeAttempts else s.cooldownFromAttempt)
            && m.lastCooldownCause ==
                 (if braked then AttemptsWithoutLanding(m.mergeAttempts, v.state.lastMergeError)
                     else counted.lastCooldownCause)
  {
    hide Account, Decide, RecordSnapshot, Diff, ActionDirty, CountStreak, MergeBrakeTripped;
    var snap := input.snap.value;
    var scored := Account(s, snap).0;
    AccountFrame(s, snap);
    var v := Decide(cfg, scored, snap, Diff(s, snap), input);
    DecideFrame(cfg, scored, snap, Diff(s, snap), input);
    var prior := ActionDirty(scored, v.state) || Account(s, snap).1;
    RecordFrame(cfg, v.state, snap, v.report, prior, input.clock);
    RecordCooldown(cfg, v.state, snap, v.report, prior, input.clock);
  }

  /** The seen lists after a tick. */
  lemma TickSeen(cfg: Config, s: State, input: TickInput)
    requires Tick(cfg, s, input).kind == Ran && Tick(cfg, s, input).Action() != DryRun
    ensures var snap, m := input.snap.value, Tick(cfg, s, input).memory;
            && m.seenComments == SeenSet.MergeCapped(SeenSet.StringLess, s.seenComments, snap.CommentIds()).0
            && m.seenRuns == SeenSet.MergeCapped(SeenSet.IntLess, s.seenRuns, snap.failedRuns).0
            && m.lastSeenBase == (if snap.base != "" then snap.base else s.lastSeenBase)
            && m.lastSeenCommitCount == (if snap.CommitCount() > 0 then snap.CommitCount() else s.lastSeenCommitCount)
            && m.lastSeenHead == snap.head
  {
    hide Account, Decide, RecordSnapshot, Diff, ActionDirty, SeenSet.MergeCapped;
    var snap := input.snap.value;
    var scored := Account(s, snap).0;
    AccountFrame(s, snap);
    var v := Decide(cfg, scored, snap, Diff(s, snap), input);
    DecideFrame(cfg, scored, snap, Diff(s, snap), input);
    var prior := ActionDirty(scored, v.state) || Account(s, snap).1;
    RecordFrame(cfg, v.state, snap, v.report, prior, input.clock);
    RecordSeen(cfg, v.state, snap, v.report, prior, input.clock);
  }

  /** A tick that saves stamps the record with its snapshot's time, and the first one always saves. */
  lemma TickStamps(cfg: Config, s: State, input: TickInput)
    requires Tick(cfg, s, input).kind == Ran && Tick(cfg, s, input).Action() != DryRun
    ensures var out := Tick(cfg, s, input);
            && out.memory.lastCheckAt == (if out.wrote then Some(input.snap.value.takenAt) else s.lastCheckAt)
            && (s.lastCheckAt == None ==> out.wrote)
  {
    hide Account, Decide, RecordSnapshot, Diff, ActionDirty;
    var snap := input.snap.value;
    var scored := Account(s, snap).0;
    AccountFrame(s, snap);
    var v := Decide(cfg, scored, snap, Diff(s, snap), input);
    DecideFrame(cfg, scored, snap, Diff(s, snap), input);
    RecordStamps(cfg, v.state, snap, v.report, ActionDirty(scored, v.state) || Account(s, snap).1, input.clock);
  }

  lemma RecordStamps(cfg: Config, s: State, snap: Snapshot, rep: Report, prior: bool, clock: Clock)
    requires rep.action != DryRun
    ensures var (r, wrote) := RecordSnapshot(cfg, s, snap, rep, prior, clock);
            && r.lastCheckAt == (if wrote then Some(snap.takenAt) else s.lastCheckAt)
            && (s.lastCheckAt == None || prior ==> wrote)
  {
    hide Observe, CountStreak, ApplyBrake;
  }

  /** A dry-run tick leaves the recorded fields of its memory alone too. */
  lemma TickDryRun(cfg: Config, s: State, input: TickInput)
    requires Tick(cfg, s, input).kind == Ran && Tick(cfg, s, input).Action() == DryRun
    ensures var out := Tick(cfg, s, input); out.disk == s
    ensures var m := Tick(cfg, s, input).memory;
            && m.seenComments == s.seenComments && m.seenRuns == s.seenRuns
            && m.cooldownUntil == s.cooldownUntil && m.cooldownFromAttempt == s.cooldownFromAttempt
            && m.lastCooldownCause == s.lastCooldownCause
  {
    hide Account, Decide, RecordSnapshot, Diff, ActionDirty;
    var snap := input.snap.value;
    var scored := Account(s, snap).0;
    AccountFrame(s, snap);
    var v := Decide(cfg, scored, snap, Diff(s, snap), input);
    DecideFrame(cfg, scored, snap, Diff(s, snap), input);
    DryRunRecordsNothing(cfg, v.state, snap, v.report, ActionDirty(scored, v.state) || Account(s, snap).1, input.clock);
  }

  lemma TickKeepsCooldownInv(cfg: Config, s: State, input: TickInput)
    requires CooldownInv(s) && Tick(cfg, s, input).kind == Ran
    ensures CooldownInv(Tick(cfg, s, input).memory)
  {
    hide Tick, Account, Decide, RecordSnapshot, Diff, CooldownCause, MergeBrakeTripped;
    TickShape(cfg, s, input);
    if Tick(cfg, s, input).Action() == DryRun {
      TickDryRun(cfg, s, input);
    } else {
      TickCooldown(cfg, s, input);
    }
  }

  lemma TickKeepsSeenInv(cfg: Config, s: State, input: TickInput)
    requires SeenInv(s) && Tick(cfg, s, input).kind == Ran
    ensures SeenInv(Tick(cfg, s, input).memory)
  {
    hide Tick, Account, Decide, Diff, SeenSet.MergeCapped, SeenSet.StrictlySorted;
    TickShape(cfg, s, input);
    if Tick(cfg, s, input).Action() == DryRun {
      TickDryRun(cfg, s, input);
    } else {
      TickSeen(cfg, s, input);
      SeenSet.OrdersAreTotal();
      MergedStaysCapped(SeenSet.StringLess, s.seenComments, input.snap.value.CommentIds());
      MergedStaysCapped(SeenSet.IntLess, s.seenRuns, input.snap.value.failedRuns);
    }
  }

  /** The run invariant survives every tick. */
  lemma TickKeepsInv(cfg: Config, s: State, input: TickInput)
    requires Inv(s)
    ensures Inv(Tick(cfg, s, input).disk) && Inv(Tick(cfg, s, input).memory)
  {
    hide Tick, CooldownInv, SeenInv;
    IdleTickKeepsAll(cfg, s, input);
    if Tick(cfg, s, input).kind == Ran {
      TickShape(cfg, s, input);
      TickKeepsCooldownInv(cfg, s, input);
      TickKeepsSeenInv(cfg, s, input);
    }
  }

  lemma IdleTickKeepsAll(cfg: Config, s: State, input: TickInput)
    ensures var out := Tick(cfg, s, input); out.kind != Ran ==> out.disk == s && out.memory == s
  {
    hide Account, Decide, RecordSnapshot, Diff, ActionDirty;
  }

  lemma {:induction false} ZeroHasInv()
    ensures Inv(ZERO)
  {
  }
}
