/** The prdozer watcher as it runs, updating the loaded record field by field (prdozer/watcher.go, prdozer/state.go). */
module Watcher {
  import opened Common
  import opened PrHealth
  import opened PrState
  import opened TickSpec
  import SeenSet
  import PolishRounds

  /** What a tick reports to the babysitting loop, apart from the snapshot and the diff. */
  datatype TickResult = TickResult(action: LastAction, diverged: bool, ratcheted: bool, stalled: bool,
      stallError: string)

  class Watcher {
    const cfg: Config
    var disk: State // the state file
    var state: State // the record this tick loaded and mutates
    var diverged: bool
    var ratcheted: bool
    var stalled: bool
    var lastStallError: string
    var lastStallStage: string
    var lastFailureError: string
    // Calls made to gh and to the polish runner over the watcher's life, and the rounds those calls completed.
    ghost var mergeCalls: nat
    ghost var polishCalls: nat
    ghost var completedRounds: seq<PolishRounds.RoundSpec>

    constructor (cfg: Config, disk: State)
      ensures this.cfg == cfg && this.disk == disk
      ensures mergeCalls == 0 && polishCalls == 0 && completedRounds == []
    {
      this.cfg := cfg;
      this.disk := disk;
      state := ZERO;
      diverged, ratcheted, stalled := false, false, false;
      lastStallError, lastStallStage, lastFailureError := "", "", "";
      mergeCalls, polishCalls, completedRounds := 0, 0, [];
    }

    /** The flags and counters after a decision agree with the verdict of the specification. */
    twostate predicate Reports(v: Verdict)
      reads this
    {
      && diverged == v.diverged && ratcheted == v.ratcheted && stalled == v.stalled
      && Texts() == v.report.(action := Init)
      && mergeCalls == old(mergeCalls) + (if v.attempted then 1 else 0)
      && polishCalls == old(polishCalls) + (if v.invoked then 1 else 0)
      && completedRounds == old(completedRounds) + v.completed
      && disk == old(disk)
    }

    function Texts(): Report
      reads this
    {
      Report(Init, lastStallError, lastStallStage, lastFailureError)
    }

    predicate FlagsClear()
      reads this
    {
      !diverged && !ratcheted && !stalled && Texts() == NO_REPORT
    }

    method ExpireStaleDivergence(snap: Snapshot) returns (dirty: bool)
      modifies this`state
      ensures (state, dirty) == ExpireStale(old(state), snap)
    {
      if state.roundsSinceImprovement == 0 && state.bestHealth == None && state.invocationsSinceRound == 0 {
        return false;
      }
      if state.lastAction != NeedsHuman {
        return false;
      }
      if state.lastSeenHead == "" || snap.head == "" || state.lastSeenHead == snap.head {
        return false;
      }
      state := state.(roundsSinceImprovement := 0);
      state := state.(bestHealth := None);
      state := state.(invocationsSinceRound := 0);
      return true;
    }

    method RecordPolishWork(snap: Snapshot, polished: bool) returns (dirty: bool)
      modifies this`state
      ensures (state, dirty) == RecordWork(old(state), snap, polished)
    {
      dirty := false;
      var n := PushedCommits(state, snap);
      if polished {
        state := state.(polishRounds := state.polishRounds + 1);
        dirty := true;
      }
      if n > 0 {
        state := state.(polishCommits := state.polishCommits + n);
        dirty := true;
      }
      if state.baselineAdditions == 0 && snap.additions > 0 {
        state := state.(baselineAdditions := snap.additions);
        dirty := true;
      }
    }

    method RecordHealth(snap: Snapshot) returns (dirty: bool)
      modifies this`state
      ensures (state, dirty) == TickSpec.RecordHealth(old(state), snap)
    {
      var polished := state.lastAction == Polished;
      var workDirty := RecordPolishWork(snap, polished);
      var h := snap.Health();
      if h == None {
        return workDirty;
      }
      if state.bestHealth == None || h.value.BetterThan(state.bestHealth.value) {
        state := state.(bestHealth := Some(h.value));
        state := state.(roundsSinceImprovement := 0);
        return true;
      }
      if polished {
        state := state.(roundsSinceImprovement := state.roundsSinceImprovement + 1);
      }
      return polished || workDirty;
    }

    /** One agent error, turned into the action it is reported as. */
    method ClassifyAgentFailure(stage: string, e: PolishRounds.AgentError) returns (action: Option<LastAction>)
      modifies this`lastStallError, this`lastStallStage
      ensures action == Classify(e)
      ensures action == Some(Stalled) ==> lastStallError == e.text && lastStallStage == stage
      ensures action != Some(Stalled) ==> lastStallError == old(lastStallError) && lastStallStage == old(lastStallStage)
    {
      match e
      case GraceForced(text) =>
        lastStallError, lastStallStage := text, stage;
        return Some(Stalled);
      case ProviderOutage(_) => return Some(Transient);
      case _ => return None;
    }

    method ReworkAfterFailedMerge(snap: Snapshot, rework: Option<PolishRounds.AgentError>) returns (action: LastAction)
      requires FlagsClear()
      modifies this`lastStallError, this`lastStallStage, this`lastFailureError
      ensures Texts().(action := action) == TickSpec.ReworkAfterFailedMerge(cfg, snap, rework)
    {
      if cfg.mergePolicy == PolicyNotify {
        return NeedsHuman;
      }
      if snap.review == ReviewRequired {
        return NeedsHuman;
      }
      if !cfg.hasRework {
        return Failed;
      }
      if rework.Some? {
        var classified := ClassifyAgentFailure("merge rework", rework.value);
        if classified.Some? {
          return classified.value;
        }
        lastFailureError := rework.value.text;
        return Failed;
      }
      return Reworked;
    }

    method AttemptMerge(snap: Snapshot, input: TickInput) returns (action: LastAction)
      requires FlagsClear()
      modifies this
      ensures var v := TickSpec.AttemptMerge(cfg, old(state), snap, input);
              state == v.state && action == v.report.action && Reports(v)
    {
      hide TickSpec.ReworkAfterFailedMerge, MergeResult;
      state := state.(mergeAttempts := state.mergeAttempts + 1);
      mergeCalls := mergeCalls + 1;
      match MergeResult(cfg.mergePolicy, input.merge)
      case MergeError(e) =>
        state := state.(lastMergeError := e);
        action := ReworkAfterFailedMerge(snap, input.rework);
      case QueueArmed =>
        state := state.(lastMergeError := "");
        action := Armed;
      case Landed =>
        state := state.(lastMergeError := "");
        action := Merged;
    }

    /** The error arm of the polish call: the no-progress streak and the stall guard. */
    method ChargeFailedPolish(progressed: bool, e: PolishRounds.AgentError) returns (action: LastAction)
      requires FlagsClear()
      modifies this`state, this`stalled, this`lastStallError, this`lastStallStage, this`lastFailureError
      ensures (state, Texts().(action := action), stalled) == FailedPolish(cfg, old(state), progressed, e)
    {
      var classified := ClassifyAgentFailure("polish", e);
      if progressed {
        state := state.(invocationsSinceRound := 0);
      } else if classified != Some(Transient) {
        state := state.(invocationsSinceRound := state.invocationsSinceRound + 1);
        var limit := 2 * cfg.maxConsecutiveFailures;
        if limit > 0 && state.invocationsSinceRound >= limit {
          stalled := true;
          lastStallError, lastStallStage := e.text, "polish";
          return NeedsHuman;
        }
      }
      if classified.Some? {
        return classified.value;
      }
      lastFailureError := e.text;
      return Failed;
    }

    method InvokePolish(snap: Snapshot, fault: PolishRounds.Fault) returns (action: LastAction)
      requires FlagsClear()
      modifies this
      ensures var v := TickSpec.InvokePolish(cfg, old(state), snap, fault);
              state == v.state && action == v.report.action && Reports(v)
    {
      hide PolishRounds.PolishCall, FailedPolish, AgentFailure, Classify;
      var res := CallPolisher(fault);
      if res.err.Some? {
        action := ChargeFailedPolish(|res.completed| > 0, res.err.value);
        return;
      }
      MarkPolished(snap);
      return Polished;
    }

    /** The call itself: what it finished once is recorded whether or not it failed. */
    method CallPolisher(fault: PolishRounds.Fault) returns (res: PolishRounds.PolishResult)
      modifies this`state, this`polishCalls, this`completedRounds
      ensures res == PolishRounds.PolishCall(cfg.polishSpec, old(state).onceRoundsDone, fault)
      ensures state == old(state).(onceRoundsDone := old(state).onceRoundsDone + res.ranOnce)
      ensures polishCalls == old(polishCalls) + 1 && completedRounds == old(completedRounds) + res.completed
    {
      res := PolishRounds.Polish(cfg.polishSpec, state.onceRoundsDone, fault);
      polishCalls := polishCalls + 1;
      completedRounds := completedRounds + res.completed;
      state := state.(onceRoundsDone := state.onceRoundsDone + res.ranOnce);
    }

    /** A polish that went through clears the no-progress streak and counts as a review of this head. */
    method MarkPolished(snap: Snapshot)
      modifies this`state
      ensures state == old(state).(
                invocationsSinceRound := 0,
                selfReviewed := if cfg.selfReview && snap.head != "" then snap.head else old(state).selfReviewed)
    {
      state := state.(invocationsSinceRound := 0);
      if cfg.selfReview && snap.head != "" {
        state := state.(selfReviewed := snap.head);
      }
    }

    method DecideAndAct(snap: Snapshot, cs: Changeset, input: TickInput) returns (action: LastAction)
      requires FlagsClear()
      modifies this
      ensures var v := Decide(cfg, old(state), snap, cs, input);
              state == v.state && action == v.report.action && Reports(v)
    {
      var ready := cs.mergeable && !cs.NeedsPolish() && !NeedsSelfReview(cfg, state, snap);
      if cs.prClosed {
        return if snap.status == MergedPR then Merged else Closed;
      }
      if ready && cfg.autoMerge && cfg.mergePolicy == PolicyNotify {
        return NeedsHuman;
      }
      if ready && cfg.autoMerge && !cfg.dryRun {
        action := AttemptMerge(snap, input);
        return;
      }
      if ready {
        return Idle;
      }
      if cs.needsReview {
        return NeedsHuman;
      }
      if !cs.NeedsPolish() && !NeedsSelfReview(cfg, state, snap) {
        return Idle;
      }
      if Ratcheting(cfg, state, snap, cs) {
        ratcheted := true;
        return NeedsHuman;
      }
      if Diverging(cfg, state, snap) {
        diverged := true;
        return NeedsHuman;
      }
      if cfg.dryRun {
        return DryRun;
      }
      if !cfg.hasPolishRunner {
        return Idle;
      }
      action := InvokePolish(snap, input.polish);
    }

    method MergeSeenComments(ids: seq<string>) returns (changed: bool)
      modifies this`state
      ensures (state.seenComments, changed) == SeenSet.MergeCapped(SeenSet.StringLess, old(state.seenComments), ids)
      ensures state == old(state).(seenComments := state.seenComments)
    {
      SeenSet.OrdersAreTotal();
      var merged;
      merged, changed := SeenSet.MergeSortedCapped(SeenSet.StringLess, state.seenComments, ids);
      state := state.(seenComments := merged);
    }

    method MergeSeenRuns(ids: seq<int>) returns (changed: bool)
      modifies this`state
      ensures (state.seenRuns, changed) == SeenSet.MergeCapped(SeenSet.IntLess, old(state.seenRuns), ids)
      ensures state == old(state).(seenRuns := state.seenRuns)
    {
      SeenSet.OrdersAreTotal();
      var merged;
      merged, changed := SeenSet.MergeSortedCapped(SeenSet.IntLess, state.seenRuns, ids);
      state := state.(seenRuns := merged);
    }

    /** The first half of recordSnapshot: what this tick saw. */
    method ObserveSnapshot(snap: Snapshot) returns (dirty: bool)
      modifies this`state
      ensures (state, dirty) == Observe(old(state), snap)
    {
      dirty := false;
      if state.lastSeenHead != snap.head {
        state := state.(lastSeenHead := snap.head);
        dirty := true;
      }
      var n := snap.CommitCount();
      if n > 0 && state.lastSeenCommitCount != n {
        state := state.(lastSeenCommitCount := n);
        dirty := true;
      }
      if snap.base != "" && state.lastSeenBase != snap.base {
        state := state.(lastSeenBase := snap.base);
        dirty := true;
      }
      var ids := [];
      for i := 0 to |snap.comments|
        invariant ids == snap.CommentIds()[..i]
      {
        ids := ids + [snap.comments[i].id];
      }
      assert ids == snap.CommentIds();
      var newComments := MergeSeenComments(ids);
      if newComments {
        dirty := true;
      }
      var newRuns := MergeSeenRuns(snap.failedRuns);
      if newRuns {
        dirty := true;
      }
    }

    /** The failure-streak arm of recordSnapshot. */
    method UpdateStreak(rep: Report, now: int) returns (dirty: bool, streakArmed: bool)
      modifies this`state
      ensures (state, dirty, streakArmed) == CountStreak(cfg, old(state), rep, now)
    {
      dirty, streakArmed := false, false;
      match rep.action
      case Failed | Reworked | Stalled =>
        state := state.(consecutiveFailures := state.consecutiveFailures + 1);
        dirty := true;
        if cfg.maxConsecutiveFailures > 0 && state.consecutiveFailures >= cfg.maxConsecutiveFailures
            && cfg.cooldown > 0 {
          state := state.(lastCooldownCause := CooldownCause(state, rep));
          state := state.(cooldownUntil := Some(now + cfg.cooldown));
          streakArmed := true;
        }
      case Polished | Merged | Closed | Idle | Armed | NeedsHuman =>
        if state.consecutiveFailures != 0 || state.cooldownUntil.Some? {
          dirty := true;
        }
        state := state.(consecutiveFailures := 0);
        state := state.(cooldownUntil := None);
        state := state.(lastCooldownCause := NoCause);
      case _ =>
    }

    /** The merge-attempt brake of recordSnapshot. */
    method ApplyMergeBrake(action: LastAction, streakArmed: bool, clock: Clock) returns (dirty: bool)
      modifies this`state
      ensures (state, dirty) == ApplyBrake(cfg, old(state), action, streakArmed, clock)
    {
      dirty := false;
      if !streakArmed && !EndsTheRun(action) && MergeBrakeTripped(cfg, state, clock.check) {
        state := state.(cooldownUntil := Some(clock.brake + cfg.cooldown));
        state := state.(cooldownFromAttempt := state.mergeAttempts);
        state := state.(lastCooldownCause := AttemptsWithoutLanding(state.mergeAttempts, state.lastMergeError));
        dirty := true;
      }
    }

    method RecordSnapshot(snap: Snapshot, rep: Report, priorDirty: bool, clock: Clock) returns (dirty: bool)
      modifies this`state
      ensures (state, dirty) == TickSpec.RecordSnapshot(cfg, old(state), snap, rep, priorDirty, clock)
    {
      if rep.action == DryRun {
        return false;
      }
      hide Observe, CountStreak, ApplyBrake;
      dirty := state.lastCheckAt == None || priorDirty;
      var seenDirty := ObserveSnapshot(snap);
      dirty := dirty || seenDirty;
      if state.lastAction != rep.action {
        state := state.(lastAction := rep.action);
        dirty := true;
      }
      var countDirty, streakArmed := UpdateStreak(rep, clock.streak);
      dirty := dirty || countDirty;
      var brakeDirty := ApplyMergeBrake(rep.action, streakArmed, clock);
      dirty := dirty || brakeDirty;
      if dirty {
        state := state.(lastCheckAt := Some(snap.takenAt));
      }
    }

    /** One tick. None stands for a snapshot error; the state file is then left alone. */
    method Tick(input: TickInput) returns (res: Option<TickResult>)
      modifies this
      ensures var out := TickSpec.Tick(cfg, old(disk), input);
              && disk == out.disk
              && (res == None <==> out.kind == SnapshotFailed)
              && (res.Some? ==> res.value.action == out.Action())
              && (out.kind == Ran ==>
                    res.value == TickResult(out.Action(), out.verdict.diverged, out.verdict.ratcheted,
                                            out.verdict.stalled, out.verdict.report.stallError))
              && mergeCalls == old(mergeCalls) + (if out.verdict.attempted then 1 else 0)
              && polishCalls == old(polishCalls) + (if out.verdict.invoked then 1 else 0)
              && completedRounds == old(completedRounds) + out.verdict.completed
    {
      hide React;
      state := disk;
      if InCooldown(state, input.clock.start) {
        return Some(TickResult(Idle, false, false, false, ""));
      }
      if input.snap == None {
        return None;
      }
      var result := ReactTo(input.snap.value, input);
      return Some(result);
    }

    method ResetFlags()
      modifies this`diverged, this`ratcheted, this`stalled, this`lastStallError, this`lastStallStage,
          this`lastFailureError
      ensures FlagsClear()
    {
      diverged, ratcheted := false, false;
      stalled, lastStallError, lastStallStage := false, "", "";
      lastFailureError := "";
    }

    /** Retire a stale verdict, then score this snapshot. */
    method AccountFor(snap: Snapshot) returns (dirty: bool)
      modifies this`state
      ensures (state, dirty) == Account(old(state), snap)
    {
      hide ExpireStale, TickSpec.RecordHealth;
      var expired := ExpireStaleDivergence(snap);
      var healthDirty := RecordHealth(snap);
      dirty := expired || healthDirty;
    }

    /** The rest of Tick, once the snapshot is there. */
    method ReactTo(snap: Snapshot, input: TickInput) returns (res: TickResult)
      requires state == disk
      modifies this
      ensures var out := React(cfg, old(disk), snap, input);
              && disk == out.disk && out.kind == Ran
              && res == TickResult(out.Action(), out.verdict.diverged, out.verdict.ratcheted,
                                   out.verdict.stalled, out.verdict.report.stallError)
              && mergeCalls == old(mergeCalls) + (if out.verdict.attempted then 1 else 0)
              && polishCalls == old(polishCalls) + (if out.verdict.invoked then 1 else 0)
              && completedRounds == old(completedRounds) + out.verdict.completed
    {
      hide Decide, Diff, TickSpec.RecordSnapshot, Account, ActionDirty;
      var cs := ComputeChangeset(state, snap);
      var healthDirty := AccountFor(snap);
      ResetFlags();
      var before := state;
      var action := DecideAndAct(snap, cs, input);
      var rep := Texts().(action := action);
      var wrote := RecordSnapshot(snap, rep, ActionDirty(before, state) || healthDirty, input.clock);
      if wrote {
        disk := state;
      }
      return TickResult(action, diverged, ratcheted, stalled, lastStallError);
    }
  }
}
