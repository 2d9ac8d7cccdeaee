/** One prdozer tick as a function of the stored record and what the outside world answers (prdozer/watcher.go). */
module TickSpec {
  import opened Common
  import opened PrHealth
  import opened PrState
  import SeenSet
  import PolishRounds

  datatype MergePolicy = PolicyQueue | PolicySquash | PolicyRebase | PolicyNotify | PolicyOther

  /** Non-positive limits and cooldowns switch a brake off, as in the source. */
  datatype Config = Config(
    autoMerge: bool,
    mergePolicy: MergePolicy,
    selfReview: bool,
    dryRun: bool,
    hasPolishRunner: bool,
    hasRework: bool,
    polishSpec: seq<PolishRounds.RoundSpec>,
    maxConsecutiveFailures: int,
    maxRoundsWithoutImprovement: int,
    maxPolishCommits: int,
    cooldown: int)

  /** The instants at which one tick reads the clock, in the order it reads them. */
  datatype Clock = Clock(start: int, attempt: int, streak: int, check: int, brake: int) {
    predicate Monotone() {
      start <= attempt <= streak <= check <= brake
    }
  }

  /** What gh answers to a merge: the command failed, the verification failed, or the merged bit. */
  datatype GhReply = CommandFailed(err: string) | VerifyFailed(err: string) | Verified(merged: bool)

  /** snap is None when the snapshot could not be taken; rework and polish say which agent round fails, if any. */
  datatype TickInput = TickInput(
    clock: Clock,
    snap: Option<Snapshot>,
    merge: GhReply,
    rework: Option<PolishRounds.AgentError>,
    polish: PolishRounds.Fault)

  // ----- guards -----

  predicate NeedsSelfReview(cfg: Config, s: State, snap: Snapshot) {
    cfg.selfReview && snap.head != "" && s.selfReviewed != snap.head
  }

  predicate Ratcheting(cfg: Config, s: State, snap: Snapshot, cs: Changeset) {
    var limit := cfg.maxPolishCommits;
    limit > 0 && s.polishCommits >= limit
    && !(s.polishCommits < 2 * limit && !cs.NeedsPolish() && NeedsSelfReview(cfg, s, snap))
  }

  predicate Diverging(cfg: Config, s: State, snap: Snapshot) {
    var limit := cfg.maxRoundsWithoutImprovement;
    limit > 0 && s.bestHealth.Some? && snap.Health().Some? && s.roundsSinceImprovement >= limit
    && !(s.roundsSinceImprovement < 2 * limit && (s.bestHealth.value.Saturated() || NeedsSelfReview(cfg, s, snap)))
  }

  predicate EndsTheRun(action: LastAction) {
    action == Merged || action == Closed || action == NeedsHuman
  }

  // ----- accounting before the decision -----

  /** Retire a verdict reached on another head by a run that has ended. */
  function ExpireStale(s: State, snap: Snapshot): (State, bool) {
    if s.roundsSinceImprovement == 0 && s.bestHealth == None && s.invocationsSinceRound == 0 then (s, false)
    else if s.lastAction != NeedsHuman then (s, false)
    else if s.lastSeenHead == "" || snap.head == "" || s.lastSeenHead == snap.head then (s, false)
    else (s.(roundsSinceImprovement := 0, bestHealth := None, invocationsSinceRound := 0), true)
  }

  function PushedCommits(s: State, snap: Snapshot): nat {
    if s.lastAction in {Init, Idle, Merged, Closed, Armed, NeedsHuman, DryRun} then 0
    else if s.lastSeenHead == "" || snap.head == "" || s.lastSeenHead == snap.head then 0
    else
      var now := snap.CommitCount();
      if now == 0 || s.lastSeenCommitCount == 0 || now <= s.lastSeenCommitCount then 1
      else now - s.lastSeenCommitCount
  }

  function RecordWork(s: State, snap: Snapshot, polished: bool): (State, bool) {
    var pushed := PushedCommits(s, snap);
    var baseline := s.baselineAdditions == 0 && snap.additions > 0;
    (s.(polishRounds := s.polishRounds + (if polished then 1 else 0),
        polishCommits := s.polishCommits + pushed,
        baselineAdditions := if baseline then snap.additions else s.baselineAdditions),
     polished || pushed > 0 || baseline)
  }

  function RecordHealth(s: State, snap: Snapshot): (State, bool) {
    var polished := s.lastAction == Polished;
    var (worked, workDirty) := RecordWork(s, snap, polished);
    match snap.Health()
    case None => (worked, workDirty)
    case Some(h) =>
      if worked.bestHealth == None || h.BetterThan(worked.bestHealth.value) then
        (worked.(bestHealth := Some(h), roundsSinceImprovement := 0), true)
      else
        (worked.(roundsSinceImprovement := worked.roundsSinceImprovement + (if polished then 1 else 0)),
         polished || workDirty)
  }

  // ----- the decision -----

  /** The action with the error texts a cooldown may quote: which stage stalled, or what failed. */
  datatype Report = Report(action: LastAction, stallError: string, stallStage: string, failureError: string)

  const NO_REPORT: Report := Report(Init, "", "", "")

  /** What a decision leaves behind: the record, the report, the watcher's flags, and what it called. */
  datatype Verdict = Verdict(
    state: State,
    report: Report,
    diverged: bool,
    ratcheted: bool,
    stalled: bool,
    attempted: bool,
    invoked: bool,
    completed: seq<PolishRounds.RoundSpec>)

  function Plain(s: State, action: LastAction): Verdict {
    Verdict(s, NO_REPORT.(action := action), false, false, false, false, false, [])
  }

  datatype MergeOutcome = MergeError(err: string) | Landed | QueueArmed

  function MergeResult(policy: MergePolicy, reply: GhReply): MergeOutcome {
    if policy == PolicyNotify || policy == PolicyOther then MergeError("merge policy does not merge")
    else match reply
      case CommandFailed(e) => MergeError(e)
      case VerifyFailed(e) => MergeError("verify merge: " + e)
      case Verified(true) => Landed
      case Verified(false) =>
        if policy == PolicyQueue then QueueArmed else MergeError("merge command succeeded but the PR is not merged")
  }

  /** The action an agent error is reported as, when it is one of the two transient kinds. */
  function Classify(e: PolishRounds.AgentError): Option<LastAction> {
    match e
    case ProviderOutage(_) => Some(Transient)
    case GraceForced(_) => Some(Stalled)
    case _ => None
  }

  /** A failed agent round: the stage is recorded only for a stall, the text only for a plain failure. */
  function AgentFailure(stage: string, e: PolishRounds.AgentError): Report {
    match Classify(e)
    case Some(Stalled) => Report(Stalled, e.text, stage, "")
    case Some(a) => NO_REPORT.(action := a)
    case None => Report(Failed, "", "", e.text)
  }

  function ReworkAfterFailedMerge(cfg: Config, snap: Snapshot, rework: Option<PolishRounds.AgentError>): Report {
    if cfg.mergePolicy == PolicyNotify || snap.review == ReviewRequired then NO_REPORT.(action := NeedsHuman)
    else if !cfg.hasRework then NO_REPORT.(action := Failed)
    else match rework
      case Some(e) => AgentFailure("merge rework", e)
      case None => NO_REPORT.(action := Reworked)
  }

  function AttemptMerge(cfg: Config, s: State, snap: Snapshot, input: TickInput): (v: Verdict)
    ensures v.state == s.(mergeAttempts := s.mergeAttempts + 1, lastMergeError := v.state.lastMergeError)
    ensures v.attempted && !v.invoked && v.completed == []
  {
    var tried := s.(mergeAttempts := s.mergeAttempts + 1);
    match MergeResult(cfg.mergePolicy, input.merge)
    case MergeError(e) =>
      Plain(tried.(lastMergeError := e), Init).(attempted := true,
          report := ReworkAfterFailedMerge(cfg, snap, input.rework))
    case QueueArmed => Plain(tried.(lastMergeError := ""), Armed).(attempted := true)
    case Landed => Plain(tried.(lastMergeError := ""), Merged).(attempted := true)
  }

  /** A polish call that failed: the no-progress streak, the report, and whether the stall guard ends the run. */
  function FailedPolish(cfg: Config, s: State, progressed: bool, e: PolishRounds.AgentError): (State, Report, bool) {
    var failed := AgentFailure("polish", e);
    if progressed then (s.(invocationsSinceRound := 0), failed, false)
    else if Classify(e) == Some(Transient) then (s, failed, false)
    else
      var charged := s.(invocationsSinceRound := s.invocationsSinceRound + 1);
      var limit := 2 * cfg.maxConsecutiveFailures;
      if limit > 0 && charged.invocationsSinceRound >= limit
          then (charged, Report(NeedsHuman, e.text, "polish", ""), true)
      else (charged, failed, false)
  }

  function InvokePolish(cfg: Config, s: State, snap: Snapshot, fault: PolishRounds.Fault): (v: Verdict)
    ensures v.state == s.(selfReviewed := v.state.selfReviewed, onceRoundsDone := v.state.onceRoundsDone,
                          invocationsSinceRound := v.state.invocationsSinceRound)
    ensures s.onceRoundsDone <= v.state.onceRoundsDone && !v.attempted && v.invoked
  {
    var res := PolishRounds.PolishCall(cfg.polishSpec, s.onceRoundsDone, fault);
    var kept := s.(onceRoundsDone := s.onceRoundsDone + res.ranOnce);
    var v := Plain(kept, Polished).(invoked := true, completed := res.completed);
    match res.err
    case None =>
      v.(state := kept.(
           invocationsSinceRound := 0,
           selfReviewed := if cfg.selfReview && snap.head != "" then snap.head else kept.selfReviewed))
    case Some(e) =>
      var (charged, report, stalled) := FailedPolish(cfg, kept, res.completed != [], e);
      v.(state := charged, report := report, stalled := stalled)
  }

  function Decide(cfg: Config, s: State, snap: Snapshot, cs: Changeset, input: TickInput): Verdict {
    var ready := cs.mergeable && !cs.NeedsPolish() && !NeedsSelfReview(cfg, s, snap);
    if cs.prClosed then Plain(s, if snap.status == MergedPR then Merged else Closed)
    else if ready && cfg.autoMerge && cfg.mergePolicy == PolicyNotify then Plain(s, NeedsHuman)
    else if ready && cfg.autoMerge && !cfg.dryRun then AttemptMerge(cfg, s, snap, input)
    else if ready then Plain(s, Idle)
    else if cs.needsReview then Plain(s, NeedsHuman)
    else if !cs.NeedsPolish() && !NeedsSelfReview(cfg, s, snap) then Plain(s, Idle)
    else if Ratcheting(cfg, s, snap, cs) then Plain(s, NeedsHuman).(ratcheted := true)
    else if Diverging(cfg, s, snap) then Plain(s, NeedsHuman).(diverged := true)
    else if cfg.dryRun then Plain(s, DryRun)
    else if !cfg.hasPolishRunner then Plain(s, Idle)
    else InvokePolish(cfg, s, snap, input.polish)
  }

  // ----- recording -----

  function CooldownCause(s: State, rep: Report): Cause {
    match rep.action
    case Stalled => if rep.stallError != "" then StalledRound(rep.stallStage, rep.stallError) else StalledUnknown
    case Reworked => if s.lastMergeError != "" then ReworkingAfter(s.lastMergeError) else RepeatedRework
    case _ =>
      if rep.failureError != "" then FailureText(rep.failureError)
      else if s.lastMergeError != "" then FailureText(s.lastMergeError)
      else NoCause
  }

  predicate InCooldown(s: State, now: int) {
    s.cooldownUntil.Some? && now < s.cooldownUntil.value
  }

  predicate MergeBrakeTripped(cfg: Config, s: State, now: int) {
    && cfg.maxConsecutiveFailures > 0
    && cfg.cooldown > 0
    && !InCooldown(s, now)
    && s.mergeAttempts - s.cooldownFromAttempt >= cfg.maxConsecutiveFailures
  }

  /** What the tick saw, folded into the record. */
  function Observe(s: State, snap: Snapshot): (r: (State, bool))
    ensures r.0 == s.(lastSeenHead := snap.head, lastSeenCommitCount := r.0.lastSeenCommitCount,
        lastSeenBase := r.0.lastSeenBase,
                      seenComments := r.0.seenComments, seenRuns := r.0.seenRuns)
  {
    var n := snap.CommitCount();
    var (comments, newComment) := SeenSet.MergeCapped(SeenSet.StringLess, s.seenComments, snap.CommentIds());
    var (runs, newRun) := SeenSet.MergeCapped(SeenSet.IntLess, s.seenRuns, snap.failedRuns);
    (s.(lastSeenHead := snap.head,
        lastSeenCommitCount := if n > 0 then n else s.lastSeenCommitCount,
        lastSeenBase := if snap.base != "" then snap.base else s.lastSeenBase,
        seenComments := comments,
        seenRuns := runs),
     || s.lastSeenHead != snap.head
     || (n > 0 && s.lastSeenCommitCount != n)
     || (snap.base != "" && s.lastSeenBase != snap.base)
     || newComment || newRun)
  }

  /** The failure-streak arm: the new record, whether it changed, and whether it opened a cooldown. */
  function CountStreak(cfg: Config, s: State, rep: Report, now: int): (r: (State, bool, bool))
    ensures r.0 == s.(consecutiveFailures := r.0.consecutiveFailures, cooldownUntil := r.0.cooldownUntil,
                      lastCooldownCause := r.0.lastCooldownCause)
  {
    match rep.action
    case Failed | Reworked | Stalled =>
      var counted := s.(consecutiveFailures := s.consecutiveFailures + 1);
      if cfg.maxConsecutiveFailures > 0 && counted.consecutiveFailures >= cfg.maxConsecutiveFailures
          && cfg.cooldown > 0 then
        (counted.(cooldownUntil := Some(now + cfg.cooldown), lastCooldownCause := CooldownCause(counted, rep)), true,
            true)
      else (counted, true, false)
    case Polished | Merged | Closed | Idle | Armed | NeedsHuman =>
      (s.(consecutiveFailures := 0, cooldownUntil := None, lastCooldownCause := NoCause),
       s.consecutiveFailures != 0 || s.cooldownUntil.Some?, false)
    case _ => (s, false, false)
  }

  function ApplyBrake(cfg: Config, s: State, action: LastAction, streakArmed: bool, clock: Clock): (r: (State, bool))
    ensures r.0 == s.(cooldownUntil := r.0.cooldownUntil, cooldownFromAttempt := r.0.cooldownFromAttempt,
                      lastCooldownCause := r.0.lastCooldownCause)
  {
    if !streakArmed && !EndsTheRun(action) && MergeBrakeTripped(cfg, s, clock.check) then
      (s.(cooldownUntil := Some(clock.brake + cfg.cooldown),
          cooldownFromAttempt := s.mergeAttempts,
          lastCooldownCause := AttemptsWithoutLanding(s.mergeAttempts, s.lastMergeError)), true)
    else (s, false)
  }

  function Stamp(s: State, dirty: bool, takenAt: int): (r: State)
    ensures r == s.(lastCheckAt := r.lastCheckAt)
  {
    if dirty then s.(lastCheckAt := Some(takenAt)) else s
  }

  function RecordSnapshot(cfg: Config, s: State, snap: Snapshot, rep: Report, priorDirty: bool, clock: Clock): (State,
      bool) {
    if rep.action == DryRun then (s, false)
    else
      var (seen, seenDirty) := Observe(s, snap);
      var acted := seen.(lastAction := rep.action);
      var (counted, countDirty, streakArmed) := CountStreak(cfg, acted, rep, clock.streak);
      var (braked, brakeDirty) := ApplyBrake(cfg, counted, rep.action, streakArmed, clock);
      var dirty := s.lastCheckAt == None || priorDirty || seenDirty || seen.lastAction != rep.action || countDirty
          || brakeDirty;
      (Stamp(braked, dirty, snap.takenAt), dirty)
  }

  // ----- the tick -----

  datatype Kind = Skipped | SnapshotFailed | Ran

  /** disk is what the next tick loads, memory what this tick held at the end; wrote says whether it saved. */
  datatype TickOut = TickOut(disk: State, kind: Kind, verdict: Verdict, memory: State, wrote: bool) {
    function Action(): LastAction {
      verdict.report.action
    }
  }

  /** decideAndAct touched something that has to be saved. */
  predicate ActionDirty(before: State, after: State) {
    || after.mergeAttempts != before.mergeAttempts
    || after.lastMergeError != before.lastMergeError
    || after.selfReviewed != before.selfReviewed
    || |after.onceRoundsDone| != |before.onceRoundsDone|
    || after.invocationsSinceRound != before.invocationsSinceRound
  }

  function Account(s: State, snap: Snapshot): (State, bool) {
    var (renewed, expired) := ExpireStale(s, snap);
    var (scored, healthDirty) := RecordHealth(renewed, snap);
    (scored, expired || healthDirty)
  }

  /** A tick that got its snapshot. */
  function React(cfg: Config, s: State, snap: Snapshot, input: TickInput): TickOut {
    var (scored, accountDirty) := Account(s, snap);
    var v := Decide(cfg, scored, snap, Diff(s, snap), input);
    var (recorded, wrote) :=
      RecordSnapshot(cfg, v.state, snap, v.report, ActionDirty(scored, v.state) || accountDirty, input.clock);
    TickOut(if wrote then recorded else s, Ran, v, recorded, wrote)
  }

  function Tick(cfg: Config, s: State, input: TickInput): TickOut {
    if InCooldown(s, input.clock.start) then TickOut(s, Skipped, Plain(s, Idle), s, false)
    else match input.snap
      case None => TickOut(s, SnapshotFailed, Plain(s, Init), s, false)
      case Some(snap) => React(cfg, s, snap, input)
  }
}
