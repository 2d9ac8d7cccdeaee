/**
  When a tick merges, polishes, stops or rests, in terms of the record it loaded, the snapshot and the configuration
  (prdozer/watcher.go, prdozer/changeset.go).
 */
module Decisions {
  import opened Common
  import opened PrHealth
  import opened PrState
  import opened TickSpec
  import opened TickFacts
  import opened PolishRounds
  import opened Accounting

  /** The tick is not resting in a cooldown, and gets its snapshot. */
  predicate Looks(s: State, input: TickInput) {
    input.snap.Some? && !(s.cooldownUntil.Some? && input.clock.start < s.cooldownUntil.value)
  }

  /** An event since the last recorded tick: a comment by somebody else, a failed run, or another base. */
  predicate Event(s: State, snap: Snapshot) {
    s.lastCheckAt.Some? &&
    (|| (exists c :: c in snap.comments && !c.isSelf && c.id !in s.seenComments)
     || (exists r :: r in snap.failedRuns && r !in s.seenRuns)
     || (snap.base != "" && snap.base != s.lastSeenBase))
  }

  /** There is something for the polisher to do. */
  predicate Work(s: State, snap: Snapshot) {
    || Event(s, snap)
    || snap.review == ChangesWanted
    || snap.rollup == RollupFailure
    || snap.mergeable == HasConflicts
  }

  predicate Unreviewed(cfg: Config, s: State, snap: Snapshot) {
    cfg.selfReview && snap.head != "" && snap.head != s.selfReviewed
  }

  predicate Landable(cfg: Config, s: State, snap: Snapshot) {
    && snap.rollup == RollupSuccess && snap.mergeable == CanMerge
    && (snap.review == Approved || snap.review == NoDecision)
    && !Work(s, snap) && !Unreviewed(cfg, s, snap)
  }

  /** Only a human's approval is missing. A first look never concludes this. */
  predicate AwaitsApproval(s: State, snap: Snapshot) {
    && s.lastCheckAt.Some? && snap.rollup == RollupSuccess && snap.mergeable == CanMerge
    && snap.review == ReviewRequired && !Work(s, snap)
  }

  /** The scope brake at so many charged commits: at the limit with work to do, at twice the limit in any case. */
  predicate ScopeSpent(cfg: Config, s: State, snap: Snapshot, commits: nat) {
    var limit := cfg.maxPolishCommits;
    limit > 0 && (commits >= 2 * limit || (commits >= limit && Work(s, snap)))
  }

  /** The divergence guard: the limit doubles while nothing could be better or the head is unreviewed. */
  predicate Stagnant(cfg: Config, s: State, snap: Snapshot, best: Option<PRHealth>, rounds: nat) {
    var limit := cfg.maxRoundsWithoutImprovement;
    && limit > 0 && snap.unresolved >= 0 && best.Some?
    && rounds >= if best.value == PRHealth(0, false) || Unreviewed(cfg, s, snap) then 2 * limit else limit
  }

  predicate Stops(cfg: Config, s: State, snap: Snapshot, m: State) {
    ScopeSpent(cfg, s, snap, m.polishCommits) || Stagnant(cfg, s, snap, m.bestHealth, m.roundsSinceImprovement)
  }

  /** An open PR is neither awaiting approval nor at rest. */
  predicate Wanting(cfg: Config, s: State, snap: Snapshot) {
    snap.status == Open && !AwaitsApproval(s, snap) && (Work(s, snap) || Unreviewed(cfg, s, snap))
  }

  /** The tick tries to merge. */
  predicate Merges(cfg: Config, s: State, snap: Snapshot) {
    && snap.status == Open && Landable(cfg, s, snap)
    && cfg.autoMerge && cfg.mergePolicy != PolicyNotify && !cfg.dryRun
  }

  /** The tick calls the polisher; m holds what it counted before deciding. */
  predicate Polishes(cfg: Config, s: State, snap: Snapshot, m: State) {
    Wanting(cfg, s, snap) && !Stops(cfg, s, snap, m) && !cfg.dryRun && cfg.hasPolishRunner
  }

  /** What a tick that calls nobody reports. */
  function Rests(cfg: Config, s: State, snap: Snapshot, m: State): LastAction {
    if snap.status == MergedPR then Merged
    else if snap.status == ClosedPR then Closed
    else if Wanting(cfg, s, snap) then
      if Stops(cfg, s, snap, m) then NeedsHuman else if cfg.dryRun then DryRun else Idle
    else if AwaitsApproval(s, snap) || (Landable(cfg, s, snap) && cfg.autoMerge && cfg.mergePolicy == PolicyNotify)
    then NeedsHuman
    else Idle
  }

  // ----- from the diff to the raw conditions -----

  lemma SomethingUnseen(s: State, snap: Snapshot)
    ensures UnseenComments(snap.comments, s.seenComments) != [] <==>
              exists c :: c in snap.comments && !c.isSelf && c.id !in s.seenComments
    ensures UnseenRuns(snap.failedRuns, s.seenRuns) != [] <==> exists r :: r in snap.failedRuns && r !in s.seenRuns
  {
    var ids, runs := UnseenComments(snap.comments, s.seenComments), UnseenRuns(snap.failedRuns, s.seenRuns);
    if ids != [] {
      UnseenCommentsMeaning(snap.comments, s.seenComments, ids[0]);
    }
    if c :| c in snap.comments && !c.isSelf && c.id !in s.seenComments {
      UnseenCommentsMeaning(snap.comments, s.seenComments, c.id);
    }
    if runs != [] {
      UnseenRunsMeaning(snap.failedRuns, s.seenRuns, runs[0]);
    }
    if r :| r in snap.failedRuns && r !in s.seenRuns {
      UnseenRunsMeaning(snap.failedRuns, s.seenRuns, r);
    }
  }

  lemma DiffMeaning(s: State, snap: Snapshot)
    ensures var cs := Diff(s, snap);
            && (cs.prClosed <==> snap.status != Open)
            && (snap.status == Open ==>
                  && (cs.NeedsPolish() <==> Work(s, snap))
                  && (cs.mergeable && !cs.NeedsPolish() <==>
                        && snap.rollup == RollupSuccess && snap.mergeable == CanMerge
                        && (snap.review == Approved || snap.review == NoDecision) && !Work(s, snap))
                  && (cs.needsReview <==> AwaitsApproval(s, snap)))
  {
    hide UnseenComments, UnseenRuns;
    SomethingUnseen(s, snap);
  }

  /** The calls a decision on the scored record makes. */
  lemma DecideCalls(cfg: Config, s: State, scored: State, snap: Snapshot, input: TickInput)
    requires scored.selfReviewed == s.selfReviewed
    ensures var v := Decide(cfg, scored, snap, Diff(s, snap), input);
            && (v.attempted <==> Merges(cfg, s, snap))
            && (v.invoked <==> Polishes(cfg, s, snap, scored))
            && (v.attempted ==> v == AttemptMerge(cfg, scored, snap, input))
            && (v.invoked ==> v == InvokePolish(cfg, scored, snap, input.polish))
  {
    DiffMeaning(s, snap);
    hide Diff, Changeset.NeedsPolish, Work, AttemptMerge, InvokePolish;
  }

  /** Its flags, and what it reports when it calls nobody. */
  lemma DecideRests(cfg: Config, s: State, scored: State, snap: Snapshot, input: TickInput)
    requires scored.selfReviewed == s.selfReviewed
    ensures var v := Decide(cfg, scored, snap, Diff(s, snap), input);
            && (!v.attempted && !v.invoked ==>
                  v == Plain(scored, Rests(cfg, s, snap, scored)).(diverged := v.diverged, ratcheted := v.ratcheted))
            && (v.ratcheted <==> Wanting(cfg, s, snap) && ScopeSpent(cfg, s, snap, scored.polishCommits))
            && (v.diverged <==> Wanting(cfg, s, snap) && Stops(cfg, s, snap, scored) && !v.ratcheted)
  {
    DiffMeaning(s, snap);
    CallsRaiseNoFlag(cfg, scored, snap, input);
    hide Diff, Changeset.NeedsPolish, Work, AttemptMerge, InvokePolish;
  }

  lemma CallsRaiseNoFlag(cfg: Config, s: State, snap: Snapshot, input: TickInput)
    ensures var v := AttemptMerge(cfg, s, snap, input); !v.ratcheted && !v.diverged
    ensures var v := InvokePolish(cfg, s, snap, input.polish); !v.ratcheted && !v.diverged
  {
    hide PolishCall, FailedPolish;
  }

  // ----- whole ticks -----

  /**
    A tick tries to merge exactly when it got its snapshot, the PR is open, green, mergeable, approved or in need of no
    approval, nothing happened that calls for work, the head is reviewed if that is asked for, and the configuration
    lets it merge.
   */
  lemma TickMergesIff(cfg: Config, s: State, input: TickInput)
    ensures Tick(cfg, s, input).verdict.attempted <==> Looks(s, input) && Merges(cfg, s, input.snap.value)
  {
    hide Account, Decide, Diff, RecordSnapshot, ActionDirty, Merges;
    if Looks(s, input) {
      var snap := input.snap.value;
      AccountFrame(s, snap);
      DecideCalls(cfg, s, Account(s, snap).0, snap, input);
    }
  }

  /**
    It calls the polisher exactly when an open PR has work to do or an unreviewed head, is not merely awaiting approval,
    and neither brake stops it.
   */
  lemma TickPolishesIff(cfg: Config, s: State, input: TickInput)
    ensures var out := Tick(cfg, s, input);
            out.verdict.invoked <==> Looks(s, input) && Polishes(cfg, s, input.snap.value, out.memory)
  {
    LookingRuns(cfg, s, input);
    hide Tick, Account, Decide, Diff, Wanting;
    if Looks(s, input) {
      var snap := input.snap.value;
      TickShape(cfg, s, input);
      DecideCalls(cfg, s, Scored(s, snap), snap, input);
    }
  }

  /** A tick inside a cooldown reports idle and rests, whatever else happens; one without a snapshot is an error. */
  lemma LookingRuns(cfg: Config, s: State, input: TickInput)
    ensures var out := Tick(cfg, s, input);
            var resting := s.cooldownUntil.Some? && input.clock.start < s.cooldownUntil.value;
            && (Looks(s, input) <==> out.kind == Ran)
            && (resting <==> out.kind == Skipped) && (resting ==> out.Action() == Idle)
            && (out.kind != Ran ==> out.disk == s)
            && (out.kind != Ran ==> !out.verdict.attempted && !out.verdict.invoked && out.verdict.completed == [])
  {
    hide Account, Decide, Diff, RecordSnapshot, ActionDirty;
  }

  /** A tick that calls nobody reports why: the PR is closed, a human has to act, or there is nothing to do. */
  lemma TickRestsAs(cfg: Config, s: State, input: TickInput)
    requires Looks(s, input)
    ensures var out, snap := Tick(cfg, s, input), input.snap.value;
            && (!out.verdict.attempted && !out.verdict.invoked ==> out.Action() == Rests(cfg, s, snap, out.memory))
            && (out.verdict.ratcheted <==>
                  Wanting(cfg, s, snap) && ScopeSpent(cfg, s, snap, out.memory.polishCommits))
            && (out.verdict.diverged <==>
                  Wanting(cfg, s, snap) && Stops(cfg, s, snap, out.memory) && !out.verdict.ratcheted)
  {
    hide Tick, Account, Decide, Diff, Wanting, AwaitsApproval, Landable, Rests, ScopeSpent, Stagnant;
    LookingRuns(cfg, s, input);
    TickShape(cfg, s, input);
    var snap, out := input.snap.value, Tick(cfg, s, input);
    DecideRests(cfg, s, Scored(s, snap), snap, input);
    RestsDependsOn(cfg, s, snap, Scored(s, snap), out.memory);
  }

  /** What a resting tick reports depends on these three of its counters only. */
  lemma RestsDependsOn(cfg: Config, s: State, snap: Snapshot, a: State, b: State)
    requires a.polishCommits == b.polishCommits && a.bestHealth == b.bestHealth
    requires a.roundsSinceImprovement == b.roundsSinceImprovement
    ensures Rests(cfg, s, snap, a) == Rests(cfg, s, snap, b) && Stops(cfg, s, snap, a) == Stops(cfg, s, snap, b)
  {
    hide Wanting, AwaitsApproval, Landable;
  }

  predicate Lands(policy: MergePolicy, reply: GhReply) {
    policy in {PolicyQueue, PolicySquash, PolicyRebase} && reply == Verified(true)
  }

  /** Why a merge did not go through. */
  function Refusal(policy: MergePolicy, reply: GhReply): string {
    if policy == PolicyOther then "merge policy does not merge"
    else if reply.CommandFailed? then reply.err
    else if reply.VerifyFailed? then "verify merge: " + reply.err
    else "merge command succeeded but the PR is not merged"
  }

  /** What an agent's error is reported as. */
  function ErrorAction(e: AgentError): LastAction {
    if e.ProviderOutage? then Transient else if e.GraceForced? then Stalled else Failed
  }

  /** What a merge attempt comes to, from gh's answer and the rework round that follows a failure. */
  function MergeAction(cfg: Config, input: TickInput): LastAction {
    if Lands(cfg.mergePolicy, input.merge) then Merged
    else if cfg.mergePolicy == PolicyQueue && input.merge == Verified(false) then Armed
    else if !cfg.hasRework then Failed
    else if input.rework == None then Reworked
    else ErrorAction(input.rework.value)
  }

  /** The no-progress streak after a failed call: progress clears it, an outage leaves it. */
  function Charged(streak: nat, progressed: bool, e: AgentError): nat {
    if progressed then 0 else if e.ProviderOutage? then streak else streak + 1
  }

  predicate StallStops(cfg: Config, progressed: bool, e: AgentError, streak: nat) {
    !progressed && !e.ProviderOutage? && cfg.maxConsecutiveFailures > 0 && streak >= 2 * cfg.maxConsecutiveFailures
  }

  lemma AttemptReports(cfg: Config, s: State, input: TickInput)
    ensures var out := Tick(cfg, s, input);
            out.verdict.attempted ==>
              && out.Action() == MergeAction(cfg, input)
              && (out.Action() in {Merged, Armed} ==> out.memory.lastMergeError == "")
              && (out.Action() !in {Merged, Armed} ==>
                    out.memory.lastMergeError == Refusal(cfg.mergePolicy, input.merge))
  {
    LookingRuns(cfg, s, input);
    TickMergesIff(cfg, s, input);
    if Tick(cfg, s, input).verdict.attempted {
      var snap := input.snap.value;
      TickShape(cfg, s, input);
      TickKeepsVerdict(cfg, s, input);
      hide Tick, Account, Decide, Diff, Work, MergeAction, AttemptMerge;
      DecideCalls(cfg, s, Scored(s, snap), snap, input);
      AttemptMeaning(cfg, Scored(s, snap), snap, input);
    }
  }

  lemma ReworkMeaning(cfg: Config, snap: Snapshot, rework: Option<AgentError>)
    requires cfg.mergePolicy != PolicyNotify && snap.review != ReviewRequired
    ensures TickSpec.ReworkAfterFailedMerge(cfg, snap, rework).action ==
              if !cfg.hasRework then Failed else if rework == None then Reworked else ErrorAction(rework.value)
  {
  }

  /** The arms of a merge attempt, on any record. */
  lemma AttemptMeaning(cfg: Config, scored: State, snap: Snapshot, input: TickInput)
    requires cfg.mergePolicy != PolicyNotify && snap.review != ReviewRequired
    ensures var v := AttemptMerge(cfg, scored, snap, input);
            && v.report.action == MergeAction(cfg, input)
            && (v.report.action in {Merged, Armed} ==> v.state.lastMergeError == "")
            && (v.report.action !in {Merged, Armed} ==>
                  v.state.lastMergeError == Refusal(cfg.mergePolicy, input.merge))
  {
    hide TickSpec.ReworkAfterFailedMerge;
    ReworkMeaning(cfg, snap, input.rework);
  }

  /** What a failed polish call does to the no-progress streak, and when it ends the run. */
  lemma FailureMeaning(cfg: Config, s: State, progressed: bool, e: AgentError)
    ensures var (t, rep, stalled) := FailedPolish(cfg, s, progressed, e);
            && t == s.(invocationsSinceRound := Charged(s.invocationsSinceRound, progressed, e))
            && (stalled <==> StallStops(cfg, progressed, e, t.invocationsSinceRound))
            && rep.action == if stalled then NeedsHuman else ErrorAction(e)
  {
  }

  /** What a polish call leaves behind when it succeeds, and where its failure is charged. */
  lemma InvokeMeaning(cfg: Config, s: State, snap: Snapshot, fault: Fault)
    ensures var v, call := InvokePolish(cfg, s, snap, fault), PolishCall(cfg.polishSpec, s.onceRoundsDone, fault);
            var kept := s.(onceRoundsDone := s.onceRoundsDone + call.ranOnce);
            && v.completed == call.completed
            && match call.err
               case None =>
                 && v.report.action == Polished && !v.stalled
                 && v.state == kept.(
                      invocationsSinceRound := 0,
                      selfReviewed := if cfg.selfReview && snap.head != "" then snap.head else s.selfReviewed)
               case Some(e) =>
                 (v.state, v.report, v.stalled) == FailedPolish(cfg, kept, call.completed != [], e)
  {
    hide PolishCall, FailedPolish;
  }

  /** What a polish call is reported as, and what it leaves on the record. */
  lemma InvokeReports(cfg: Config, s: State, input: TickInput)
    ensures var out, call := Tick(cfg, s, input), PolishCall(cfg.polishSpec, s.onceRoundsDone, input.polish);
            var m := out.memory;
            out.verdict.invoked ==>
              && out.verdict.completed == call.completed
              && m.onceRoundsDone == s.onceRoundsDone + call.ranOnce
              && match call.err
                 case None =>
                   && out.Action() == Polished && !out.verdict.stalled && m.invocationsSinceRound == 0
                   && m.selfReviewed ==
                        if cfg.selfReview && input.snap.value.head != "" then input.snap.value.head else s.selfReviewed
                 case Some(e) =>
                   var progressed := call.completed != [];
                   && m.invocationsSinceRound ==
                        Charged(if Retires(s, input.snap.value) then 0 else s.invocationsSinceRound, progressed, e)
                   && (out.verdict.stalled <==> StallStops(cfg, progressed, e, m.invocationsSinceRound))
                   && out.Action() == (if out.verdict.stalled then NeedsHuman else ErrorAction(e))
                   && m.selfReviewed == s.selfReviewed
  {
    LookingRuns(cfg, s, input);
    TickPolishesIff(cfg, s, input);
    if Tick(cfg, s, input).verdict.invoked {
      var snap := input.snap.value;
      TickShape(cfg, s, input);
      TickKeepsVerdict(cfg, s, input);
      ScoreMeaning(s, snap);
      var scored := Scored(s, snap);
      hide Tick, Account, Decide, Diff, Polishes, PolishCall, InvokePolish, FailedPolish, Charged, StallStops;
      InvokeMeaning(cfg, scored, snap, input.polish);
      DecideCalls(cfg, s, scored, snap, input);
      var call := PolishCall(cfg.polishSpec, s.onceRoundsDone, input.polish);
      if call.err.Some? {
        FailureMeaning(cfg, scored.(onceRoundsDone := scored.onceRoundsDone + call.ranOnce), call.completed != [],
            call.err.value);
      }
    }
  }
}
