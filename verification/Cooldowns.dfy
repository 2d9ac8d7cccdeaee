/** The failure streak, the windows that it and the merge brake open, and resting in them (prdozer/watcher.go). */
module Cooldowns {
  import opened Common
  import opened PrState
  import opened TickSpec
  import opened TickFacts
  import opened PolishRounds
  import opened Accounting
  import opened Tally
  import Decisions
  import DiskWrites
  import MergeRate

  /** Failures, stalls and reworks count; an outage or a dry run is no fact about the PR. */
  function MarkOf(action: LastAction): Mark {
    match action
    case Failed => Up
    case Stalled => Up
    case Reworked => Up
    case Transient => Keep
    case DryRun => Keep
    case Init => Keep
    case _ => Clear
  }

  function Marks(actions: seq<LastAction>): seq<Mark> {
    seq(|actions|, i requires 0 <= i < |actions| => MarkOf(actions[i]))
  }

  // ----- one tick -----

  /** The window still standing when the merge brake looks. */
  function Standing(s: State, action: LastAction): Option<int> {
    if MarkOf(action) == Clear then None else s.cooldownUntil
  }

  /** N attempts since the brake last opened a window, on a live tick that does not end the run, with no window open. */
  predicate Brakes(cfg: Config, s: State, out: TickOut, now: int) {
    && out.Action() !in {Merged, Closed, NeedsHuman, DryRun}
    && !(Standing(s, out.Action()).Some? && now < Standing(s, out.Action()).value)
    && out.disk.mergeAttempts >= s.cooldownFromAttempt + cfg.maxConsecutiveFailures
  }

  predicate StreakOpens(cfg: Config, out: TickOut) {
    && cfg.maxConsecutiveFailures > 0 && cfg.cooldown > 0
    && MarkOf(out.Action()) == Up && out.disk.consecutiveFailures >= cfg.maxConsecutiveFailures
  }

  /** The end of the window a completed tick opens, if it opens one: the streak comes first. */
  function Opened(cfg: Config, s: State, out: TickOut, clock: Clock): Option<int> {
    if cfg.maxConsecutiveFailures <= 0 || cfg.cooldown <= 0 then None
    else if StreakOpens(cfg, out) then Some(clock.streak + cfg.cooldown)
    else if Brakes(cfg, s, out, clock.check) then Some(clock.brake + cfg.cooldown)
    else None
  }

  lemma StreakMeaning(cfg: Config, s: State, rep: Report, now: int)
    ensures var r := CountStreak(cfg, s, rep, now);
            var t, armed := r.0, r.2;
            && t.consecutiveFailures == Step(s.consecutiveFailures, MarkOf(rep.action))
            && (armed <==>
                  && MarkOf(rep.action) == Up && cfg.maxConsecutiveFailures > 0 && cfg.cooldown > 0
                  && t.consecutiveFailures >= cfg.maxConsecutiveFailures)
            && t.cooldownUntil == (if armed then Some(now + cfg.cooldown) else Standing(s, rep.action))
            && t.lastCooldownCause ==
                 (if armed then CooldownCause(t, rep)
                  else if MarkOf(rep.action) == Clear then NoCause else s.lastCooldownCause)
  {
    hide CooldownCause;
    CauseDependsOn(s.(consecutiveFailures := s.consecutiveFailures + 1), CountStreak(cfg, s, rep, now).0, rep);
  }

  /** What a completed tick does to the streak, the window and the brake's mark on disk. */
  lemma TickWindow(cfg: Config, s: State, input: TickInput)
    requires Inv(s) && Tick(cfg, s, input).kind == Ran
    ensures var out := Tick(cfg, s, input);
            var t, window := out.disk, Opened(cfg, s, out, input.clock);
            && t.consecutiveFailures == Step(s.consecutiveFailures, MarkOf(out.Action()))
            && t.cooldownUntil == (if window.Some? then window else Standing(s, out.Action()))
            && t.cooldownFromAttempt ==
                 (if window.Some? && !StreakOpens(cfg, out) then t.mergeAttempts else s.cooldownFromAttempt)
  {
    hide Tick, Inv, Account, Decide, Diff, CountStreak;
    var out := Tick(cfg, s, input);
    if out.Action() == DryRun {
      TickDryRun(cfg, s, input);
      TickAddsUp(cfg, s, input);
    } else {
      TickCooldown(cfg, s, input);
      DiskWrites.DiskIsMemory(cfg, s, input);
      StreakMeaning(cfg, out.verdict.state, out.verdict.report, input.clock.streak);
    }
  }

  /** The agent error behind a failing tick: of the polish call, or of the rework after a failed merge. */
  function Culprit(cfg: Config, s: State, input: TickInput, out: TickOut): Option<AgentError> {
    if out.verdict.invoked then PolishCall(cfg.polishSpec, s.onceRoundsDone, input.polish).err
    else if out.verdict.attempted && cfg.hasRework then input.rework
    else None
  }

  /** The cause of a failure streak's window: what stalled and where, the agent's error, or the merge's. */
  function Blame(cfg: Config, s: State, input: TickInput, out: TickOut): Cause {
    var culprit, merge := Culprit(cfg, s, input, out), out.memory.lastMergeError;
    var stage := if out.verdict.invoked then "polish" else "merge rework";
    var text := if culprit.Some? then culprit.value.text else "";
    if out.Action() == Stalled then
      if text != "" then StalledRound(stage, text) else StalledUnknown
    else if out.Action() == Reworked then if merge != "" then ReworkingAfter(merge) else RepeatedRework
    else if text != "" then FailureText(text)
    else if merge != "" then FailureText(merge)
    else NoCause
  }

  /** The texts a report carries are those of the error behind it. */
  lemma FailureTexts(stage: string, e: AgentError)
    ensures var rep := AgentFailure(stage, e);
            && (rep.action == Stalled ==> rep.stallError == e.text && rep.stallStage == stage)
            && (rep.action == Failed ==> rep.failureError == e.text)
  {
  }

  predicate Quotes(rep: Report, stage: string, text: string) {
    && (rep.action == Stalled ==> rep.stallError == text && rep.stallStage == stage)
    && (rep.action == Failed ==> rep.failureError == text)
  }

  lemma AttemptQuotes(cfg: Config, s: State, snap: Snapshot, input: TickInput)
    requires cfg.mergePolicy != PolicyNotify && snap.review != ReviewRequired
    ensures var rep := AttemptMerge(cfg, s, snap, input).report;
            Quotes(rep, "merge rework", if cfg.hasRework && input.rework.Some? then input.rework.value.text else "")
  {
    hide MergeResult, AgentFailure;
    if input.rework.Some? {
      FailureTexts("merge rework", input.rework.value);
      AgentFailureActions("merge rework", input.rework.value);
    }
  }

  lemma InvokeQuotes(cfg: Config, s: State, snap: Snapshot, fault: Fault)
    ensures var rep, err := InvokePolish(cfg, s, snap, fault).report,
                            PolishCall(cfg.polishSpec, s.onceRoundsDone, fault).err;
            Quotes(rep, "polish", if err.Some? then err.value.text else "")
  {
    hide PolishCall, AgentFailure, Classify;
    var err := PolishCall(cfg.polishSpec, s.onceRoundsDone, fault).err;
    if err.Some? {
      FailureTexts("polish", err.value);
    }
  }

  /** Only a tick that called somebody fails. */
  lemma TickQuotes(cfg: Config, s: State, input: TickInput)
    requires Tick(cfg, s, input).kind == Ran && MarkOf(Tick(cfg, s, input).Action()) == Up
    ensures var out := Tick(cfg, s, input);
            var culprit := Culprit(cfg, s, input, out);
            Quotes(out.verdict.report, if out.verdict.invoked then "polish" else "merge rework",
                if culprit.Some? then culprit.value.text else "")
  {
    hide Tick, Account, Decide, Diff, Decisions.Work, Decisions.Wanting, Decisions.AwaitsApproval, PolishCall,
        AttemptMerge, InvokePolish, Quotes;
    Decisions.LookingRuns(cfg, s, input);
    TickShape(cfg, s, input);
    var out, snap := Tick(cfg, s, input), input.snap.value;
    Decisions.TickMergesIff(cfg, s, input);
    Decisions.TickRestsAs(cfg, s, input);
    var scored := Scored(s, snap);
    Decisions.DecideCalls(cfg, s, scored, snap, input);
    if out.verdict.invoked {
      InvokeQuotes(cfg, scored, snap, input.polish);
    } else {
      AttemptQuotes(cfg, scored, snap, input);
    }
  }

  /** A window's recorded cause names the failure, or the attempts, that opened it, and goes when the window goes. */
  lemma TickCause(cfg: Config, s: State, input: TickInput)
    requires Inv(s) && Tick(cfg, s, input).kind == Ran
    ensures var out := Tick(cfg, s, input);
            var t := out.disk;
            t.lastCooldownCause ==
              if StreakOpens(cfg, out) then Blame(cfg, s, input, out)
              else if Opened(cfg, s, out, input.clock).Some?
              then AttemptsWithoutLanding(t.mergeAttempts, t.lastMergeError)
              else if MarkOf(out.Action()) == Clear then NoCause
              else s.lastCooldownCause
  {
    hide Tick, Inv, Account, Decide, Diff, CountStreak, PolishCall;
    var out := Tick(cfg, s, input);
    if out.Action() == DryRun {
      TickDryRun(cfg, s, input);
    } else {
      TickCooldown(cfg, s, input);
      TickKeepsVerdict(cfg, s, input);
      DiskWrites.DiskIsMemory(cfg, s, input);
      StreakMeaning(cfg, out.verdict.state, out.verdict.report, input.clock.streak);
      if MarkOf(out.Action()) == Up {
        TickQuotes(cfg, s, input);
      }
    }
  }

  // ----- the streak over runs -----

  lemma MarksFirst(action: LastAction, rest: seq<LastAction>)
    ensures Marks([action] + rest) == [MarkOf(action)] + Marks(rest)
  {
  }

  /** On disk the failure streak is the number of failing ticks reported since the last clearing one. */
  lemma {:induction false} StreakIsHistory(cfg: Config, s: State, ins: seq<TickInput>)
    requires Inv(s)
    ensures DiskWrites.OnDisk(cfg, s, ins).consecutiveFailures
         == Count(s.consecutiveFailures, Marks(Reported(cfg, s, ins)))
    decreases |ins|
  {
    hide Tick, Inv, Count, MarkOf;
    if ins == [] {
      assert Marks([]) == [];
      CountFirst(s.consecutiveFailures, Keep, []);
    } else {
      var out := Tick(cfg, s, ins[0]);
      var rest := Reported(cfg, out.disk, ins[1..]);
      TickKeepsInv(cfg, s, ins[0]);
      StreakIsHistory(cfg, out.disk, ins[1..]);
      if out.kind == Ran {
        TickWindow(cfg, s, ins[0]);
        MarksFirst(out.Action(), rest);
        CountFirst(s.consecutiveFailures, MarkOf(out.Action()), Marks(rest));
      } else {
        IdleTickKeepsAll(cfg, s, ins[0]);
        assert [] + rest == rest;
      }
    }
  }

  lemma {:induction false} RunsConcatenate(cfg: Config, s: State, front: seq<TickInput>, back: seq<TickInput>)
    ensures DiskWrites.OnDisk(cfg, s, front + back) == DiskWrites.OnDisk(cfg, DiskWrites.OnDisk(cfg, s, front), back)
    decreases |front|
  {
    hide Tick;
    if front == [] {
      assert front + back == back;
    } else {
      assert (front + back)[1..] == front[1..] + back;
      RunsConcatenate(cfg, Tick(cfg, s, front[0]).disk, front[1..], back);
    }
  }

  lemma {:induction false} RunKeepsInv(cfg: Config, s: State, ins: seq<TickInput>)
    requires Inv(s)
    ensures Inv(DiskWrites.OnDisk(cfg, s, ins))
    decreases |ins|
  {
    hide Tick, Inv;
    if ins != [] {
      TickKeepsInv(cfg, s, ins[0]);
      RunKeepsInv(cfg, Tick(cfg, s, ins[0]).disk, ins[1..]);
    }
  }

  // ----- resting -----

  predicate Rests(cfg: Config, s: State, input: TickInput) {
    var out := Tick(cfg, s, input);
    out.kind == Skipped && !out.verdict.attempted && !out.verdict.invoked && out.disk == s
  }

  lemma OpenWindowRests(cfg: Config, s: State, input: TickInput)
    ensures Rests(cfg, s, input) <==> s.cooldownUntil.Some? && input.clock.start < s.cooldownUntil.value
  {
    hide Account, Decide, Diff, RecordSnapshot, ActionDirty;
  }

  lemma {:induction false} LaterStarts(now: int, ins: seq<TickInput>, k: nat)
    requires MergeRate.ClockFrom(now, ins) && k < |ins|
    ensures ins[0].clock.start <= ins[k].clock.start
    decreases k
  {
    if k > 0 {
      assert MergeRate.ClockFrom(ins[0].clock.brake, ins[1..]);
      LaterStarts(ins[0].clock.brake, ins[1..], k - 1);
    }
  }

  lemma {:induction false} RestsUntil(cfg: Config, s: State, ins: seq<TickInput>, now: int, until: int, k: nat)
    requires s.cooldownUntil == Some(until) && MergeRate.ClockFrom(now, ins)
    requires k < |ins| && ins[k].clock.start < until
    ensures DiskWrites.OnDisk(cfg, s, ins[..k]) == s && Rests(cfg, s, ins[k])
    decreases k
  {
    hide Tick, Rests;
    OpenWindowRests(cfg, s, ins[k]);
    if k > 0 {
      LaterStarts(now, ins, k);
      OpenWindowRests(cfg, s, ins[0]);
      RestsUntil(cfg, s, ins[1..], ins[0].clock.brake, until, k - 1);
      assert ins[..k][1..] == ins[1..][..k - 1];
      assert Tick(cfg, s, ins[0]).disk == s by {
        RestingKeepsDisk(cfg, s, ins[0]);
      }
    }
  }

  lemma RestingKeepsDisk(cfg: Config, s: State, input: TickInput)
    requires Rests(cfg, s, input)
    ensures Tick(cfg, s, input).disk == s
  {
  }

  /**
    N failing ticks with no clearing one between them, other ticks in any number around them, and the watcher rests:
    every later tick that starts within a cooldown of the last of them is skipped and calls neither gh nor the polisher.
   */
  lemma FailureStreakRests(cfg: Config, s: State, before: seq<TickInput>, input: TickInput, later: seq<TickInput>,
                           k: nat)
    requires Inv(s) && cfg.maxConsecutiveFailures > 0 && cfg.cooldown > 0
    requires var out := Tick(cfg, DiskWrites.OnDisk(cfg, s, before), input);
             out.kind == Ran && out.Action() in {Failed, Reworked, Stalled}
    requires Count(s.consecutiveFailures, Marks(Reported(cfg, s, before + [input]))) >= cfg.maxConsecutiveFailures
    requires MergeRate.ClockFrom(input.clock.streak, later)
    requires k < |later| && later[k].clock.start < input.clock.streak + cfg.cooldown
    ensures Rests(cfg, DiskWrites.OnDisk(cfg, s, before + [input] + later[..k]), later[k])
  {
    hide Tick, Inv, Count, Rests;
    var t := DiskWrites.OnDisk(cfg, s, before);
    var u := Tick(cfg, t, input).disk;
    RunKeepsInv(cfg, s, before);
    TickWindow(cfg, t, input);
    RunsConcatenate(cfg, s, before, [input]);
    assert DiskWrites.OnDisk(cfg, t, [input]) == u by {
      assert [input][1..] == [];
    }
    StreakIsHistory(cfg, s, before + [input]);
    RestsUntil(cfg, u, later, input.clock.streak, input.clock.streak + cfg.cooldown, k);
    RunsConcatenate(cfg, s, before + [input], later[..k]);
  }

  // ----- no window without a cause -----

  /** The k-th tick of a run opened the window that ends at until, and no later tick of it cleared the streak. */
  ghost predicate OpenedAt(cfg: Config, s: State, ins: seq<TickInput>, k: nat, until: int)
    requires k < |ins|
  {
    var t := DiskWrites.OnDisk(cfg, s, ins[..k]);
    var out := Tick(cfg, t, ins[k]);
    && out.kind == Ran && Opened(cfg, t, out, ins[k].clock) == Some(until)
    && Clear !in Marks(Reported(cfg, out.disk, ins[k + 1..]))
  }

  /** A watcher that started with no window rests only in one that a failure streak or the merge brake opened. */
  lemma {:induction false} WindowsAreEarned(cfg: Config, s: State, ins: seq<TickInput>, until: int)
    requires Inv(s) && DiskWrites.OnDisk(cfg, s, ins).cooldownUntil == Some(until)
    ensures || (s.cooldownUntil == Some(until) && Clear !in Marks(Reported(cfg, s, ins)))
            || exists k :: 0 <= k < |ins| && OpenedAt(cfg, s, ins, k, until)
    decreases |ins|
  {
    hide Tick, Inv, Opened, MarkOf;
    if ins != [] {
      var out := Tick(cfg, s, ins[0]);
      var rest := Reported(cfg, out.disk, ins[1..]);
      TickKeepsInv(cfg, s, ins[0]);
      WindowsAreEarned(cfg, out.disk, ins[1..], until);
      IdleTickKeepsAll(cfg, s, ins[0]);
      if out.kind == Ran {
        TickWindow(cfg, s, ins[0]);
        MarksFirst(out.Action(), rest);
      } else {
        assert [] + rest == rest;
      }
      if k :| 0 <= k < |ins[1..]| && OpenedAt(cfg, out.disk, ins[1..], k, until) {
        assert ins[..k + 1][1..] == ins[1..][..k] && ins[1..][k + 1..] == ins[k + 2..];
        assert OpenedAt(cfg, s, ins, k + 1, until);
      } else if Clear !in Marks(rest) && out.kind == Ran && Opened(cfg, s, out, ins[0].clock) == Some(until) {
        assert OpenedAt(cfg, s, ins, 0, until);
      }
    }
  }
}
