/**
  Why an issue stays suppressed: every issue discovery has marked seen is accounted for, except where a cleanup
  landed between poll's two reads of the orchestrator (jiradozer/discovery.go, jiradozer/orchestrator.go).
 */
module Suppression {
  import opened Common
  import opened Slots
  import opened SlotProtocol
  import opened SlotSafety

  /** Every seen issue is accounted for, unless a poll consumed its release without emitting it. */
  ghost predicate SeenJustified(s: Sys) {
    forall id :: id in s.seen ==> Accounted(s, id) || id in s.swallowed
  }

  /** Inside poll, an issue active at the first read is still held unless its cleanup came in between. */
  ghost predicate ReadStillTrue(s: Sys) {
    s.disc.Reading? ==> s.queue == [] && forall id :: id in s.disc.active ==> Held(s, id) || id in s.disc.freed
  }

  ghost predicate Good(max: nat, s: Sys) {
    Safe(max, s) && SeenJustified(s) && ReadStillTrue(s)
  }

  // ----- one step -----

  lemma LoopMovesIssues(max: nat, s: Sys, step: Step, id: IssueId)
    requires LoopConsistent(max, s) && OfLoop(step) && !InStart(step) && Enabled(s, step)
    requires Held(s, id)
    ensures Held(LoopControl(max, s, step), id)
  {
    hide Shared.Count;
    if step.Drain? && s.loop.left != [] {
      assert s.loop.left == [s.loop.left[0]] + s.loop.left[1..];
    } else if step.Take? {
      assert s.queue == [s.queue[0]] + s.queue[1..];
    }
  }

  lemma AnswerMovesIssues(max: nat, s: Sys, keep: bool, id: IssueId)
    requires LoopConsistent(max, s) && s.loop.Trying? && Held(s, id)
    requires keep || id != s.loop.issue || id in s.shared.active || id in s.gaveUp
    ensures Held(Answer(s, !keep), id)
  {
  }

  /** Only the issue whose start failed, and which discovery then forgets, is let go. */
  lemma StartHoldsOn(max: nat, s: Sys, step: Step, id: IssueId)
    requires LoopConsistent(max, s) && InStart(step) && Enabled(s, step) && Held(s, id)
    ensures var t := StartStep(max, s, step);
            Held(t, id) || (step.GiveUpOrRetry? && id == s.loop.issue && id !in t.seen && t.disc.Idle?)
  {
    if step.TryReserve? && Reserve(s.shared, max, s.loop.issue) == LimitReached {
      AnswerMovesIssues(max, s, true, id);
    }
  }

  lemma ChildHoldsOn(s: Sys, step: Step, id: IssueId)
    requires SlotsOwned(s) && OfChild(step) && Enabled(s, step)
    ensures Held(s, id) ==> Held(ChildStep(s, step), id) || (step.Free? && id == s.children[step.child].issue)
    ensures Accounted(s, id) ==> Accounted(ChildStep(s, step), id)
    ensures step.Free? && s.disc.Reading? ==> s.children[step.child].issue in ChildStep(s, step).disc.freed
  {
    assert OwnsItsSlot(s, step.child);
    hide Owned;
  }

  lemma LoopStepHoldsOn(max: nat, s: Sys, step: Step, id: IssueId)
    requires LoopConsistent(max, s) && Enabled(s, step) && OfLoop(step) && Held(s, id)
    ensures var t := Apply(max, s, step); Held(t, id) || (id !in t.seen && t.disc.Idle?)
  {
    hide Held, StartStep, LoopControl, Enabled;
    if InStart(step) {
      StartHoldsOn(max, s, step, id);
    } else {
      LoopMovesIssues(max, s, step, id);
    }
  }

  /** The loop takes no release back, and moves discovery only by forgetting an issue. */
  lemma LoopLeavesPoll(max: nat, s: Sys, step: Step)
    requires Enabled(s, step) && OfLoop(step)
    ensures var t := Apply(max, s, step);
            && t.seen <= s.seen && t.disc == s.disc && t.swallowed == s.swallowed
            && t.shared.released == s.shared.released && (s.queue == [] ==> t.queue == [])
  {
    hide Reserve, Shared.Count;
  }

  lemma LoopStepKeepsJustified(max: nat, s: Sys, step: Step)
    requires Good(max, s) && Enabled(s, step) && OfLoop(step)
    ensures SeenJustified(Apply(max, s, step)) && ReadStillTrue(Apply(max, s, step))
  {
    hide SlotsOwned, NoLostWakeup, LoopConsistent, Held, Apply, Enabled;
    LoopLeavesPoll(max, s, step);
    forall id | Held(s, id)
      ensures var t := Apply(max, s, step); Held(t, id) || (id !in t.seen && t.disc.Idle?)
    {
      LoopStepHoldsOn(max, s, step, id);
    }
  }

  lemma ChildStepKeepsJustified(max: nat, s: Sys, step: Step)
    requires Good(max, s) && Enabled(s, step) && OfChild(step)
    ensures SeenJustified(Apply(max, s, step)) && ReadStillTrue(Apply(max, s, step))
  {
    forall id
      ensures Held(s, id) ==> Held(ChildStep(s, step), id) || (step.Free? && id == s.children[step.child].issue)
      ensures Accounted(s, id) ==> Accounted(ChildStep(s, step), id)
    {
      hide Owned;
      ChildHoldsOn(s, step, id);
    }
    hide Owned, Held;
  }

  /** What a poll emits, given its two reads. */
  lemma PollEmits(s: Sys, id: IssueId)
    requires s.disc.Reading?
    ensures id in Reconciled(s).queue <==>
              id in s.disc.list && id !in s.disc.active && (id in s.seen ==> id in s.shared.released)
  {
    FreshMeaning(s.disc.list, s.disc.active + (s.seen - s.shared.released), id);
  }

  lemma PollJustifies(s: Sys)
    requires SeenJustified(s) && ReadStillTrue(s) && s.disc.Reading?
    ensures SeenJustified(DiscoveryStep(s, DrainReleased))
  {
    var t := DiscoveryStep(s, DrainReleased);
    forall id | id in t.seen ensures Accounted(t, id) || id in t.swallowed {
      PollEmits(s, id);
    }
  }

  /** A poll loses track of a listed issue exactly when its release is pending, nothing else holds it, and it is in the
      active set the poll read before. */
  lemma PollLosesExactly(s: Sys, id: IssueId)
    requires s.disc.Reading? && id in s.disc.list && ReadStillTrue(s)
    ensures var t := DiscoveryStep(s, DrainReleased);
            (Accounted(s, id) && !Accounted(t, id)) <==>
              (id in s.shared.released && !Held(s, id) && id in s.disc.active)
  {
    PollEmits(s, id);
  }

  lemma StepKeepsGood(max: nat, s: Sys, step: Step)
    requires Good(max, s) && Enabled(s, step)
    ensures Good(max, Apply(max, s, step))
  {
    StepKeepsSafe(max, s, step);
    hide Safe;
    if OfLoop(step) {
      LoopStepKeepsJustified(max, s, step);
    } else if OfChild(step) {
      ChildStepKeepsJustified(max, s, step);
    } else if step.DrainReleased? {
      hide SeenJustified, Held;
      PollJustifies(s);
    }
  }

  // ----- whole runs -----

  lemma {:induction false} RunKeepsGood(max: nat, s: Sys, steps: seq<Step>)
    requires Good(max, s) && Possible(max, s, steps)
    ensures Good(max, Run(max, s, steps))
    decreases |steps|
  {
    hide Apply, Enabled, Good;
    if steps != [] {
      StepKeepsGood(max, s, steps[0]);
      RunKeepsGood(max, Apply(max, s, steps[0]), steps[1..]);
    }
  }

  /** No cleanup lands between a poll's two reads; taking the reads as one step is a special case. */
  predicate Undisturbed(max: nat, s: Sys, steps: seq<Step>)
    requires Possible(max, s, steps)
    decreases |steps|
  {
    steps == [] || ((steps[0].Free? ==> s.disc.Idle?) && Undisturbed(max, Apply(max, s, steps[0]), steps[1..]))
  }

  ghost predicate NothingSwallowed(s: Sys) {
    s.swallowed == {} && (s.disc.Reading? ==> s.disc.freed == {})
  }

  lemma QuietStepSwallowsNothing(max: nat, s: Sys, step: Step)
    requires NothingSwallowed(s) && Enabled(s, step) && (step.Free? ==> s.disc.Idle?)
    ensures NothingSwallowed(Apply(max, s, step))
  {
    hide Reserve, Fresh, Held;
  }

  lemma {:induction false} QuietRunSwallowsNothing(max: nat, s: Sys, steps: seq<Step>)
    requires NothingSwallowed(s) && Possible(max, s, steps) && Undisturbed(max, s, steps)
    ensures NothingSwallowed(Run(max, s, steps))
    decreases |steps|
  {
    hide Apply, Enabled, NothingSwallowed;
    if steps != [] {
      QuietStepSwallowsNothing(max, s, steps[0]);
      QuietRunSwallowsNothing(max, Apply(max, s, steps[0]), steps[1..]);
    }
  }

  lemma GoodFromTheStart(max: nat)
    ensures Good(max, INITIAL) && NothingSwallowed(INITIAL)
  {
  }

  /**
    Over all interleavings: a suppressed issue is being emitted, pending, in tryStart, active, released, shipped, at
    the runtime-failure cap or given up, except for releases a poll consumed unseen; without a cleanup between
    a poll's two reads there are no such releases.
   */
  lemma SuppressionIsJustified(max: nat, steps: seq<Step>, id: IssueId)
    requires Possible(max, INITIAL, steps) && id in Run(max, INITIAL, steps).seen
    ensures Accounted(Run(max, INITIAL, steps), id) || id in Run(max, INITIAL, steps).swallowed
    ensures Undisturbed(max, INITIAL, steps) ==> Accounted(Run(max, INITIAL, steps), id)
  {
    hide Apply, Enabled, Possible, Run, Safe, Accounted;
    GoodFromTheStart(max);
    RunKeepsGood(max, INITIAL, steps);
    if Undisturbed(max, INITIAL, steps) {
      QuietRunSwallowsNothing(max, INITIAL, steps);
    }
  }

  /** A poll whose reads are adjacent never emits an issue that is active, at the cap, or seen and not released, and
      emits every other listed one: a released issue comes back. */
  lemma AdjacentPollEmitsExactly(s: Sys, list: seq<IssueId>, id: IssueId)
    requires Enabled(s, ReadActive(list))
    ensures var t := DiscoveryStep(s, ReadActive(list));
            Enabled(t, DrainReleased) &&
            (id in DiscoveryStep(t, DrainReleased).queue <==>
              && id in list && id !in s.shared.active && !s.shared.AtCap(id)
              && (id in s.seen ==> id in s.shared.released))
  {
    var t := DiscoveryStep(s, ReadActive(list));
    PollEmits(t, id);
    hide Fresh, Held;
  }

  // ----- the consumed release -----

  ghost predicate Stuck(s: Sys, id: IssueId) {
    id in s.seen && !Accounted(s, id)
  }

  lemma StuckInLoop(max: nat, s: Sys, step: Step, id: IssueId)
    requires Stuck(s, id) && OfLoop(step) && !InStart(step) && Enabled(s, step)
    ensures Stuck(LoopControl(max, s, step), id)
  {
    hide Shared.Count;
    if step.Drain? && s.loop.left != [] {
      assert s.loop.left == [s.loop.left[0]] + s.loop.left[1..];
    } else if step.Take? {
      assert s.queue == [s.queue[0]] + s.queue[1..];
    }
  }

  lemma AnswerAddsNothing(s: Sys, remove: bool, id: IssueId)
    requires s.loop.Trying? && Stuck(s, id)
    ensures Stuck(Answer(s, remove), id)
  {
  }

  lemma StuckInStart(max: nat, s: Sys, step: Step, id: IssueId)
    requires Stuck(s, id) && InStart(step) && Enabled(s, step)
    ensures Stuck(StartStep(max, s, step), id)
  {
    assert id in s.seen && id != s.loop.issue && !Accounted(s, id);
    if step.TryReserve? && Reserve(s.shared, max, s.loop.issue) == LimitReached {
      AnswerAddsNothing(s, false, id);
    } else if step.LaunchOk? {
      AnswerAddsNothing(Launched(s), true, id);
    } else if step.SignalStartFailure? && s.loop.stage.handled {
      AnswerAddsNothing(AlreadyHandled(s), true, id);
    } else if step.GiveUpOrRetry? {
      AnswerAddsNothing(Charged(s), true, id);
    }
    hide Reserve, Answer;
  }

  lemma StuckInChild(s: Sys, step: Step, id: IssueId)
    requires SlotsOwned(s) && Stuck(s, id) && OfChild(step) && Enabled(s, step)
    ensures Stuck(ChildStep(s, step), id)
  {
    assert OwnsItsSlot(s, step.child);
    hide Owned;
  }

  lemma StuckInPoll(s: Sys, step: Step, id: IssueId)
    requires Stuck(s, id) && !OfLoop(step) && !OfChild(step) && Enabled(s, step)
    requires step.DrainReleased? ==> id in s.disc.list
    ensures Stuck(DiscoveryStep(s, step), id)
  {
    if step.DrainReleased? {
      PollEmits(s, id);
    }
    hide Fresh;
  }

  lemma StuckStep(max: nat, s: Sys, step: Step, id: IssueId)
    requires Safe(max, s) && Stuck(s, id) && Enabled(s, step)
    requires step.DrainReleased? ==> id in s.disc.list
    ensures Stuck(Apply(max, s, step), id)
  {
    hide Owned, Stuck, StartStep, LoopControl, ChildStep, DiscoveryStep;
    if InStart(step) {
      StuckInStart(max, s, step, id);
    } else if OfLoop(step) {
      StuckInLoop(max, s, step, id);
    } else if OfChild(step) {
      StuckInChild(s, step, id);
    } else {
      StuckInPoll(s, step, id);
    }
  }

  /** Every poll of the run still lists the issue. */
  predicate AlwaysListed(max: nat, s: Sys, steps: seq<Step>, id: IssueId)
    requires Possible(max, s, steps)
    decreases |steps|
  {
    steps == [] ||
    ((steps[0].DrainReleased? ==> id in s.disc.list) && AlwaysListed(max, Apply(max, s, steps[0]), steps[1..], id))
  }

  /** An issue whose release was swallowed is never emitted again while the tracker keeps listing it. */
  lemma {:induction false} StuckForGood(max: nat, s: Sys, steps: seq<Step>, id: IssueId)
    requires Safe(max, s) && Stuck(s, id) && Possible(max, s, steps) && AlwaysListed(max, s, steps, id)
    ensures Stuck(Run(max, s, steps), id)
    decreases |steps|
  {
    hide Apply, Enabled, Stuck, Safe;
    if steps != [] {
      StuckStep(max, s, steps[0], id);
      StepKeepsSafe(max, s, steps[0]);
      StuckForGood(max, Apply(max, s, steps[0]), steps[1..], id);
    }
  }

  const A: IssueId := "a"
  const STARTUP: seq<Step> := [ReadActive([A]), DrainReleased, Begin, Drain, Take, Route, TryReserve, LaunchOk]
  const CRASH: seq<Step> := [End(0, Failed), Record(0), ReadActive([A]), Free(0), DrainReleased]

  /** One step in front of a run. */
  lemma StepThenRun(max: nat, s: Sys, step: Step, rest: seq<Step>)
    requires Enabled(s, step) && Possible(max, Apply(max, s, step), rest)
    ensures Possible(max, s, [step] + rest)
    ensures Run(max, s, [step] + rest) == Run(max, Apply(max, s, step), rest)
  {
    hide Apply, Enabled;
    assert ([step] + rest)[1..] == rest;
  }

  /** The one listed issue's child is running, nothing else is going on. */
  const RUNNING: Sys :=
    Sys(Shared(map[A := Child(0)], map[], {}, false), [], Top, map[0 := ChildState(A, Running)], 1, map[], {A}, [],
        Idle,
        {}, {}, {})

  /** The first poll's issue has been sent; the loop is about to look at its pending queue. */
  const FOUND: Sys :=
    Sys(Shared(map[], map[], {}, false), [], Top, map[], 0, map[], {A}, [A], Idle, {}, {}, {})

  lemma FirstPoll()
    ensures Enabled(INITIAL, STARTUP[0])
    ensures var s := Apply(1, INITIAL, STARTUP[0]); Enabled(s, STARTUP[1]) && Apply(1, s, STARTUP[1]) == FOUND
  {
    var s := Apply(1, INITIAL, STARTUP[0]);
    assert INITIAL.shared.Suppressed() == {};
    assert s == INITIAL.(disc := Reading([A], {}, {}));
    var t := Apply(1, s, STARTUP[1]);
    assert s.disc.active + (s.seen - s.shared.released) == {};
    assert Fresh([A], {}) == [A] + Fresh([A][1..], {}) == [A];
    assert (set id | id in [A]) == {A};
    assert t.swallowed == {};
    assert t == FOUND;
  }

  lemma DrainingNothing()
    ensures var s := FOUND.(loop := Draining([], [], 0));
            && Enabled(FOUND, Begin) && Apply(1, FOUND, Begin) == s
            && Enabled(s, Drain) && Apply(1, s, Drain) == FOUND.(loop := Waiting)
  {
    assert FOUND.shared.active.Keys == {};
  }

  lemma ChannelIssueTaken()
    ensures var s := FOUND.(loop := Waiting); var t := FOUND.(loop := Received(A), queue := []);
            && Enabled(s, Take) && Apply(1, s, Take) == t
            && Enabled(t, Route) && Apply(1, t, Route) == t.(loop := Trying(A, FromChannel, Reserving))
  {
    assert FOUND.shared.active.Keys == {};
  }

  lemma SlotReserved()
    ensures var s := FOUND.(loop := Trying(A, FromChannel, Reserving), queue := []);
            var t := FOUND.(loop := Trying(A, FromChannel, Launching), queue := [],
                            shared := Shared(map[A := Placeholder], map[], {}, false));
            && Enabled(s, TryReserve) && Apply(1, s, TryReserve) == t
            && Enabled(t, LaunchOk) && Apply(1, t, LaunchOk) == RUNNING
  {
    assert FOUND.shared.active.Keys == {};
    assert map[A := Placeholder][A := Child(0)] == map[A := Child(0)];
    var f: map<IssueId, nat> := map[];
    assert f - {A} == f;
  }

  lemma IssueIsStarted()
    ensures Possible(1, FOUND, STARTUP[2..]) && Run(1, FOUND, STARTUP[2..]) == RUNNING
  {
    hide Apply, Enabled;
    DrainingNothing();
    ChannelIssueTaken();
    SlotReserved();
    var s2 := FOUND;
    var s3 := s2.(loop := Draining([], [], 0));
    var s4 := s2.(loop := Waiting);
    var s5 := s2.(loop := Received(A), queue := []);
    var s6 := s5.(loop := Trying(A, FromChannel, Reserving));
    var s7 := s5.(loop := Trying(A, FromChannel, Launching), shared := Shared(map[A := Placeholder], map[], {}, false));
    assert STARTUP[7..] == [LaunchOk] + [] && STARTUP[6..] == [TryReserve] + STARTUP[7..];
    assert STARTUP[5..] == [Route] + STARTUP[6..] && STARTUP[4..] == [Take] + STARTUP[5..];
    assert STARTUP[3..] == [Drain] + STARTUP[4..] && STARTUP[2..] == [Begin] + STARTUP[3..];
    StepThenRun(1, s7, LaunchOk, []);
    StepThenRun(1, s6, TryReserve, STARTUP[7..]);
    StepThenRun(1, s5, Route, STARTUP[6..]);
    StepThenRun(1, s4, Take, STARTUP[5..]);
    StepThenRun(1, s3, Drain, STARTUP[4..]);
    StepThenRun(1, s2, Begin, STARTUP[3..]);
  }

  const CRASHED: Sys :=
    RUNNING.(children := map[0 := ChildState(A, Recorded(Failed))],
        shared := Shared(map[A := Child(0)], map[A := 1], {}, false))

  const FREED: Sys :=
    RUNNING.(children := map[0 := ChildState(A, Freed)], shared := Shared(map[], map[A := 1], {A}, false),
             disc := Reading([A], {A}, {A}))

  lemma ChildFails()
    ensures var s := RUNNING.(children := map[0 := ChildState(A, Ended(Failed))]);
            && Enabled(RUNNING, End(0, Failed)) && Apply(1, RUNNING, End(0, Failed)) == s
            && Enabled(s, Record(0)) && Apply(1, s, Record(0)) == CRASHED
  {
    assert map[0 := ChildState(A, Running)][0 := ChildState(A, Ended(Failed))]
        == map[0 := ChildState(A, Ended(Failed))];
    assert map[0 := ChildState(A, Ended(Failed))][0 := ChildState(A, Recorded(Failed))]
        == map[0 := ChildState(A, Recorded(Failed))];
    var f: map<IssueId, nat> := map[];
    assert f[A := 1] == map[A := 1];
  }

  lemma PollIsADiscoveryStep()
    ensures Enabled(FREED, DrainReleased) && Apply(1, FREED, DrainReleased) == DiscoveryStep(FREED, DrainReleased)
  {
    hide DiscoveryStep;
  }

  lemma PollSwallows()
    ensures Stuck(DiscoveryStep(FREED, DrainReleased), A)
  {
    PollEmits(FREED, A);
    hide Fresh;
  }

  lemma SecondPollReads()
    ensures Enabled(CRASHED, ReadActive([A]))
        && Apply(1, CRASHED, ReadActive([A])) == CRASHED.(disc := Reading([A], {A}, {}))
  {
    assert CRASHED.shared.Suppressed() == {A};
  }

  lemma SlotIsFreed()
    ensures var s := CRASHED.(disc := Reading([A], {A}, {})); Enabled(s, Free(0)) && Apply(1, s, Free(0)) == FREED
  {
    var s := CRASHED.(disc := Reading([A], {A}, {}));
    assert map[0 := ChildState(A, Recorded(Failed))][0 := ChildState(A, Freed)] == map[0 := ChildState(A, Freed)];
    assert map[A := Child(0)] - {A} == map[];
    assert s.shared.Free(A, Failed) == Shared(map[], map[A := 1], {A}, false);
  }

  /** From there the child fails, and its cleanup lands between the two reads of the next poll. */
  lemma ReleaseIsSwallowed()
    ensures Possible(1, RUNNING, CRASH) && Stuck(Run(1, RUNNING, CRASH), A)
  {
    hide Apply, Enabled, Stuck;
    ChildFails();
    SecondPollReads();
    SlotIsFreed();
    PollSwallows();
    PollIsADiscoveryStep();
    var s1 := RUNNING.(children := map[0 := ChildState(A, Ended(Failed))]);
    var s2 := CRASHED;
    var s3 := s2.(disc := Reading([A], {A}, {}));
    var s4 := FREED;
    assert CRASH[4..] == [DrainReleased] + [] && CRASH[3..] == [Free(0)] + CRASH[4..];
    assert CRASH[2..] == [ReadActive([A])] + CRASH[3..] && CRASH[1..] == [Record(0)] + CRASH[2..];
    assert CRASH == [End(0, Failed)] + CRASH[1..];
    StepThenRun(1, s4, DrainReleased, []);
    StepThenRun(1, s3, Free(0), CRASH[4..]);
    StepThenRun(1, s2, ReadActive([A]), CRASH[3..]);
    StepThenRun(1, s1, Record(0), CRASH[2..]);
    StepThenRun(1, RUNNING, End(0, Failed), CRASH[1..]);
  }

  lemma {:induction false} RunsConcatenate(max: nat, s: Sys, front: seq<Step>, back: seq<Step>)
    requires Possible(max, s, front) && Possible(max, Run(max, s, front), back)
    ensures Possible(max, s, front + back) && Run(max, s, front + back) == Run(max, Run(max, s, front), back)
    decreases |front|
  {
    hide Apply, Enabled;
    if front == [] {
      assert front + back == back;
    } else {
      RunsConcatenate(max, Apply(max, s, front[0]), front[1..], back);
      assert (front + back)[1..] == front[1..] + back;
    }
  }

  /**
    With the two reads separate, suppression without a reason is reachable from start-up, and by StuckForGood stays.
   */
  lemma SuppressionCanBeUnjustified()
    ensures exists steps :: Possible(1, INITIAL, steps) && Stuck(Run(1, INITIAL, steps), A)
  {
    FirstPoll();
    IssueIsStarted();
    ReleaseIsSwallowed();
    hide Apply, Enabled, Stuck;
    var s := Apply(1, INITIAL, STARTUP[0]);
    StepThenRun(1, s, STARTUP[1], STARTUP[2..]);
    StepThenRun(1, INITIAL, STARTUP[0], [STARTUP[1]] + STARTUP[2..]);
    RunsConcatenate(1, INITIAL, [STARTUP[0]] + ([STARTUP[1]] + STARTUP[2..]), CRASH);
  }
}
