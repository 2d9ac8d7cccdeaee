/**
  What the orchestrator remembers of an issue between steps, told from the steps of a run alone
  (jiradozer/orchestrator.go).
 */
module FailureCounts {
  import opened Common
  import opened Slots
  import opened SlotProtocol
  import Tally
  import Suppression

  type Step = SlotProtocol.Step

  /** The two failure counters of an issue, its pending release, and the wakeup in the channel. */
  datatype Memory = RuntimeFailures | FailedStarts | Release | Wakeup

  /**
    What a step says about one of them. Recorded child failures and failed starts count until a success or a launch. A
    cleanup below the cap releases; a success or a poll takes the release back. Every slot given back is signalled.
   */
  function Mark(kind: Memory, s: Sys, step: Step, id: IssueId): Tally.Mark
    requires Enabled(s, step)
  {
    match kind
    case RuntimeFailures =>
      if !step.Record? || s.children[step.child].issue != id then Tally.Keep
      else if s.children[step.child].pc.outcome == Failed then Tally.Up
      else if s.children[step.child].pc.outcome == Done then Tally.Clear
      else Tally.Keep
    case FailedStarts =>
      if step.GiveUpOrRetry? && s.loop.issue == id then Tally.Up
      else if step.LaunchOk? && s.loop.issue == id then Tally.Clear
      else Tally.Keep
    case Release =>
      if step.DrainReleased? then Tally.Clear
      else if step.Record? && s.children[step.child].issue == id && s.children[step.child].pc.outcome == Done
      then Tally.Clear
      else if step.Free? && s.children[step.child].issue == id && s.children[step.child].pc.outcome != Done
              && s.shared.Failures(id) < 3
      then Tally.Up
      else Tally.Keep
    case Wakeup =>
      if step.Signal? || step.SignalStartFailure? then Tally.Up else if step.Wake? then Tally.Clear else Tally.Keep
  }

  function Marks(kind: Memory, max: nat, s: Sys, steps: seq<Step>, id: IssueId): seq<Tally.Mark>
    requires Possible(max, s, steps)
    decreases |steps|
  {
    if steps == [] then []
    else [Mark(kind, s, steps[0], id)] + Marks(kind, max, Apply(max, s, steps[0]), steps[1..], id)
  }

  /** A counter's value, and 1 for a release or a wakeup that stands. */
  function Value(kind: Memory, s: Sys, id: IssueId): nat {
    match kind
    case RuntimeFailures => s.shared.Failures(id)
    case FailedStarts => StartFailures(s, id)
    case Release => if id in s.shared.released then 1 else 0
    case Wakeup => if s.shared.token then 1 else 0
  }

  /** A release or wakeup given twice stands once. */
  predicate Follows(kind: Memory, before: nat, mark: Tally.Mark, after: nat) {
    if kind.RuntimeFailures? || kind.FailedStarts? then after == Tally.Step(before, mark)
    else after > 0 <==> Tally.Step(before, mark) > 0
  }

  // ----- one step -----

  lemma ControlFollows(kind: Memory, max: nat, s: Sys, step: Step, id: IssueId)
    requires OfLoop(step) && !InStart(step) && Enabled(s, step)
    ensures Follows(kind, Value(kind, s, id), Mark(kind, s, step, id), Value(kind, LoopControl(max, s, step), id))
  {
    hide Shared.Count;
  }

  lemma StartFollows(kind: Memory, max: nat, s: Sys, step: Step, id: IssueId)
    requires InStart(step) && Enabled(s, step)
    ensures Follows(kind, Value(kind, s, id), Mark(kind, s, step, id), Value(kind, StartStep(max, s, step), id))
  {
    hide Reserve, Shared.Count;
  }

  lemma ChildFollows(kind: Memory, s: Sys, step: Step, id: IssueId)
    requires OfChild(step) && Enabled(s, step)
    ensures Follows(kind, Value(kind, s, id), Mark(kind, s, step, id), Value(kind, ChildStep(s, step), id))
  {
  }

  lemma DiscoveryFollows(kind: Memory, s: Sys, step: Step, id: IssueId)
    requires !OfLoop(step) && !OfChild(step) && Enabled(s, step)
    ensures Follows(kind, Value(kind, s, id), Mark(kind, s, step, id), Value(kind, DiscoveryStep(s, step), id))
  {
    hide Fresh, Accounted;
  }

  lemma StepFollows(kind: Memory, max: nat, s: Sys, step: Step, id: IssueId)
    requires Enabled(s, step)
    ensures Follows(kind, Value(kind, s, id), Mark(kind, s, step, id), Value(kind, Apply(max, s, step), id))
  {
    hide ChildStep, StartStep, LoopControl, DiscoveryStep, Enabled, Mark, Value, Follows;
    if InStart(step) {
      StartFollows(kind, max, s, step, id);
    } else if OfLoop(step) {
      ControlFollows(kind, max, s, step, id);
    } else if OfChild(step) {
      ChildFollows(kind, s, step, id);
    } else {
      DiscoveryFollows(kind, s, step, id);
    }
  }

  // ----- over runs -----

  /** The value after a run is what the marks since the start come to. */
  ghost predicate IsHistory(kind: Memory, before: nat, marks: seq<Tally.Mark>, after: nat) {
    if kind.RuntimeFailures? || kind.FailedStarts? then after == Tally.Count(before, marks)
    else after > 0 <==> Tally.Count(before, marks) > 0
  }

  lemma HistoryFirst(kind: Memory, before: nat, mark: Tally.Mark, between: nat, rest: seq<Tally.Mark>, after: nat)
    requires Follows(kind, before, mark, between) && IsHistory(kind, between, rest, after)
    ensures IsHistory(kind, before, [mark] + rest, after)
  {
    Tally.CountFirst(before, mark, rest);
    Tally.CountSign(between, Tally.Step(before, mark), rest);
    hide Tally.Count, Tally.Step;
  }

  lemma {:induction false} MemoryIsHistory(kind: Memory, max: nat, s: Sys, steps: seq<Step>, id: IssueId)
    requires Possible(max, s, steps)
    ensures IsHistory(kind, Value(kind, s, id), Marks(kind, max, s, steps, id), Value(kind, Run(max, s, steps), id))
    decreases |steps|
  {
    hide Apply, Enabled, Mark, Value, Follows;
    if steps != [] {
      hide IsHistory;
      var t := Apply(max, s, steps[0]);
      StepFollows(kind, max, s, steps[0], id);
      MemoryIsHistory(kind, max, t, steps[1..], id);
      HistoryFirst(kind, Value(kind, s, id), Mark(kind, s, steps[0], id), Value(kind, t, id),
          Marks(kind, max, t, steps[1..], id), Value(kind, Run(max, t, steps[1..]), id));
    } else {
      Tally.CountFirst(Value(kind, s, id), Tally.Keep, []);
    }
  }

  /**
    Over all interleavings from start-up: an issue's runtime failures are its recorded child failures since its last
    success, and its start failures the failed attempts to start it since the last launch; a release stands, and a
    wakeup is in the channel, exactly when one was given that nothing has taken back since.
   */
  lemma FailuresAreHistory(max: nat, steps: seq<Step>, id: IssueId)
    requires Possible(max, INITIAL, steps)
    ensures var s := Run(max, INITIAL, steps);
            && s.shared.Failures(id) == Tally.Since(Marks(RuntimeFailures, max, INITIAL, steps, id))
            && StartFailures(s, id) == Tally.Since(Marks(FailedStarts, max, INITIAL, steps, id))
            && (id in s.shared.released <==> Tally.Since(Marks(Release, max, INITIAL, steps, id)) > 0)
            && (s.shared.token <==> Tally.Since(Marks(Wakeup, max, INITIAL, steps, id)) > 0)
  {
    hide Run, Possible, Marks;
    MemoryIsHistory(RuntimeFailures, max, INITIAL, steps, id);
    MemoryIsHistory(FailedStarts, max, INITIAL, steps, id);
    MemoryIsHistory(Release, max, INITIAL, steps, id);
    MemoryIsHistory(Wakeup, max, INITIAL, steps, id);
  }

  /**
    An issue whose children failed three times since their last success is retired: a poll that reads the active issues
    from then on does not emit it, whatever happens before the poll's second read.
   */
  lemma ThreeFailuresRetire(max: nat, steps: seq<Step>, list: seq<IssueId>, between: seq<Step>, id: IssueId)
    requires Possible(max, INITIAL, steps) && Tally.Since(Marks(RuntimeFailures, max, INITIAL, steps, id)) >= 3
    requires var s := Run(max, INITIAL, steps);
             && Enabled(s, ReadActive(list))
             && Possible(max, DiscoveryStep(s, ReadActive(list)), between)
             && !(exists step :: step in between && step.DrainReleased?)
             && Enabled(Run(max, DiscoveryStep(s, ReadActive(list)), between), DrainReleased)
    ensures var t := Run(max, DiscoveryStep(Run(max, INITIAL, steps), ReadActive(list)), between);
            id !in DiscoveryStep(t, DrainReleased).queue
  {
    var s := Run(max, INITIAL, steps);
    FailuresAreHistory(max, steps, id);
    assert s.shared.AtCap(id);
    var t := DiscoveryStep(s, ReadActive(list));
    assert id in t.disc.active;
    ReadingKeepsActive(max, t, between);
    hide Apply, Enabled, Fresh, Accounted, Possible, Run, Marks;
    Suppression.PollEmits(Run(max, t, between), id);
  }

  lemma ReadingStep(max: nat, s: Sys, step: Step)
    requires Enabled(s, step) && s.disc.Reading? && !step.DrainReleased?
    ensures var t := Apply(max, s, step); t.disc.Reading? && t.disc.active == s.disc.active
  {
    hide Reserve;
  }

  /** Inside poll the active set read first stays as it was read. */
  lemma {:induction false} ReadingKeepsActive(max: nat, s: Sys, steps: seq<Step>)
    requires Possible(max, s, steps) && s.disc.Reading? && !(exists step :: step in steps && step.DrainReleased?)
    ensures var t := Run(max, s, steps); t.disc.Reading? && t.disc.active == s.disc.active
    decreases |steps|
  {
    hide Apply, Enabled;
    if steps != [] {
      assert steps[0] in steps && forall step :: step in steps[1..] ==> step in steps;
      ReadingStep(max, s, steps[0]);
      ReadingKeepsActive(max, Apply(max, s, steps[0]), steps[1..]);
    }
  }

  /**
    The third failed start since the last launch gives the issue up; an earlier one makes discovery forget it, so that
    it is found again.
   */
  lemma ThirdFailedStartGivesUp(max: nat, steps: seq<Step>)
    requires Possible(max, INITIAL, steps) && Enabled(Run(max, INITIAL, steps), GiveUpOrRetry)
    ensures var s := Run(max, INITIAL, steps);
            var id, t := s.loop.issue, Apply(max, s, GiveUpOrRetry);
            var third := Tally.Since(Marks(FailedStarts, max, INITIAL, steps, id)) >= 2;
            && (id in t.seen <==> id in s.seen && third)
            && (id in t.gaveUp <==> id in s.gaveUp || third)
  {
    hide Possible, Run, Marks;
    FailuresAreHistory(max, steps, Run(max, INITIAL, steps).loop.issue);
  }

  // ----- what is recorded is what was reported -----

  /** How the child ended, while its goroutine still has use for it. */
  function Ended(s: Sys, k: nat): Option<Outcome> {
    if k in s.children && (s.children[k].pc.Ended? || s.children[k].pc.Recorded?) then Some(s.children[k].pc.outcome)
    else None
  }

  lemma StepEnds(max: nat, s: Sys, step: Step, k: nat)
    requires Enabled(s, step)
    ensures var after := Ended(Apply(max, s, step), k);
            after.Some? ==> after == Ended(s, k) || step == End(k, after.value)
  {
    hide Reserve, Fresh, Accounted, Shared.Count;
  }

  /** The outcome a wait goroutine records and frees with is the one its child's end reported. */
  lemma {:induction false} OutcomesAreReported(max: nat, s: Sys, steps: seq<Step>, k: nat)
    requires Possible(max, s, steps)
    ensures var after := Ended(Run(max, s, steps), k);
            after.Some? ==> after == Ended(s, k) || End(k, after.value) in steps
    decreases |steps|
  {
    hide Apply, Enabled, Ended;
    if steps != [] {
      StepEnds(max, s, steps[0], k);
      OutcomesAreReported(max, Apply(max, s, steps[0]), steps[1..], k);
      assert steps == [steps[0]] + steps[1..];
    }
  }
}
