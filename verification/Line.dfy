/**
  The issues waiting to be started: none is lost, doubled or put before another (jiradozer/orchestrator.go,
  jiradozer/discovery.go).
 */
module Line {
  import opened Common
  import opened Slots
  import opened SlotProtocol
  import opened SlotSafety
  import opened Suppression

  /** Everything between discovery and a child, oldest first: kept back, in tryStart, pending, and in the channel. */
  function Waiting(s: Sys): seq<IssueId> {
    match s.loop
    case Top => s.pending + s.queue
    case Waiting => s.pending + s.queue
    case Draining(left, kept, _) => kept + left + s.queue
    case Trying(issue, FromPending(left, kept, _), _) => kept + ([issue] + left + s.queue)
    case Trying(issue, FromChannel, _) => s.pending + ([issue] + s.queue)
    case Received(issue) => s.pending + ([issue] + s.queue)
  }

  /** The step settles the issue in tryStart: a child is launched, a worktree exists already, or a start failed. */
  predicate Settles(s: Sys, step: Step) {
    || step.LaunchOk? || step.GiveUpOrRetry?
    || (step.SignalStartFailure? && s.loop.Trying? && s.loop.stage == Signalling(true))
  }

  /** to is from without one entry of id. */
  ghost predicate Leaves(from: seq<IssueId>, to: seq<IssueId>, id: IssueId) {
    exists i :: 0 <= i < |from| && from[i] == id && to == from[..i] + from[i + 1..]
  }

  lemma Removal(front: seq<IssueId>, id: IssueId, back: seq<IssueId>)
    ensures Leaves(front + ([id] + back), front + back, id)
  {
    var from, i := front + ([id] + back), |front|;
    assert from[i] == id && front + back == from[..i] + from[i + 1..];
  }

  lemma ControlKeepsLine(max: nat, s: Sys, step: Step)
    requires LoopConsistent(max, s) && OfLoop(step) && !InStart(step) && Enabled(s, step)
    ensures Waiting(LoopControl(max, s, step)) == Waiting(s)
  {
    hide Shared.Count;
    var t := LoopControl(max, s, step);
    if step.Begin? {
      assert [] + s.pending == s.pending;
    } else if step.Drain? {
      var d := s.loop;
      if d.left == [] {
        assert d.kept + [] == d.kept;
      } else {
        assert d.left == [d.left[0]] + d.left[1..];
        assert d.kept + [d.left[0]] + d.left[1..] == d.kept + d.left;
        assert d.kept + ([d.left[0]] + d.left[1..] + s.queue) == d.kept + d.left + s.queue;
      }
    } else if step.Take? {
      assert s.queue == [s.queue[0]] + s.queue[1..];
    } else if step.Route? {
      assert s.pending + [s.loop.issue] + s.queue == s.pending + ([s.loop.issue] + s.queue);
    }
  }

  /** An issue that is pending or just received is tried exactly when the loop counts a slot free. */
  lemma TriesIffRoom(max: nat, s: Sys, step: Step)
    requires OfLoop(step) && !InStart(step) && Enabled(s, step)
    ensures var t := LoopControl(max, s, step);
            && (t.loop.Trying? <==>
                  || (step.Route? && s.shared.Count() < max)
                  || (step.Drain? && s.loop.left != [] && s.loop.counted < max))
            && (t.loop.Trying? ==>
                  t.loop.stage == Reserving && t.loop.issue == if step.Route? then s.loop.issue else s.loop.left[0])
            && (t.loop.Draining? && step.Begin? ==> t.loop.counted == s.shared.Count())
  {
    hide Shared.Count;
  }

  /** The line around the issue in tryStart, without it, and with it kept back. */
  lemma Regrouped(kept: seq<IssueId>, id: IssueId, left: seq<IssueId>, queue: seq<IssueId>)
    ensures Leaves(kept + ([id] + left + queue), kept + left + queue, id)
    ensures kept + [id] + left + queue == kept + ([id] + left + queue)
  {
    Removal(kept, id, left + queue);
    assert [id] + left + queue == [id] + (left + queue) && kept + left + queue == kept + (left + queue);
  }

  lemma AnswerInLine(max: nat, s: Sys, remove: bool)
    requires s.loop.Trying?
    ensures if remove then Leaves(Waiting(s), Waiting(Answer(s, true)), s.loop.issue)
            else Waiting(Answer(s, false)) == Waiting(s)
  {
    hide Leaves;
    var id := s.loop.issue;
    match s.loop.origin
    case FromPending(left, kept, _) => Regrouped(kept, id, left, s.queue);
    case FromChannel =>
      Regrouped(s.pending, id, [], s.queue);
      assert [id] + [] == [id] && s.pending + [] == s.pending && s.pending + [id] + [] == s.pending + [id];
  }

  lemma StartInLine(max: nat, s: Sys, step: Step)
    requires InStart(step) && Enabled(s, step)
    ensures var t := StartStep(max, s, step);
            if Settles(s, step) then Leaves(Waiting(s), Waiting(t), s.loop.issue) else Waiting(t) == Waiting(s)
  {
    hide Answer, Leaves, Shared.Count;
    if step.TryReserve? {
      AnswerInLine(max, s, false);
    } else if step.LaunchOk? {
      AnswerInLine(max, Launched(s), true);
    } else if step.SignalStartFailure? && s.loop.stage.handled {
      AnswerInLine(max, AlreadyHandled(s), true);
    } else if step.GiveUpOrRetry? {
      AnswerInLine(max, Charged(s), true);
    }
  }

  /**
    One step: a poll puts what it emits at the end of the line, a settled issue leaves its place, and otherwise the line
    stays as it is.
   */
  lemma StepInLine(max: nat, s: Sys, step: Step)
    requires Good(max, s) && Enabled(s, step)
    ensures var t := Apply(max, s, step);
            if Settles(s, step)
            then s.loop.Trying? && !step.DrainReleased? && Leaves(Waiting(s), Waiting(t), s.loop.issue)
            else Waiting(t) == Waiting(s) + if step.DrainReleased? then t.queue else []
  {
    hide SlotsOwned, NoLostWakeup, SeenJustified, StartStep, LoopControl, Leaves, Waiting, ChildStep, DiscoveryStep;
    if InStart(step) {
      StartInLine(max, s, step);
    } else if OfLoop(step) {
      ControlKeepsLine(max, s, step);
    } else {
      OthersInLine(s, step);
    }
  }

  lemma OthersInLine(s: Sys, step: Step)
    requires !OfLoop(step) && Enabled(s, step) && ReadStillTrue(s)
    ensures OfChild(step) ==> Waiting(ChildStep(s, step)) == Waiting(s)
    ensures !OfChild(step) ==>
              var t := DiscoveryStep(s, step);
              Waiting(t) == Waiting(s) + if step.DrainReleased? then t.queue else []
  {
    hide Fresh, Accounted, Held;
    if step.DrainReleased? {
      var t := DiscoveryStep(s, step);
      assert s.queue == [] && t.loop == s.loop && t.pending == s.pending;
      QueueAtTheEnd(s, t);
    }
  }

  lemma QueueAtTheEnd(s: Sys, t: Sys)
    requires s.queue == [] && t.loop == s.loop && t.pending == s.pending
    ensures Waiting(t) == Waiting(s) + t.queue
  {
    match s.loop {
      case Top =>
      case Waiting =>
      case Draining(left, kept, _) => assert kept + left + s.queue + t.queue == kept + left + t.queue;
      case Trying(issue, FromPending(left, kept, _), _) =>
        assert kept + ([issue] + left + s.queue) + t.queue == kept + ([issue] + left + t.queue);
      case Trying(issue, FromChannel, _) =>
        assert s.pending + ([issue] + s.queue) + t.queue == s.pending + ([issue] + t.queue);
      case Received(issue) => assert s.pending + ([issue] + s.queue) + t.queue == s.pending + ([issue] + t.queue);
    }
  }

  // ----- conservation over runs -----

  /** What one step emits, and the issue whose starting it settles. */
  function Emits(max: nat, s: Sys, step: Step): seq<IssueId>
    requires Enabled(s, step)
  {
    if step.DrainReleased? then Apply(max, s, step).queue else []
  }

  function SettledBy(s: Sys, step: Step): seq<IssueId> {
    if Settles(s, step) && s.loop.Trying? then [s.loop.issue] else []
  }

  function Emitted(max: nat, s: Sys, steps: seq<Step>): seq<IssueId>
    requires Possible(max, s, steps)
    decreases |steps|
  {
    if steps == [] then [] else Emits(max, s, steps[0]) + Emitted(max, Apply(max, s, steps[0]), steps[1..])
  }

  function Settled(max: nat, s: Sys, steps: seq<Step>): seq<IssueId>
    requires Possible(max, s, steps)
    decreases |steps|
  {
    if steps == [] then [] else SettledBy(s, steps[0]) + Settled(max, Apply(max, s, steps[0]), steps[1..])
  }

  lemma LeavingCounts(from: seq<IssueId>, to: seq<IssueId>, id: IssueId)
    requires Leaves(from, to, id)
    ensures multiset(from) == multiset(to) + multiset{id}
  {
    var i :| 0 <= i < |from| && from[i] == id && to == from[..i] + from[i + 1..];
    var front, back := from[..i], from[i + 1..];
    assert from == front + ([id] + back);
    assert multiset(front + ([id] + back)) == multiset(front) + (multiset([id]) + multiset(back));
    assert multiset(front + back) == multiset(front) + multiset(back);
  }

  lemma StepConserves(max: nat, s: Sys, step: Step)
    requires Good(max, s) && Enabled(s, step)
    ensures multiset(Waiting(s)) + multiset(Emits(max, s, step))
         == multiset(Waiting(Apply(max, s, step))) + multiset(SettledBy(s, step))
  {
    hide Apply, Enabled, Good, Waiting, Settles, Leaves;
    StepInLine(max, s, step);
    if Settles(s, step) {
      LeavingCounts(Waiting(s), Waiting(Apply(max, s, step)), s.loop.issue);
    }
  }

  /** Two exchanges one after the other. */
  lemma Exchanges<T>(a: multiset<T>, gain: multiset<T>, b: multiset<T>, loss: multiset<T>, gains: multiset<T>,
                     c: multiset<T>, losses: multiset<T>)
    requires a + gain == b + loss && b + gains == c + losses
    ensures a + (gain + gains) == c + (loss + losses)
  {
    forall x ensures (a + (gain + gains))[x] == (c + (loss + losses))[x] {
      assert (a + gain)[x] == (b + loss)[x] && (b + gains)[x] == (c + losses)[x];
    }
  }

  /** Over all interleavings every emission is settled once or still in line: none is lost and none is doubled. */
  lemma {:induction false} EmissionsAreConserved(max: nat, s: Sys, steps: seq<Step>)
    requires Good(max, s) && Possible(max, s, steps)
    ensures multiset(Waiting(s)) + multiset(Emitted(max, s, steps))
         == multiset(Waiting(Run(max, s, steps))) + multiset(Settled(max, s, steps))
    decreases |steps|
  {
    hide Apply, Enabled, Good, Waiting, Emits, SettledBy;
    if steps != [] {
      var step, t, rest := steps[0], Apply(max, s, steps[0]), steps[1..];
      StepKeepsGood(max, s, step);
      StepConserves(max, s, step);
      EmissionsAreConserved(max, t, rest);
      Exchanges(multiset(Waiting(s)), multiset(Emits(max, s, step)), multiset(Waiting(t)), multiset(SettledBy(s, step)),
          multiset(Emitted(max, t, rest)), multiset(Waiting(Run(max, t, rest))), multiset(Settled(max, t, rest)));
    }
  }
}
