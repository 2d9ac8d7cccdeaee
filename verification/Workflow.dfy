/**
  The workflow as the program runs it, each method against its specification (jiradozer/workflow.go,
  jiradozer/poller.go).
 */
module WorkflowProgram {
  import opened Common
  import opened WorkflowSteps
  import opened WorkflowSpec
  import opened WorkflowShape

  /** The issue tracker and the rest of the outside, as one run sees them. */
  class Tracker {
    const replies: Replies
    var labels: set<Label>
    var calls: nat
    ghost var writes: seq<Write>

    constructor (replies: Replies, labels: set<Label>, calls: nat)
      ensures this.replies == replies && Val() == Remote(labels, calls, [])
    {
      this.replies := replies;
      this.labels, this.calls, this.writes := labels, calls, [];
    }

    ghost function Val(): Remote
      reads this
    {
      Remote(labels, calls, writes)
    }

    /** Any call that changes no label. */
    method Ask() returns (r: Reply)
      modifies this
      ensures r == replies(old(calls)) && Val() == old(Val()).Touch(replies)
    {
      r := replies(calls);
      calls := calls + 1;
      if r.edited.Some? {
        labels := r.edited.value;
      }
    }

    method AddLabel(l: Label) returns (ok: bool)
      modifies this
      ensures ok == old(Val()).Answered(replies) && Val() == old(Val()).Add(replies, l)
    {
      var r := Ask();
      if r.ok || r.applied {
        labels := labels + {l};
        writes := writes + [Added(l)];
      }
      ok := r.ok;
    }

    method RemoveLabel(l: Label) returns (ok: bool)
      modifies this
      ensures ok == old(Val()).Answered(replies) && Val() == old(Val()).Remove(replies, l)
    {
      var r := Ask();
      if r.ok || r.applied {
        labels := labels - {l};
        writes := writes + [Removed(l)];
      }
      ok := r.ok;
    }
  }

  method LatestFeedbackComment(comments: seq<Comment>, exclude: seq<CommentId>) returns (latest: Option<Comment>)
    ensures latest == Latest(comments, exclude)
  {
    var i := |comments|;
    assert comments[..i] == comments;
    while i > 0
      invariant 0 <= i <= |comments|
      invariant Latest(comments, exclude) == Latest(comments[..i], exclude)
    {
      assert comments[..i][..i - 1] == comments[..i - 1];
      i := i - 1;
      if comments[i].id !in exclude {
        return Some(comments[i]);
      }
    }
    return None;
  }

  /** The polling loop over the batches fetched before the context ended. */
  method PollForFeedback(batches: seq<Option<seq<Comment>>>, since: Option<Time>, exclude: seq<CommentId>)
    returns (feedback: Option<Comment>)
    ensures feedback == Poll(batches, since, exclude)
  {
    for i := 0 to |batches|
      invariant Poll(batches, since, exclude) == Poll(batches[i..], since, exclude)
    {
      assert batches[i..][1..] == batches[i + 1..];
      if batches[i].None? {
        continue;
      }
      var latest := LatestFeedbackComment(Fetched(batches[i].value, since), exclude);
      if latest.Some? {
        return latest;
      }
    }
    return None;
  }

  class Workflow {
    const config: Config
    const state: StateMachine
    const tracker: Tracker
    var phases: map<Phase, PhaseState>
    var skipPhaseSources: map<Phase, SkipSource>
    var redoCounts: map<Step, nat>
    var approveAllRemaining: bool
    var botCommentIDs: seq<CommentId>
    var lastCommentAt: Option<Time>
    var lastLabels: set<Label>
    ghost var ran: seq<Step> // the steps whose agent ran

    ghost function Val(): W
      reads this, state, tracker
    {
      var thread := Thread(botCommentIDs, lastCommentAt);
      W(state.Val(), phases, skipPhaseSources, redoCounts, approveAllRemaining, thread, lastLabels, tracker.Val(), ran)
    }

    constructor (config: Config, tracker: Tracker, labels: set<Label>)
      ensures this.config == config && this.tracker == tracker && fresh(state)
      ensures Val() == Initial(config, labels, tracker.Val())
    {
      this.config := config;
      this.tracker := tracker;
      state := new StateMachine();
      phases, redoCounts, approveAllRemaining, lastLabels := map[], map[], false, labels;
      botCommentIDs, lastCommentAt := [], None;
      skipPhaseSources := map[];
      ran := [];
      new;
      var left := config.skip;
      while left != {}
        invariant left <= config.skip
        invariant skipPhaseSources == map p | p in config.skip - left :: config.skipSource
        modifies this`skipPhaseSources
        decreases |left|
      {
        var p :| p in left;
        AddSkipPhase(p, config.skipSource);
        left := left - {p};
      }
      AddSkipPhasesFromLabels(labels);
      assert skipPhaseSources == Initial(config, labels, tracker.Val()).skips;
    }

    function State(p: Phase): PhaseState
      reads this
    {
      if p in phases then phases[p] else NotStarted
    }

    method AddSkipPhase(p: Phase, source: SkipSource)
      modifies this`skipPhaseSources
      ensures skipPhaseSources == AddSkip(old(skipPhaseSources), p, source)
    {
      if p in skipPhaseSources && Priority(skipPhaseSources[p]) > Priority(source) {
        return;
      }
      skipPhaseSources := skipPhaseSources[p := source];
    }

    /** Every skip label present, unless the command line outranks it. */
    method AddSkipPhasesFromLabels(labels: set<Label>)
      modifies this`skipPhaseSources
      ensures forall p :: p in skipPhaseSources <==> p in old(skipPhaseSources) || SkipLabel(p) in labels
      ensures forall p :: p in skipPhaseSources ==>
                skipPhaseSources[p] == if SkipLabel(p) in labels then AddSkip(old(skipPhaseSources), p, FromLabel)[p]
                                       else old(skipPhaseSources)[p]
    {
      var left := labels;
      while left != {}
        invariant left <= labels
        invariant forall p :: p in skipPhaseSources <==> p in old(skipPhaseSources) || SkipLabel(p) in labels - left
        invariant forall p :: p in skipPhaseSources ==>
                    skipPhaseSources[p] == if SkipLabel(p) in labels - left
                        then AddSkip(old(skipPhaseSources), p, FromLabel)[p]
                                           else old(skipPhaseSources)[p]
        decreases |left|
      {
        var l :| l in left;
        if l.SkipLabel? {
          AddSkipPhase(l.phase, FromLabel);
        }
        left := left - {l};
      }
    }

    method ReconcileSkipPhasesFromLabels(labels: set<Label>)
      modifies this`skipPhaseSources
      ensures skipPhaseSources == Reconciled(config, old(skipPhaseSources), labels)
    {
      ghost var before := skipPhaseSources;
      var left := skipPhaseSources.Keys;
      while left != {}
        invariant left <= before.Keys
        invariant forall p :: p in skipPhaseSources <==>
                    p in before && (p in left || before[p] != FromLabel || SkipLabel(p) in labels || p in config.skip)
        invariant forall p :: p in skipPhaseSources ==>
                    skipPhaseSources[p] == if p !in left && before[p] == FromLabel && SkipLabel(p) !in labels
                                           then config.skipSource else before[p]
        decreases |left|
      {
        var p :| p in left;
        left := left - {p};
        if skipPhaseSources[p] != FromLabel || SkipLabel(p) in labels {
          continue;
        }
        if p in config.skip {
          skipPhaseSources := skipPhaseSources[p := config.skipSource];
        } else {
          skipPhaseSources := skipPhaseSources - {p};
        }
      }
      AddSkipPhasesFromLabels(labels);
    }

    method RefreshLabels() returns (labels: set<Label>)
      modifies this, tracker
      ensures Val() == Refresh(tracker.replies, old(Val())) && labels == lastLabels
    {
      var r := tracker.Ask();
      if r.ok {
        lastLabels := tracker.labels;
      }
      labels := lastLabels;
    }

    method EnterPhase(p: Phase)
      modifies this, tracker
      ensures Val() == Enter(tracker.replies, old(Val()), p)
    {
      if State(p) != NotStarted {
        return;
      }
      var ok := tracker.AddLabel(InProgressLabel(p));
      if !ok {
        return;
      }
      phases := phases[p := InProgress];
    }

    method CompletePhase(p: Phase)
      modifies this, tracker
      ensures Val() == Complete(tracker.replies, old(Val()), p)
    {
      if State(p) == Completed {
        return;
      }
      var ok := tracker.AddLabel(DoneLabel(p));
      if !ok {
        return;
      }
      var _ := tracker.RemoveLabel(InProgressLabel(p));
      phases := phases[p := Completed];
    }

    method CompletePriorPhases(current: Phase)
      modifies this, tracker
      ensures Val() == CompleteEach(tracker.replies, old(Val()), PHASES[..Number(current)])
    {
      ghost var n := Number(current);
      var i := 0;
      while i < |PHASES|
        invariant 0 <= i <= n
        invariant CompleteEach(tracker.replies, Val(), PHASES[i..n])
            == CompleteEach(tracker.replies, old(Val()), PHASES[..n])
      {
        if PHASES[i] == current {
          assert i == n;
          return;
        }
        assert PHASES[i..n] == [PHASES[i]] + PHASES[i + 1..n];
        if State(PHASES[i]) != Completed {
          CompletePhase(PHASES[i]);
        }
        i := i + 1;
      }
    }

    method CleanupStalePhaseLabels()
      modifies this, tracker
      ensures Val() == CleanupStale(tracker.replies, old(Val()))
    {
      hide ClearStale;
      var labels := RefreshLabels();
      for i := 0 to |PHASES|
        invariant RemoveStale(tracker.replies, Val(), labels, PHASES[i..]) == CleanupStale(tracker.replies, old(Val()))
      {
        assert PHASES[i..] == [PHASES[i]] + PHASES[i + 1..];
        ClearStaleLabel(PHASES[i], labels);
      }
    }

    method ClearStaleLabel(p: Phase, labels: set<Label>)
      modifies this, tracker
      ensures Val() == ClearStale(tracker.replies, old(Val()), labels, p)
    {
      if State(p) == Completed && InProgressLabel(p) in labels {
        var _ := tracker.RemoveLabel(InProgressLabel(p));
      }
    }

    /** One phase of the skipping loop. */
    method SkipCurrentPhase(p: Phase, labels: set<Label>)
      modifies this, state, tracker
      ensures Val() == SkipPhase(tracker.replies, old(Val()), labels, p)
    {
      if InProgressLabel(p) in labels || State(p) == InProgress {
        var _ := tracker.RemoveLabel(InProgressLabel(p));
      }
      phases := phases[p := Completed];
      var next := PhaseAfter(p);
      state.ForceState(if next.None? then Done else StartStep(next.value));
    }

    method SkipCompletedOrConfiguredPhases()
      modifies this, state, tracker
      ensures Val() == SkipCompleted(config, tracker.replies, old(Val()))
    {
      hide SkipPhase, Reconciled;
      var labels := RefreshLabels();
      ReconcileSkipPhasesFromLabels(labels);
      while true
        invariant SkipForward(tracker.replies, Val(), labels) == SkipCompleted(config, tracker.replies, old(Val()))
        decreases 13 - Rank(state.step)
      {
        var phase := PhaseForStep(state.step);
        if phase.None? || (DoneLabel(phase.value) !in labels && phase.value !in skipPhaseSources) {
          return;
        }
        SkipCurrentPhase(phase.value, labels);
      }
    }

    method EnterCurrentPhase()
      modifies this, tracker
      ensures Val() == EnterCurrent(tracker.replies, old(Val()))
    {
      var phase := PhaseForStep(state.step);
      if phase.Some? {
        EnterPhase(phase.value);
      }
    }

    method HandlePhaseBoundary()
      modifies this, state, tracker
      ensures Val() == Boundary(config, tracker.replies, old(Val()))
    {
      hide CompleteEach, Complete, CleanupStale, SkipCompleted, EnterCurrent;
      if state.step == Done {
        CompletePriorPhases(Ship);
        assert PHASES[..3] == [Plan, Build, Validate];
        if State(Ship) != Completed {
          CompletePhase(Ship);
        } else {
          AlreadyComplete(tracker.replies, Val(), Ship);
        }
        CleanupStalePhaseLabels();
        return;
      }
      var phase := PhaseForStep(state.step);
      if phase.Some? {
        CompletePriorPhases(phase.value);
      }
      SkipCompletedOrConfiguredPhases();
      EnterCurrentPhase();
    }

    static lemma AlreadyComplete(rs: Replies, w: W, p: Phase)
      requires w.State(p) == Completed
      ensures Complete(rs, w, p) == w
    {
    }

    method Transition(to: Step, trigger: Trigger) returns (ok: bool)
      modifies state
      ensures ok == Allowed(old(Val()).Step(), to) && Val() == old(Val()).Move(to, trigger)
    {
      ok := state.Transition(to, trigger);
    }

    method ForceTransition(to: Step)
      modifies state
      ensures Val() == old(Val()).Force(to)
    {
      state.ForceState(to);
    }

    method Fail()
      modifies state
      ensures Val() == WorkflowSpec.Fail(old(Val()))
    {
      hide Val;
      var ok := Transition(Failed, Error);
      if !ok {
        ForceTransition(Failed);
      }
    }

    method RewindPhase(p: Phase)
      modifies this, tracker
      ensures Val() == Rewind(tracker.replies, old(Val()), p)
    {
      var prior := State(p);
      if prior == InProgress {
        var _ := tracker.RemoveLabel(InProgressLabel(p));
      }
      if prior == Completed {
        var _ := tracker.RemoveLabel(DoneLabel(p));
      }
      phases := phases[p := NotStarted];
    }

    method ReopenTargetPhase(p: Phase)
      modifies this, tracker
      ensures Val() == ReopenTarget(tracker.replies, old(Val()), p)
    {
      if State(p) == Completed {
        var _ := tracker.RemoveLabel(DoneLabel(p));
      }
      phases := phases[p := NotStarted];
      EnterPhase(p);
    }

    method ReopenPhaseOnRedo(target: Step)
      modifies this, tracker
      ensures Val() == Reopen(tracker.replies, old(Val()), target)
    {
      hide Rewind, ReopenTarget, Val;
      var phase := PhaseForStep(target);
      if phase.None? {
        return;
      }
      var p := phase.value;
      ReopenTargetPhase(p);
      for i := Number(p) + 1 to |PHASES|
        invariant RewindEach(tracker.replies, Val(), PHASES[i..]) == Reopen(tracker.replies, old(Val()), target)
      {
        assert PHASES[i..] == [PHASES[i]] + PHASES[i + 1..];
        RewindPhase(PHASES[i]);
      }
    }

    /** The circuit breaker's count. */
    method ChargeRedo(target: Step) returns (count: nat)
      modifies this
      ensures Val() == Charge(old(Val()), target) && count == Val().Redos(target)
    {
      approveAllRemaining := false;
      count := (if target in redoCounts then redoCounts[target] else 0) + 1;
      redoCounts := redoCounts[target := count];
    }

    /** tryRedo, and the failure its callers make of an error. */
    method TryRedo(target: Step)
      modifies this, state, tracker
      ensures Val() == WorkflowSpec.TryRedo(config, tracker.replies, old(Val()), target)
    {
      hide Reopen, SkipCompleted, WorkflowSpec.Fail, Allowed, Val, Charge, W.Redos;
      var count := ChargeRedo(target);
      if count > config.maxRedos {
        Fail();
        return;
      }
      var ok := Transition(target, Redo);
      if !ok {
        Fail();
        return;
      }
      ReopenPhaseOnRedo(target);
      SkipCompletedOrConfiguredPhases();
    }

    method ApproveTransition(target: Step, trigger: Trigger) returns (ok: bool)
      modifies this, state, tracker
      ensures ok == Allowed(old(Val()).Step(), target)
      ensures Val() == Approve(config, tracker.replies, old(Val()), target, trigger)
    {
      hide Boundary, WorkflowSpec.Fail, Allowed, Val;
      ok := Transition(target, trigger);
      if !ok {
        Fail();
        return;
      }
      HandlePhaseBoundary();
    }

    method ApplyApproveAll(c: Comment, approve: Step)
      modifies this, state, tracker
      ensures var t := Approve(config, tracker.replies, old(Val()), approve, ApprovedAll(c));
              Val() == if Allowed(old(Val()).Step(), approve) then t.(approveAll := true) else t
    {
      hide Approve, Allowed;
      var ok := ApproveTransition(approve, ApprovedAll(c));
      if ok {
        approveAllRemaining := true;
      }
    }

    method HandleReviewFeedback(c: Comment, approve: Step, redo: Step)
      modifies this, state, tracker
      ensures Val() == HandleFeedback(config, tracker.replies, old(Val()), c, approve, redo)
    {
      hide Approve, WorkflowSpec.TryRedo, Allowed, Val;
      if c.action == SaysApprove {
        var _ := ApproveTransition(approve, Approved(c));
      } else if c.action == SaysApproveAll {
        ApplyApproveAll(c, approve);
      } else {
        TryRedo(redo);
      }
    }

    predicate ShouldAutoApprove(s: Step)
      reads this
    {
      IsReview(s) && (approveAllRemaining || ConfigAutoApproves(config, s))
    }

    method FetchImmediateFeedback(reply: Reply) returns (c: Option<Comment>)
      ensures c == if reply.ok then Latest(Fetched(reply.comments, lastCommentAt), botCommentIDs) else None
    {
      if !reply.ok {
        return None;
      }
      c := LatestFeedbackComment(Fetched(reply.comments, lastCommentAt), botCommentIDs);
    }

    /** What the gate hears: an auto-approving gate looks once, any other polls and remembers the comment's time. */
    method AwaitFeedback() returns (verdict: Verdict)
      modifies this`lastCommentAt, tracker
      ensures verdict == Listen(config, tracker.replies, old(Val()))
      ensures Val() == Asked(config, tracker.replies, old(Val()))
    {
      hide Latest, Poll, Fetched, ConfigAutoApproves, IsReview;
      var reply := tracker.Ask();
      if ShouldAutoApprove(state.step) {
        if lastCommentAt.None? {
          lastCommentAt := Some(reply.now);
        }
        var c := FetchImmediateFeedback(reply);
        return if c.Some? then Heard(c.value) else Auto;
      }
      var c := PollForFeedback(reply.batches, lastCommentAt, botCommentIDs);
      if c.None? {
        return Nothing;
      }
      lastCommentAt := Some(c.value.at);
      return Heard(c.value);
    }

    method RunReview(approve: Step, redo: Step)
      modifies this, state, tracker
      ensures Val() == WorkflowSpec.RunReview(config, tracker.replies, old(Val()), approve, redo)
    {
      hide Approve, HandleFeedback, Listen, Asked, WorkflowSpec.Fail, Val, Allowed;
      var verdict := AwaitFeedback();
      match verdict {
        case Auto =>
          var _ := ApproveTransition(approve, AutoApproved);
        case Heard(c) =>
          HandleReviewFeedback(c, approve, redo);
        case Nothing =>
          Fail();
      }
    }

    /** The waiting comment, and a time to listen from if the step's own comment gave none. */
    method PostWaitingComment()
      modifies this`botCommentIDs, this`lastCommentAt, tracker
      ensures Val() == Announce(tracker.replies, old(Val()))
    {
      var reply := tracker.Ask();
      var waiting := reply.posted;
      if waiting.id.Some? {
        botCommentIDs := botCommentIDs + [waiting.id.value];
      }
      if lastCommentAt.None? {
        lastCommentAt := if waiting.at.Some? then waiting.at else Some(reply.now);
      }
    }

    method TransitionToReview(next: Step)
      modifies this, state, tracker
      ensures Val() == ToReview(config, tracker.replies, old(Val()), next)
    {
      hide Allowed, WorkflowSpec.Fail, IsReview, ConfigAutoApproves, Announce;
      var ok := Transition(next, StepComplete);
      if !ok {
        Fail();
        return;
      }
      if !IsReview(next) {
        return;
      }
      if ShouldAutoApprove(next) {
        return;
      }
      PostWaitingComment();
    }

    /** The loop over configured rounds: the first one that is cancelled, fails or cannot be reported stops the step. */
    method RunRounds(rounds: seq<Round>) returns (res: StepResult)
      ensures res == AllRounds(rounds)
    {
      res := StepResult(false, [], None, false);
      assert rounds[0..] == rounds;
      for i := 0 to |rounds|
        invariant !res.failed && !res.noChange && (i < |rounds| ==> res.at == None)
        invariant AllRounds(rounds) == Joined(res, AllRounds(rounds[i..]))
      {
        assert rounds[i..][1..] == rounds[i + 1..];
        if rounds[i].cancelled || !rounds[i].ran {
          return res.(failed := true);
        }
        if !rounds[i].rendered {
          return res.(failed := true);
        }
        res := res.(ids := res.ids + rounds[i].posted.Ids());
        if i == |rounds| - 1 {
          res := res.(at := rounds[i].posted.at);
        }
      }
      assert rounds[|rounds|..] == [] && res.ids + [] == res.ids;
    }

    /** What the rounds so far and the rest come to. */
    static function Joined(sofar: StepResult, rest: StepResult): StepResult {
      rest.(ids := sofar.ids + rest.ids, at := if sofar.at.Some? then sofar.at else rest.at)
    }

    /** One session: an unchanged build skips the comment. */
    method RunSession(s: Step, reply: StepReply) returns (res: StepResult)
      requires reply.Session?
      ensures res == Outcome(s, reply)
    {
      if !reply.ran {
        return StepResult(true, [], None, false);
      }
      if s == Building && reply.noChange {
        return StepResult(false, [], None, true);
      }
      if !reply.rendered {
        return StepResult(true, [], None, false);
      }
      return StepResult(false, reply.posted.Ids(), reply.posted.at, reply.noChange);
    }

    /** One session or configured rounds. */
    method RunAgents(s: Step, reply: StepReply) returns (res: StepResult)
      ensures res == Outcome(s, reply)
    {
      if reply.Session? {
        res := RunSession(s, reply);
      } else {
        res := RunRounds(reply.rounds);
        res := res.(noChange := reply.noChange);
      }
    }

    /** The step's agents run, with nothing of an earlier step left to exclude or to listen from. */
    method RunStepAgent() returns (res: StepResult)
      modifies this, tracker
      ensures res == Outcome(old(Val()).Step(), tracker.replies(old(Val()).remote.calls).agent)
      ensures Val() == Stepped(tracker.replies, old(Val()))
    {
      hide Outcome;
      ran := ran + [state.step];
      lastCommentAt := None;
      botCommentIDs := [];
      var reply := tracker.Ask();
      res := RunAgents(state.step, reply.agent);
      botCommentIDs := res.ids;
      lastCommentAt := res.at;
    }

    /** runStep and runStepRounds. */
    method RunStep(next: Step)
      modifies this, state, tracker
      ensures Val() == RunAgent(config, tracker.replies, old(Val()), next)
    {
      hide Boundary, ToReview, Allowed, WorkflowSpec.Fail, Val, Outcome, Stepped;
      var current := CurrentStep();
      var result := RunStepAgent();
      if result.failed {
        Fail();
        return;
      }
      if current == Building && result.noChange {
        ForceTransition(Done);
        HandlePhaseBoundary();
        return;
      }
      TransitionToReview(next);
    }

    function CurrentStep(): (s: Step)
      reads this, state, tracker
      ensures s == Val().Step()
    {
      state.step
    }

    /** Run's switch, for the steps it has a case for. */
    method Dispatch()
      requires Runs(state.step)
      modifies this, state, tracker
      ensures Val() == Iterate(config, tracker.replies, old(Val()))
    {
      hide RunAgent, WorkflowSpec.RunReview;
      match state.step {
        case Planning => RunStep(PlanReview);
        case PlanReview => RunReview(Building, Planning);
        case Building => RunStep(CreatingPR);
        case CreatingPR => RunStep(BuildReview);
        case BuildReview => RunReview(Validating, Building);
        case Validating => RunStep(ValidateReview);
        case ValidateReview => RunReview(Shipping, Validating);
        case Shipping => RunStep(ShipReview);
        case ShipReview => RunReview(Done, Shipping);
      }
    }

    method Run() returns (ending: Ending)
      modifies this, state, tracker
      ensures (Val(), ending) == WorkflowShape.Run(config, tracker.replies, old(Val()))
    {
      hide Iterate, SkipCompleted, EnterCurrent, Budget;
      var resolved := tracker.Ask();
      if !resolved.ok {
        return NotResolved;
      }
      var ok := state.Transition(Planning, Start);
      if !ok {
        return StartRejected;
      }
      SkipCompletedOrConfiguredPhases();
      EnterCurrentPhase();
      while true
        invariant Loop(config, tracker.replies, Val()) == WorkflowShape.Run(config, tracker.replies, old(Val()))
        decreases Budget(config, Val()), 13 - Rank(state.step)
      {
        ghost var w := Val();
        var reply := tracker.Ask();
        SameBudget(config, w, Val());
        if reply.cancelled {
          return Interrupted;
        }
        if state.step == Done {
          return Returned;
        }
        if state.step == Failed {
          return Broke;
        }
        if !Runs(state.step) {
          return Unexpected;
        }
        Progress(config, tracker.replies, Val());
        Dispatch();
      }
    }
  }
}
