/**
  The phases behind, at and ahead of the current step, whatever others do to the labels: the phases ahead are untouched,
  no -done label is ever removed, and a phase the configuration skips never runs (jiradozer/workflow.go).
 */
module PhaseOrder {
  import opened Common
  import opened WorkflowSteps
  import opened WorkflowSpec
  import opened WorkflowShape

  /** Where the run is, as a phase number: 0 before the start, 4 at the end. Failure keeps no position. */
  function Position(s: Step): nat {
    match Home(s)
    case Some(p) => Number(p)
    case None => if s == Init then 0 else 4
  }

  /** The current phase is not done, and later ones are not started. */
  predicate PhaseAhead(w: W, p: Phase) {
    && (Position(w.Step()) <= Number(p) ==> w.State(p) != Completed)
    && (Position(w.Step()) < Number(p) ==> w.State(p) == NotStarted)
  }

  ghost predicate NotPassed(w: W) {
    forall p :: PhaseAhead(w, p)
  }

  /** The workflow adds its bookkeeping labels and removes only -inprogress labels. */
  predicate GoodWrite(x: Write) {
    match x
    case Added(l) => l.InProgressLabel? || l.DoneLabel?
    case Removed(l) => l.InProgressLabel?
  }

  ghost predicate GoodWrites(w: W) {
    forall x :: x in w.remote.writes ==> GoodWrite(x)
  }

  ghost predicate Orderly(w: W) {
    NotPassed(w) && GoodWrites(w)
  }

  /** The phases the configuration skips stay on the skip list. */
  predicate SkipsKept(cfg: Config, w: W) {
    cfg.skip <= w.skips.Keys
  }

  // ----- label operations -----

  lemma EnterOrderly(rs: Replies, w: W, p: Phase)
    requires Orderly(w) && Position(w.Step()) == Number(p)
    ensures Orderly(Enter(rs, w, p))
  {
    hide Position;
    var t := Enter(rs, w, p);
    forall q ensures PhaseAhead(t, q) {
      assert PhaseAhead(w, q);
    }
  }

  lemma EnterCurrentOrderly(rs: Replies, w: W)
    requires Orderly(w)
    ensures Orderly(EnterCurrent(rs, w))
  {
    hide Orderly, Enter;
    if PhaseForStep(w.Step()).Some? {
      EnterOrderly(rs, w, PhaseForStep(w.Step()).value);
    }
  }

  lemma CompleteOrderly(rs: Replies, w: W, p: Phase)
    requires Orderly(w) && Number(p) < Position(w.Step())
    ensures Orderly(Complete(rs, w, p))
  {
    hide Position;
    var t := Complete(rs, w, p);
    forall q ensures PhaseAhead(t, q) {
      assert PhaseAhead(w, q);
    }
  }

  lemma {:induction false} CompleteEachOrderly(rs: Replies, w: W, ps: seq<Phase>)
    requires Orderly(w) && forall p :: p in ps ==> Number(p) < Position(w.Step())
    ensures Orderly(CompleteEach(rs, w, ps))
    decreases |ps|
  {
    hide Orderly, Complete, Position;
    if ps != [] {
      CompleteOrderly(rs, w, ps[0]);
      CompleteEachOrderly(rs, Complete(rs, w, ps[0]), ps[1..]);
    }
  }

  lemma PhasesBefore(p: Phase)
    ensures forall q :: q in PHASES[..Number(p)] <==> Number(q) < Number(p)
    ensures forall q :: q in PHASES[Number(p) + 1..] <==> Number(p) < Number(q)
  {
    forall q
      ensures q in PHASES[..Number(p)] <==> Number(q) < Number(p)
      ensures q in PHASES[Number(p) + 1..] <==> Number(p) < Number(q)
    {
      assert q == PHASES[Number(q)];
    }
  }

  lemma CompletePriorOrderly(rs: Replies, w: W)
    requires Orderly(w)
    ensures Orderly(CompletePrior(rs, w))
  {
    hide Orderly, CompleteEach;
    if PhaseForStep(w.Step()).Some? {
      PhasesBefore(PhaseForStep(w.Step()).value);
      CompleteEachOrderly(rs, w, PHASES[..Number(PhaseForStep(w.Step()).value)]);
    }
  }

  lemma {:induction false} RemoveStaleOrderly(rs: Replies, w: W, labels: set<Label>, ps: seq<Phase>)
    requires GoodWrites(w)
    ensures GoodWrites(RemoveStale(rs, w, labels, ps))
    decreases |ps|
  {
    if ps != [] {
      var t := if w.State(ps[0]) == Completed && InProgressLabel(ps[0]) in labels
               then w.(remote := w.remote.Remove(rs, InProgressLabel(ps[0]))) else w;
      RemoveStaleOrderly(rs, t, labels, ps[1..]);
    }
  }

  lemma AtDoneOrderly(rs: Replies, w: W)
    requires Orderly(w) && w.Step() == Done
    ensures Orderly(AtDone(rs, w))
  {
    hide Complete, CompleteEach, RemoveStale, GoodWrite;
    CompleteEachOrderly(rs, w, [Plan, Build, Validate]);
    var t := CompleteEach(rs, w, [Plan, Build, Validate]);
    CompleteOrderly(rs, t, Ship);
    var u := Refresh(rs, Complete(rs, t, Ship));
    RemoveStaleOrderly(rs, u, u.lastLabels, PHASES);
  }

  lemma SkipPhaseOrderly(rs: Replies, w: W, labels: set<Label>, p: Phase)
    requires Orderly(w) && PhaseForStep(w.Step()) == Some(p)
    ensures Orderly(SkipPhase(rs, w, labels, p))
  {
    var t := SkipPhase(rs, w, labels, p);
    forall q ensures PhaseAhead(t, q) {
      assert PhaseAhead(w, q);
    }
  }

  lemma {:induction false} SkipForwardOrderly(rs: Replies, w: W, labels: set<Label>)
    requires Orderly(w)
    ensures Orderly(SkipForward(rs, w, labels))
    ensures !ToSkip(SkipForward(rs, w, labels), labels)
    decreases 13 - Rank(w.Step())
  {
    hide Orderly;
    if ToSkip(w, labels) {
      var p := PhaseForStep(w.Step()).value;
      SkipPhaseOrderly(rs, w, labels, p);
      SkipForwardOrderly(rs, SkipPhase(rs, w, labels, p), labels);
    }
  }

  lemma ReconcilingKeepsSkips(cfg: Config, skips: map<Phase, SkipSource>, labels: set<Label>)
    ensures cfg.skip <= skips.Keys ==> cfg.skip <= Reconciled(cfg, skips, labels).Keys
  {
  }

  lemma SkipCompletedOrderly(cfg: Config, rs: Replies, w: W)
    requires Orderly(w)
    ensures var t := SkipCompleted(cfg, rs, w);
            Orderly(t) && !ToSkip(t, t.lastLabels) && (SkipsKept(cfg, w) ==> SkipsKept(cfg, t))
  {
    hide SkipForward, Reconciled, GoodWrite;
    var t := Refresh(rs, w);
    var u := t.(skips := Reconciled(cfg, t.skips, t.lastLabels));
    ReconcilingKeepsSkips(cfg, w.skips, t.lastLabels);
    assert NotPassed(u) by {
      forall p ensures PhaseAhead(u, p) {
        assert PhaseAhead(w, p);
      }
    }
    SkipForwardOrderly(rs, u, u.lastLabels);
  }

  lemma BoundaryOrderly(cfg: Config, rs: Replies, w: W)
    requires Orderly(w)
    ensures var t := Boundary(cfg, rs, w);
            Orderly(t) && (w.Step() == Done || !ToSkip(t, t.lastLabels)) && (SkipsKept(cfg, w) ==> SkipsKept(cfg, t))
  {
    hide Orderly, AtDone, SkipCompleted, CompletePrior, EnterCurrent;
    if w.Step() == Done {
      AtDoneOrderly(rs, w);
    } else {
      CompletePriorOrderly(rs, w);
      SkipCompletedOrderly(cfg, rs, CompletePrior(rs, w));
      EnterCurrentOrderly(rs, SkipCompleted(cfg, rs, CompletePrior(rs, w)));
    }
  }

  lemma {:induction false} RewindEachOrderly(rs: Replies, w: W, ps: seq<Phase>)
    requires Orderly(w) && forall p :: p in ps ==> Position(w.Step()) < Number(p)
    ensures Orderly(RewindEach(rs, w, ps))
    decreases |ps|
  {
    hide Position, GoodWrite;
    if ps != [] {
      assert PhaseAhead(w, ps[0]);
      var t := Rewind(rs, w, ps[0]);
      forall q ensures PhaseAhead(t, q) {
        assert PhaseAhead(w, q);
      }
      RewindEachOrderly(rs, t, ps[1..]);
    }
  }

  /** A redo reopens the phase it is in; so the -done removals of reopenPhaseOnRedo never happen. */
  lemma ReopenOrderly(rs: Replies, w: W, target: Step)
    requires Orderly(w) && w.Step() == target
    ensures Orderly(Reopen(rs, w, target))
  {
    hide RewindEach, GoodWrite, Enter;
    if PhaseForStep(target).Some? {
      var p := PhaseForStep(target).value;
      assert PhaseAhead(w, p);
      var t := w.Mark(p, NotStarted);
      forall q ensures PhaseAhead(t, q) {
        assert PhaseAhead(w, q);
      }
      EnterOrderly(rs, t, p);
      PhasesBefore(p);
      RewindEachOrderly(rs, Enter(rs, t, p), PHASES[Number(p) + 1..]);
    }
  }

  /** Moving on without touching phases or labels. */
  lemma MovingOrderly(w: W, t: W)
    requires Orderly(w) && t.phases == w.phases && t.remote.writes == w.remote.writes
    requires Position(w.Step()) <= Position(t.Step())
    ensures Orderly(t)
  {
    hide Position, GoodWrite;
    forall p ensures PhaseAhead(t, p) {
      assert PhaseAhead(w, p);
    }
  }

  // ----- one pass -----

  /** Nothing of a phase the configuration skips has run or is about to. */
  ghost predicate SkipsObeyed(cfg: Config, w: W) {
    && (forall s :: s in w.ran && PhaseForStep(s).Some? ==> PhaseForStep(s).value !in cfg.skip)
    && (Home(w.Step()).Some? ==> Home(w.Step()).value !in cfg.skip)
  }

  ghost predicate InOrder(cfg: Config, w: W) {
    Orderly(w) && SkipsKept(cfg, w) && SkipsObeyed(cfg, w)
  }

  /** A step where nothing is to be skipped is in none of the skipped phases. */
  lemma NotToSkip(cfg: Config, w: W)
    requires SkipsKept(cfg, w) && !ToSkip(w, w.lastLabels) && (PhaseForStep(w.Step()) == Home(w.Step()))
    ensures Home(w.Step()).Some? ==> Home(w.Step()).value !in cfg.skip
  {
  }

  lemma AgentInOrder(cfg: Config, rs: Replies, w: W)
    requires Runs(w.Step()) && !IsReview(w.Step()) && InOrder(cfg, w)
    ensures InOrder(cfg, RunAgent(cfg, rs, w, Next(w.Step())))
  {
    hide AtDone, InOrder, ToReview, Next, Allowed, Outcome, Stepped, PhaseForStep;
    var ran := Stepped(rs, w);
    AgentLeadsOn(w.Step());
    StayingInOrder(cfg, w, ran);
    var res := Outcome(w.Step(), rs(w.remote.calls).agent);
    if res.failed {
      StayingInOrder(cfg, ran, Fail(ran));
    } else if w.Step() == Building && res.noChange {
      StayingInOrder(cfg, ran, ran.Force(Done));
      AtDoneInOrder(cfg, rs, ran.Force(Done));
    } else {
      ToReviewStays(cfg, rs, ran, Next(w.Step()));
      StayingInOrder(cfg, ran, ToReview(cfg, rs, ran, Next(w.Step())));
    }
  }

  lemma ToReviewStays(cfg: Config, rs: Replies, w: W, next: Step)
    requires Allowed(w.Step(), next)
    ensures var t := ToReview(cfg, rs, w, next);
            && t == w.(machine := w.machine.Transition(next, StepComplete), remote := t.remote, thread := t.thread)
            && (t.remote == w.remote || t.remote == w.remote.Touch(rs))
  {
  }

  lemma AtDoneInOrder(cfg: Config, rs: Replies, w: W)
    requires InOrder(cfg, w) && w.Step() == Done
    ensures InOrder(cfg, AtDone(rs, w))
  {
    AtDoneOrderly(rs, w);
    hide AtDone, Orderly;
  }

  /** A move within the phase, or to the end, that touches no phase and no label. */
  lemma StayingInOrder(cfg: Config, w: W, t: W)
    requires InOrder(cfg, w) && t.phases == w.phases && t.remote.writes == w.remote.writes && t.skips == w.skips
    requires Home(t.Step()) == Home(w.Step()) || t.Step() == Done || t.Step() == Failed
    requires t.ran == w.ran || (t.ran == w.ran + [w.Step()] && PhaseForStep(w.Step()) == Home(w.Step()))
    requires w.Step() != Init && t.Step() != Init
    ensures InOrder(cfg, t)
  {
    MovingOrderly(w, t);
    hide Orderly;
  }

  lemma ApproveInOrder(cfg: Config, rs: Replies, w: W, trigger: Trigger)
    requires IsReview(w.Step()) && InOrder(cfg, w)
    ensures InOrder(cfg, Approve(cfg, rs, w, Next(w.Step()), trigger))
  {
    hide Chain, PhaseAhead;
    var m := w.Move(Next(w.Step()), trigger);
    MovingOrderly(w, m);
    BoundaryOrderly(cfg, rs, m);
    BoundaryJumps(cfg, rs, m);
    hide Boundary, Orderly, Chain;
    NotToSkipUnlessDone(cfg, m, Boundary(cfg, rs, m));
  }

  lemma NotToSkipUnlessDone(cfg: Config, m: W, t: W)
    requires Jumps(m.machine, t.machine) && (PhaseForStep(m.Step()) == Home(m.Step()))
    requires SkipsKept(cfg, t) && (m.Step() == Done || !ToSkip(t, t.lastLabels))
    ensures Home(t.Step()).Some? ==> Home(t.Step()).value !in cfg.skip
  {
    hide Chain;
    if m.Step() != Done {
      NotToSkip(cfg, t);
    }
  }

  lemma RedoInOrder(cfg: Config, rs: Replies, w: W)
    requires IsReview(w.Step()) && InOrder(cfg, w)
    ensures InOrder(cfg, TryRedo(cfg, rs, w, RedoTarget(w.Step())))
  {
    var target := RedoTarget(w.Step());
    var charged := Charge(w, target);
    var m := charged.Move(target, Redo);
    assert charged.Redos(target) == w.Redos(target) + 1;
    StayingInOrder(cfg, w, Fail(charged));
    StayingInOrder(cfg, w, m);
    hide InOrder, W.Redos, Fail, Charge;
    if w.Redos(target) < cfg.maxRedos {
      RedoingInOrder(cfg, rs, m, target);
    }
  }

  lemma RedoingInOrder(cfg: Config, rs: Replies, m: W, target: Step)
    requires InOrder(cfg, m) && m.Step() == target && IsStart(target)
    ensures InOrder(cfg, SkipCompleted(cfg, rs, Reopen(rs, m, target)))
  {
    ReopenOrderly(rs, m, target);
    SkipCompletedOrderly(cfg, rs, Reopen(rs, m, target));
    BoundaryJumps(cfg, rs, Reopen(rs, m, target));
    hide SkipCompleted, Reopen, Orderly, Chain;
    NotToSkipUnlessDone(cfg, Reopen(rs, m, target), SkipCompleted(cfg, rs, Reopen(rs, m, target)));
  }

  lemma ReviewInOrder(cfg: Config, rs: Replies, w: W)
    requires IsReview(w.Step()) && InOrder(cfg, w)
    ensures InOrder(cfg, RunReview(cfg, rs, w, Next(w.Step()), RedoTarget(w.Step())))
  {
    hide Approve, TryRedo, Listen, Orderly, Asked;
    var t := Asked(cfg, rs, w);
    MovingOrderly(w, t);
    match Listen(cfg, rs, w) {
      case Auto => ApproveInOrder(cfg, rs, t, AutoApproved);
      case Heard(c) =>
        ApproveInOrder(cfg, rs, t, Approved(c));
        ApproveInOrder(cfg, rs, t, ApprovedAll(c));
        var u := Approve(cfg, rs, t, Next(w.Step()), ApprovedAll(c));
        MovingOrderly(u, u.(approveAll := true));
        RedoInOrder(cfg, rs, t);
      case Nothing => StayingInOrder(cfg, t, Fail(t));
    }
  }

  lemma IterateInOrder(cfg: Config, rs: Replies, w: W)
    requires Runs(w.Step()) && InOrder(cfg, w)
    ensures InOrder(cfg, Iterate(cfg, rs, w))
  {
    hide RunAgent, RunReview, InOrder;
    if IsReview(w.Step()) {
      ReviewInOrder(cfg, rs, w);
    } else {
      AgentInOrder(cfg, rs, w);
    }
  }

  // ----- whole runs -----

  lemma BeginInOrder(cfg: Config, rs: Replies, w: W)
    requires Orderly(w) && SkipsKept(cfg, w) && w.machine == FRESH && w.ran == []
    ensures InOrder(cfg, Begin(cfg, rs, w))
  {
    var m := w.Move(Planning, Start);
    MovingOrderly(w, m);
    SkipCompletedOrderly(cfg, rs, m);
    BoundaryJumps(cfg, rs, m);
    hide SkipCompleted, EnterCurrent, Orderly, Chain;
    EnterCurrentOrderly(rs, SkipCompleted(cfg, rs, m));
    NotToSkipUnlessDone(cfg, m, SkipCompleted(cfg, rs, m));
  }

  lemma {:induction false} LoopInOrder(cfg: Config, rs: Replies, w: W)
    requires InOrder(cfg, w)
    ensures InOrder(cfg, Loop(cfg, rs, w).0)
    decreases Budget(cfg, w), 13 - Rank(w.Step())
  {
    var t := w.(remote := w.remote.Touch(rs));
    MovingOrderly(w, t);
    hide Iterate, Budget, Orderly;
    SameBudget(cfg, w, t);
    if !rs(w.remote.calls).cancelled && Runs(t.Step()) {
      Progress(cfg, rs, t);
      IterateInOrder(cfg, rs, t);
      LoopInOrder(cfg, rs, Iterate(cfg, rs, t));
    }
  }

  lemma InitialInOrder(cfg: Config, start: set<Label>, remote: Remote)
    requires remote.writes == []
    ensures Orderly(Initial(cfg, start, remote)) && SkipsKept(cfg, Initial(cfg, start, remote))
  {
  }

  /**
    Whatever the replies and whoever edits labels, a run removes no -done label, writes no label of its own but
    -inprogress and -done, and runs nothing of a phase the configuration skips.
   */
  lemma DoneLabelsStay(cfg: Config, rs: Replies, start: set<Label>, remote: Remote)
    requires remote.writes == []
    ensures var t := Run(cfg, rs, Initial(cfg, start, remote)).0;
            && (forall x :: x in t.remote.writes ==> GoodWrite(x))
            && (forall s :: s in t.ran && PhaseForStep(s).Some? ==> PhaseForStep(s).value !in cfg.skip)
  {
    var w := Initial(cfg, start, remote);
    var t := w.(remote := remote.Touch(rs));
    InitialInOrder(cfg, start, remote);
    MovingOrderly(w, t);
    hide Loop, Begin, NotPassed;
    if remote.Answered(rs) {
      BeginInOrder(cfg, rs, t);
      LoopInOrder(cfg, rs, Begin(cfg, rs, t));
    }
  }
}
