/**
  What one pass of the workflow's loop can do to its state machine, redo counts and agent runs, and the whole run as a
  recursion that this bounds (jiradozer/workflow.go).
 */
module WorkflowShape {
  import opened Common
  import opened WorkflowSteps
  import opened WorkflowSpec

  /** The phase a step belongs to, review gates included. */
  function Home(s: Step): Option<Phase> {
    match s
    case Planning => Some(Plan)
    case PlanReview => Some(Plan)
    case Building => Some(Build)
    case CreatingPR => Some(Build)
    case BuildReview => Some(Build)
    case Validating => Some(Validate)
    case ValidateReview => Some(Validate)
    case Shipping => Some(Ship)
    case ShipReview => Some(Ship)
    case _ => None
  }

  /** Where a step leads when nothing fails: the step after an agent, or the target of an approval. */
  function Next(s: Step): Step {
    match s
    case Planning => PlanReview
    case PlanReview => Building
    case Building => CreatingPR
    case CreatingPR => BuildReview
    case BuildReview => Validating
    case Validating => ValidateReview
    case ValidateReview => Shipping
    case Shipping => ShipReview
    case ShipReview => Done
    case _ => Failed
  }

  /** Where a redo leads: the start of the gate's own phase. */
  function RedoTarget(s: Step): Step {
    match Home(s) case Some(p) => StartStep(p) case None => Failed
  }

  /**
    The whole table: start with planning; every step may fail or lead on; a gate may also lead back to the start of its
    own phase, the build gate to planning, and the two later gates to building.
   */
  lemma TableMeaning(from: Step, to: Step)
    ensures Allowed(from, to) <==>
              || (from == Init && to == Planning)
              || (Runs(from) && (to == Failed || to == Next(from)))
              || (IsReview(from) && to == RedoTarget(from))
              || (from == BuildReview && to == Planning)
              || ((from == ValidateReview || from == ShipReview) && to == Building)
  {
  }

  predicate IsStart(s: Step) {
    s == Planning || s == Building || s == Validating || s == Shipping
  }

  /**
    A move is in the table, or is a forced jump, not from a gate, strictly forward to a phase's start or to the end.
   */
  predicate GoodMove(m: Move) {
    if m.trigger == Forced then Rank(m.from) < Rank(m.to) && !IsReview(m.from) && (m.to == Done || IsStart(m.to))
    else Allowed(m.from, m.to)
  }

  /** The history is an unbroken chain of good moves from Init to the current step. */
  ghost predicate Chain(m: Machine) {
    && (forall k :: 0 <= k < |m.history| ==> GoodMove(m.history[k]))
    && (forall k :: 0 < k < |m.history| ==> m.history[k].from == m.history[k - 1].to)
    && (if m.history == [] then m.step == Init
        else m.history[0].from == Init && m.history[|m.history| - 1].to == m.step)
  }

  /** b follows a by forced jumps alone. */
  ghost predicate Jumps(a: Machine, b: Machine) {
    && b.rejected == a.rejected
    && (Chain(a) ==> Chain(b))
    && a.history <= b.history
    && (forall k :: |a.history| <= k < |b.history| ==> b.history[k].trigger == Forced && GoodMove(b.history[k]))
    && (b.step == a.step || (Rank(a.step) < Rank(b.step) && (b.step == Done || IsStart(b.step))))
  }

  lemma JumpsTrans(a: Machine, b: Machine, c: Machine)
    requires Jumps(a, b) && Jumps(b, c)
    ensures Jumps(a, c)
  {
    hide Chain;
  }

  lemma ForcedJump(m: Machine, to: Step)
    requires Rank(m.step) < Rank(to) && !IsReview(m.step) && (to == Done || IsStart(to))
    ensures Jumps(m, m.ForceState(to))
  {
    assert GoodMove(Move(m.step, to, Forced));
  }

  lemma ChainStep(m: Machine, to: Step, trigger: Trigger)
    requires Chain(m) && Allowed(m.step, to) && trigger != Forced
    ensures Chain(m.Transition(to, trigger))
  {
  }

  lemma {:induction false} SkippingJumps(rs: Replies, w: W, labels: set<Label>)
    ensures Jumps(w.machine, SkipForward(rs, w, labels).machine)
    decreases 13 - Rank(w.Step())
  {
    hide Chain;
    if ToSkip(w, labels) {
      var p := PhaseForStep(w.Step()).value;
      var t := SkipPhase(rs, w, labels, p);
      ForcedJump(w.machine, t.Step());
      assert t.machine == w.machine.ForceState(t.Step());
      SkippingJumps(rs, t, labels);
      JumpsTrans(w.machine, t.machine, SkipForward(rs, t, labels).machine);
    }
  }

  lemma BoundaryJumps(cfg: Config, rs: Replies, w: W)
    ensures Jumps(w.machine, Boundary(cfg, rs, w).machine)
    ensures Jumps(w.machine, SkipCompleted(cfg, rs, w).machine)
  {
    hide Chain, SkipForward, AtDone, CompletePrior, EnterCurrent, Jumps, ToSkip, Reconciled, Refresh;
    SkippingIsSkipForward(cfg, rs, w);
    SkippingIsSkipForward(cfg, rs, CompletePrior(rs, w));
    if w.Step() == Done {
      ForcedNothing(w.machine);
    }
  }

  lemma ForcedNothing(m: Machine)
    ensures Jumps(m, m)
  {
  }

  lemma SkippingIsSkipForward(cfg: Config, rs: Replies, w: W)
    ensures Jumps(w.machine, SkipCompleted(cfg, rs, w).machine)
  {
    hide Chain, Jumps, SkipForward, Reconciled;
    var t := Refresh(rs, w);
    SkippingJumps(rs, t.(skips := Reconciled(cfg, t.skips, t.lastLabels)), t.lastLabels);
  }

  // ----- one pass -----

  predicate IsApproval(t: Trigger) {
    t.AutoApproved? || t.Approved? || t.ApprovedAll?
  }

  predicate Breaks(w: W, t: W) {
    t.machine == w.machine.Transition(Failed, Error)
  }

  /** An agent step: it fails, finds nothing to do, or leads on. */
  predicate AgentShape(w: W, t: W) {
    && t.ran == w.ran + [w.Step()]
    && t.redoCounts == w.redoCounts
    && t.approveAll == w.approveAll
    && (|| Breaks(w, t)
        || t.machine == w.machine.Transition(Next(w.Step()), StepComplete)
        || (w.Step() == Building && t.machine == w.machine.ForceState(Done)))
  }

  ghost predicate Approves(w: W, t: W, trigger: Trigger) {
    && t.redoCounts == w.redoCounts
    && t.approveAll == (w.approveAll || trigger.ApprovedAll?)
    && Jumps(w.machine.Transition(Next(w.Step()), trigger), t.machine)
  }

  /** Charged, and refused only when the limit is used up. */
  ghost predicate Redoes(cfg: Config, w: W, t: W) {
    var target := RedoTarget(w.Step());
    && t.redoCounts == w.redoCounts[target := w.Redos(target) + 1]
    && !t.approveAll
    && if w.Redos(target) >= cfg.maxRedos then Breaks(w, t)
       else Jumps(w.machine.Transition(target, Redo), t.machine)
  }

  ghost predicate ReviewShape(cfg: Config, rs: Replies, w: W, t: W) {
    && t.ran == w.ran
    && match Listen(cfg, rs, w)
       case Auto => Approves(w, t, AutoApproved)
       case Heard(c) =>
         (match c.action
          case SaysApprove => Approves(w, t, Approved(c))
          case SaysApproveAll => Approves(w, t, ApprovedAll(c))
          case _ => Redoes(cfg, w, t))
       case Nothing => Breaks(w, t) && t.redoCounts == w.redoCounts && t.approveAll == w.approveAll
  }

  ghost predicate Shape(cfg: Config, rs: Replies, w: W, t: W) {
    if IsReview(w.Step()) then ReviewShape(cfg, rs, w, t) else AgentShape(w, t)
  }

  /** An agent step leads on within its phase, and every step may fail. */
  lemma AgentLeadsOn(s: Step)
    requires Runs(s) && !IsReview(s)
    ensures Allowed(s, Next(s)) && Allowed(s, Failed) && Home(Next(s)) == Home(s) && PhaseForStep(s) == Home(s)
  {
  }

  lemma AgentHasShape(cfg: Config, rs: Replies, w: W)
    requires Runs(w.Step()) && !IsReview(w.Step())
    ensures AgentShape(w, RunAgent(cfg, rs, w, Next(w.Step())))
  {
    assert Allowed(w.Step(), Next(w.Step())) && Allowed(w.Step(), Failed);
    hide AtDone, Allowed, Next, IsReview, ToReview, Outcome, Stepped;
  }

  lemma ApproveHasShape(cfg: Config, rs: Replies, w: W, trigger: Trigger)
    requires IsReview(w.Step())
    ensures var t := Approve(cfg, rs, w, Next(w.Step()), trigger);
            t.ran == w.ran && Approves(w, t.(approveAll := w.approveAll || trigger.ApprovedAll?), trigger)
                && t.approveAll == w.approveAll
  {
    hide Boundary, Jumps;
    BoundaryJumps(cfg, rs, w.Move(Next(w.Step()), trigger));
  }

  lemma RedoHasShape(cfg: Config, rs: Replies, w: W)
    requires IsReview(w.Step())
    ensures var t := TryRedo(cfg, rs, w, RedoTarget(w.Step())); t.ran == w.ran && Redoes(cfg, w, t)
  {
    hide SkipCompleted, Jumps, Reopen;
    var target := RedoTarget(w.Step());
    var charged := Charge(w, target);
    assert charged.Redos(target) == w.Redos(target) + 1 && Allowed(w.Step(), target) && Allowed(w.Step(), Failed);
    hide W.Redos, Allowed, RedoTarget;
    BoundaryJumps(cfg, rs, Reopen(rs, charged.Move(target, Redo), target));
  }

  lemma ReviewHasShape(cfg: Config, rs: Replies, w: W)
    requires IsReview(w.Step())
    ensures ReviewShape(cfg, rs, w, RunReview(cfg, rs, w, Next(w.Step()), RedoTarget(w.Step())))
  {
    hide Approve, TryRedo, Jumps, Listen, Asked;
    var t := Asked(cfg, rs, w);
    match Listen(cfg, rs, w) {
      case Auto => ApproveHasShape(cfg, rs, t, AutoApproved);
      case Heard(c) =>
        ApproveHasShape(cfg, rs, t, Approved(c));
        ApproveHasShape(cfg, rs, t, ApprovedAll(c));
        RedoHasShape(cfg, rs, t);
      case Nothing =>
    }
  }

  lemma IterateHasShape(cfg: Config, rs: Replies, w: W)
    requires Runs(w.Step())
    ensures Shape(cfg, rs, w, Iterate(cfg, rs, w))
  {
    hide RunAgent, RunReview, AgentShape, ReviewShape;
    if IsReview(w.Step()) {
      ReviewHasShape(cfg, rs, w);
    } else {
      AgentHasShape(cfg, rs, w);
    }
  }

  // ----- every run ends -----

  function Left(cfg: Config, w: W, s: Step): nat {
    if w.Redos(s) < cfg.maxRedos then cfg.maxRedos - w.Redos(s) else 0
  }

  /** The redos still possible. */
  function Budget(cfg: Config, w: W): nat {
    Left(cfg, w, Planning) + Left(cfg, w, Building) + Left(cfg, w, Validating) + Left(cfg, w, Shipping)
  }

  /** A pass spends a redo or moves forward. */
  lemma Progress(cfg: Config, rs: Replies, w: W)
    requires Runs(w.Step())
    ensures var t := Iterate(cfg, rs, w);
            || Budget(cfg, t) < Budget(cfg, w)
            || (Budget(cfg, t) == Budget(cfg, w) && Rank(w.Step()) < Rank(t.Step()))
  {
    hide Iterate, Chain, Listen, Jumps, Budget;
    IterateHasShape(cfg, rs, w);
    var t := Iterate(cfg, rs, w);
    if IsReview(w.Step()) && Redoes(cfg, w, t) {
      ChargedBudget(cfg, w, t);
    } else {
      Forward(cfg, rs, w, t);
      SameBudget(cfg, w, t);
    }
  }

  lemma SameBudget(cfg: Config, w: W, t: W)
    requires t.redoCounts == w.redoCounts
    ensures Budget(cfg, t) == Budget(cfg, w)
  {
  }

  lemma ChargedBudget(cfg: Config, w: W, t: W)
    requires IsReview(w.Step()) && Redoes(cfg, w, t)
    ensures Budget(cfg, t) < Budget(cfg, w) || (Budget(cfg, t) == Budget(cfg, w) && t.Step() == Failed)
  {
    hide Jumps;
    var target := RedoTarget(w.Step());
    assert t.Redos(target) == w.Redos(target) + 1;
    forall s | s != target ensures Left(cfg, t, s) == Left(cfg, w, s) {
    }
    assert Left(cfg, t, target) < Left(cfg, w, target)
        || (Left(cfg, t, target) == Left(cfg, w, target) && t.Step() == Failed);
    hide Left, Redoes, W.Redos;
    assert target == Planning || target == Building || target == Validating || target == Shipping;
  }

  lemma Forward(cfg: Config, rs: Replies, w: W, t: W)
    requires Runs(w.Step()) && Shape(cfg, rs, w, t) && !(IsReview(w.Step()) && Redoes(cfg, w, t))
    ensures t.redoCounts == w.redoCounts && Rank(w.Step()) < Rank(t.Step())
  {
    hide Chain, Listen, Redoes;
  }

  /** The loop of Run; the context is asked first on every pass. */
  function Loop(cfg: Config, rs: Replies, w: W): (W, Ending)
    decreases Budget(cfg, w), 13 - Rank(w.Step())
  {
    var t := w.(remote := w.remote.Touch(rs));
    if rs(w.remote.calls).cancelled then (t, Interrupted)
    else if t.Step() == Done then (t, Returned)
    else if t.Step() == Failed then (t, Broke)
    else if !Runs(t.Step()) then (t, Unexpected)
    else
      hide Iterate, Budget;
      SameBudget(cfg, w, t);
      Progress(cfg, rs, t);
      Loop(cfg, rs, Iterate(cfg, rs, t))
  }

  /** Run, from a workflow that has just been made. */
  function Run(cfg: Config, rs: Replies, w: W): (W, Ending) {
    var t := w.(remote := w.remote.Touch(rs));
    if !w.remote.Answered(rs) then (t, NotResolved)
    else if !Allowed(t.Step(), Planning) then (t.Move(Planning, Start), StartRejected)
    else Loop(cfg, rs, Begin(cfg, rs, t))
  }
}
