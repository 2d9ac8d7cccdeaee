/** What every run of the workflow keeps: its history, and how often each agent runs (jiradozer/workflow.go). */
module WorkflowBounds {
  import opened Common
  import opened WorkflowSteps
  import opened WorkflowSpec
  import opened WorkflowShape

  /** The state machine of a run: no refused transition, an unbroken history, never outside the table's steps. */
  ghost predicate MachineOk(m: Machine) {
    m.rejected == 0 && Chain(m) && (Runs(m.step) || m.step == Done || m.step == Failed)
  }

  lemma JumpsKeepOk(a: Machine, b: Machine)
    requires MachineOk(a) && Jumps(a, b)
    ensures MachineOk(b)
  {
    hide Chain;
  }

  lemma StepKeepsOk(m: Machine, to: Step, trigger: Trigger)
    requires MachineOk(m) && Allowed(m.step, to) && trigger != Forced
    ensures MachineOk(m.Transition(to, trigger))
  {
    ChainStep(m, to, trigger);
    hide Chain;
  }

  lemma ForceKeepsOk(m: Machine, to: Step)
    requires MachineOk(m) && Rank(m.step) < Rank(to) && !IsReview(m.step) && (to == Done || IsStart(to))
    ensures MachineOk(m.ForceState(to))
  {
    ForcedJump(m, to);
    JumpsKeepOk(m, m.ForceState(to));
  }

  lemma AgentKeepsOk(w: W, t: W)
    requires Runs(w.Step()) && !IsReview(w.Step()) && MachineOk(w.machine) && AgentShape(w, t)
    ensures MachineOk(t.machine)
  {
    hide MachineOk;
    StepKeepsOk(w.machine, Failed, Error);
    StepKeepsOk(w.machine, Next(w.Step()), StepComplete);
    if w.Step() == Building {
      ForceKeepsOk(w.machine, Done);
    }
  }

  lemma ReviewKeepsOk(cfg: Config, rs: Replies, w: W, t: W)
    requires IsReview(w.Step()) && MachineOk(w.machine) && ReviewShape(cfg, rs, w, t)
    ensures MachineOk(t.machine)
  {
    hide MachineOk, Jumps, Listen;
    StepKeepsOk(w.machine, Failed, Error);
    if Breaks(w, t) {
    } else if Redoes(cfg, w, t) {
      StepKeepsOk(w.machine, RedoTarget(w.Step()), Redo);
      JumpsKeepOk(w.machine.Transition(RedoTarget(w.Step()), Redo), t.machine);
    } else {
      var trigger: Trigger :| IsApproval(trigger) && Approves(w, t, trigger);
      assert IsApproval(trigger) && Approves(w, t, trigger);
      StepKeepsOk(w.machine, Next(w.Step()), trigger);
      JumpsKeepOk(w.machine.Transition(Next(w.Step()), trigger), t.machine);
    }
  }

  // ----- how often agents run -----

  /** The step whose redo count limits how often s runs. */
  function Anchor(s: Step): Step {
    if s == CreatingPR then Building else s
  }

  /** The step is about to run, or will once the build in progress is done. */
  predicate Due(at: Step, s: Step) {
    at == s || (at == Building && s == CreatingPR)
  }

  function Times(w: W, s: Step): nat {
    multiset(w.ran)[s]
  }

  /** The phase of s has not been reached. */
  predicate Ahead(at: Step, s: Step) {
    at == Init || (Home(at).Some? && Home(s).Some? && Number(Home(at).value) < Number(Home(s).value))
  }

  predicate StepBounded(cfg: Config, w: W, s: Step) {
    var redone := if w.Redos(Anchor(s)) <= cfg.maxRedos then w.Redos(Anchor(s)) else cfg.maxRedos;
    && Times(w, s) + (if Due(w.Step(), s) then 1 else 0) <= redone + 1
    && (Ahead(w.Step(), s) ==> Times(w, s) == 0)
  }

  ghost predicate RunsBounded(cfg: Config, w: W) {
    forall s :: PhaseForStep(s).Some? ==> StepBounded(cfg, w, s)
  }

  ghost predicate OnlyAgentsRan(w: W) {
    forall s :: s in w.ran ==> PhaseForStep(s).Some?
  }

  lemma ShapeKeepsAgents(cfg: Config, rs: Replies, w: W, t: W)
    requires Runs(w.Step()) && Shape(cfg, rs, w, t) && OnlyAgentsRan(w)
    ensures OnlyAgentsRan(t)
  {
    hide Listen, Redoes, Approves, Breaks;
  }

  lemma AgentKeepsBound(cfg: Config, w: W, t: W, s: Step)
    requires Runs(w.Step()) && !IsReview(w.Step()) && AgentShape(w, t)
    requires PhaseForStep(s).Some? && StepBounded(cfg, w, s)
    ensures StepBounded(cfg, t, s)
  {
  }

  lemma BreakKeepsBound(cfg: Config, w: W, t: W, s: Step)
    requires IsReview(w.Step()) && Breaks(w, t) && t.redoCounts == w.redoCounts && t.ran == w.ran
    requires PhaseForStep(s).Some? && StepBounded(cfg, w, s)
    ensures StepBounded(cfg, t, s)
  {
  }

  lemma ApprovalLeadsOn(at: Step, to: Step, s: Step)
    requires IsReview(at) && PhaseForStep(s).Some?
    requires to == Next(at) || (Rank(Next(at)) < Rank(to) && (IsStart(to) || to == Done))
    ensures Due(to, s) ==> Ahead(at, s)
    ensures Ahead(to, s) ==> Ahead(at, s)
  {
    match at {
      case PlanReview =>
      case BuildReview =>
      case ValidateReview =>
      case _ =>
    }
  }

  /** An approval leads to a phase not reached before, or to the end. */
  lemma ApproveKeepsBound(cfg: Config, w: W, t: W, trigger: Trigger, s: Step)
    requires IsReview(w.Step()) && Approves(w, t, trigger) && t.ran == w.ran
    requires PhaseForStep(s).Some? && StepBounded(cfg, w, s)
    ensures StepBounded(cfg, t, s)
  {
    ApprovalLeadsOn(w.Step(), t.Step(), s) by {
      hide Chain, StepBounded;
    }
    assert t.Redos(Anchor(s)) == w.Redos(Anchor(s)) && Times(t, s) == Times(w, s);
    hide Jumps, Approves, Ahead, Due, W.Redos;
  }

  lemma RedoLeadsBack(at: Step, to: Step, s: Step)
    requires IsReview(at) && PhaseForStep(s).Some?
    requires to == RedoTarget(at) || (Rank(RedoTarget(at)) < Rank(to) && (IsStart(to) || to == Done))
    ensures Due(to, s) ==> Anchor(s) == RedoTarget(at) || Ahead(at, s)
    ensures Ahead(to, s) ==> Ahead(at, s)
  {
    assert Home(RedoTarget(at)) == Home(at);
    if to != RedoTarget(at) && Home(to).Some? {
      LaterHome(RedoTarget(at), to);
    }
    hide RedoTarget, Rank;
  }

  /** Later starts belong to later phases. */
  lemma LaterHome(a: Step, b: Step)
    requires IsStart(a) && IsStart(b) && Rank(a) < Rank(b)
    ensures Number(Home(a).value) < Number(Home(b).value)
  {
  }

  /** A redo leads to the start of the gate's own phase, which then runs once more. */
  lemma RedoKeepsBound(cfg: Config, w: W, t: W, s: Step)
    requires IsReview(w.Step()) && Redoes(cfg, w, t) && t.ran == w.ran
    requires PhaseForStep(s).Some? && StepBounded(cfg, w, s)
    ensures StepBounded(cfg, t, s)
  {
    hide StepBounded, Jumps, Redoes;
    if w.Redos(RedoTarget(w.Step())) < cfg.maxRedos {
      TakenRedoKeepsBound(cfg, w, t, s);
    } else {
      RefusedRedoKeepsBound(cfg, w, t, s);
    }
  }

  lemma ChargedRedos(w: W, t: W, target: Step, s: Step)
    requires t.redoCounts == w.redoCounts[target := w.Redos(target) + 1]
    ensures t.Redos(s) == if s == target then w.Redos(target) + 1 else w.Redos(s)
  {
  }

  lemma RefusedRedoKeepsBound(cfg: Config, w: W, t: W, s: Step)
    requires IsReview(w.Step()) && Redoes(cfg, w, t) && t.ran == w.ran
    requires w.Redos(RedoTarget(w.Step())) >= cfg.maxRedos
    requires PhaseForStep(s).Some? && StepBounded(cfg, w, s)
    ensures StepBounded(cfg, t, s)
  {
    ChargedRedos(w, t, RedoTarget(w.Step()), Anchor(s));
    assert t.Step() == Failed && !Due(t.Step(), s) && !Ahead(t.Step(), s);
    hide W.Redos, Redoes, Ahead, RedoTarget, Anchor, Allowed;
  }

  lemma TakenRedoKeepsBound(cfg: Config, w: W, t: W, s: Step)
    requires IsReview(w.Step()) && Redoes(cfg, w, t) && t.ran == w.ran
    requires w.Redos(RedoTarget(w.Step())) < cfg.maxRedos
    requires PhaseForStep(s).Some? && StepBounded(cfg, w, s)
    ensures StepBounded(cfg, t, s)
  {
    var target := RedoTarget(w.Step());
    ChargedRedos(w, t, target, Anchor(s));
    assert !Due(w.Step(), s) && Allowed(w.Step(), target) && Jumps(w.machine.Transition(target, Redo), t.machine);
    RedoLeadsBack(w.Step(), t.Step(), s);
    hide Chain, W.Redos, Redoes, Ahead, Due, RedoTarget, Anchor, Allowed;
  }

  lemma ReviewKeepsBound(cfg: Config, rs: Replies, w: W, t: W, s: Step)
    requires IsReview(w.Step()) && ReviewShape(cfg, rs, w, t)
    requires PhaseForStep(s).Some? && StepBounded(cfg, w, s)
    ensures StepBounded(cfg, t, s)
  {
    hide Jumps, Approves, Redoes, StepBounded, Listen;
    if Breaks(w, t) && t.redoCounts == w.redoCounts {
      BreakKeepsBound(cfg, w, t, s);
    } else if Redoes(cfg, w, t) {
      RedoKeepsBound(cfg, w, t, s);
    } else {
      var trigger :| Approves(w, t, trigger);
      ApproveKeepsBound(cfg, w, t, trigger, s);
    }
  }

  // ----- whole runs -----

  ghost predicate Bounded(cfg: Config, w: W) {
    MachineOk(w.machine) && RunsBounded(cfg, w) && OnlyAgentsRan(w)
  }

  lemma IterateKeepsBounded(cfg: Config, rs: Replies, w: W)
    requires Bounded(cfg, w) && Runs(w.Step())
    ensures Bounded(cfg, Iterate(cfg, rs, w))
  {
    hide Iterate, MachineOk, StepBounded, AgentShape, ReviewShape, OnlyAgentsRan;
    IterateHasShape(cfg, rs, w);
    var t := Iterate(cfg, rs, w);
    ShapeKeepsAgents(cfg, rs, w, t);
    if IsReview(w.Step()) {
      ReviewKeepsOk(cfg, rs, w, t);
    } else {
      AgentKeepsOk(w, t);
    }
    forall s | PhaseForStep(s).Some? ensures StepBounded(cfg, t, s) {
      if IsReview(w.Step()) {
        ReviewKeepsBound(cfg, rs, w, t, s);
      } else {
        AgentKeepsBound(cfg, w, t, s);
      }
    }
  }

  lemma BeginIsBounded(cfg: Config, rs: Replies, w: W)
    requires w.machine == FRESH && w.ran == []
    ensures Bounded(cfg, Begin(cfg, rs, w))
    ensures Begin(cfg, rs, w).machine.history[0] == Move(Init, Planning, Start)
  {
    var m := FRESH.Transition(Planning, Start);
    assert MachineOk(m);
    hide MachineOk, Jumps, SkipCompleted, EnterCurrent, StepBounded;
    BoundaryJumps(cfg, rs, w.Move(Planning, Start));
    JumpsKeepOk(m, Begin(cfg, rs, w).machine);
    HistoryGrows(m, Begin(cfg, rs, w).machine);
    hide Begin;
    forall s | PhaseForStep(s).Some? ensures StepBounded(cfg, Begin(cfg, rs, w), s) {
      NothingYet(cfg, Begin(cfg, rs, w), s);
    }
  }

  lemma NothingYet(cfg: Config, w: W, s: Step)
    requires w.ran == []
    ensures StepBounded(cfg, w, s)
  {
  }

  lemma HistoryGrows(a: Machine, b: Machine)
    requires Jumps(a, b) && a.history != []
    ensures b.history != [] && b.history[0] == a.history[0]
  {
  }

  lemma {:induction false} LoopKeepsBounded(cfg: Config, rs: Replies, w: W)
    requires Bounded(cfg, w)
    ensures var (t, ending) := Loop(cfg, rs, w);
            && Bounded(cfg, t)
            && (ending == Interrupted || (ending == Returned && t.Step() == Done)
                || (ending == Broke && t.Step() == Failed))
    decreases Budget(cfg, w), 13 - Rank(w.Step())
  {
    var t := w.(remote := w.remote.Touch(rs));
    hide Iterate, Budget, Chain, StepBounded;
    assert Bounded(cfg, t) by {
      assert forall s :: PhaseForStep(s).Some? ==> StepBounded(cfg, w, s);
      forall s | PhaseForStep(s).Some? ensures StepBounded(cfg, t, s) {
        SameBound(cfg, w, t, s);
      }
    }
    SameBudget(cfg, w, t);
    if !rs(w.remote.calls).cancelled && Runs(t.Step()) {
      Progress(cfg, rs, t);
      IterateKeepsBounded(cfg, rs, t);
      LoopKeepsBounded(cfg, rs, Iterate(cfg, rs, t));
    }
  }

  lemma SameBound(cfg: Config, w: W, t: W, s: Step)
    requires t.machine == w.machine && t.redoCounts == w.redoCounts && t.ran == w.ran && StepBounded(cfg, w, s)
    ensures StepBounded(cfg, t, s)
  {
  }

  /**
    For all replies, configurations and starting labels the run ends: it never refuses a transition, never reaches a
    step its switch does not know, keeps an unbroken history, and runs each agent at most once more than it may be
    redone.
   */
  lemma EveryRunEnds(cfg: Config, rs: Replies, labels: set<Label>, remote: Remote)
    ensures var (t, ending) := Run(cfg, rs, Initial(cfg, labels, remote));
            && t.machine.rejected == 0 && Chain(t.machine)
            && (forall s :: multiset(t.ran)[s] <= cfg.maxRedos + 1)
            && (match ending
                case NotResolved => t.Step() == Init
                case Interrupted => true
                case Returned => t.Step() == Done
                case Broke => t.Step() == Failed
                case _ => false)
  {
    hide Loop, Begin, Chain, StepBounded;
    var w := Initial(cfg, labels, remote);
    var start := w.(remote := remote.Touch(rs));
    if remote.Answered(rs) {
      var w := Begin(cfg, rs, start);
      BeginIsBounded(cfg, rs, start);
      LoopKeepsBounded(cfg, rs, w);
      FewRuns(cfg, Loop(cfg, rs, w).0);
    } else {
      NothingRan(start);
    }
  }

  lemma NothingRan(w: W)
    requires w.machine == FRESH && w.ran == []
    ensures Chain(w.machine) && forall s :: multiset(w.ran)[s] == 0
  {
  }

  lemma FewRuns(cfg: Config, w: W)
    requires Bounded(cfg, w)
    ensures forall s :: multiset(w.ran)[s] <= cfg.maxRedos + 1
  {
    forall s ensures multiset(w.ran)[s] <= cfg.maxRedos + 1 {
      if s in w.ran {
        assert StepBounded(cfg, w, s);
      }
    }
    hide Chain, StepBounded;
  }
}
