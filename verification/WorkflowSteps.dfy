/**
  The workflow's steps, its transition table, its phases and their labels (jiradozer/state.go,
  jiradozer/steplabels.go).
 */
module WorkflowSteps {
  import opened Common

  datatype Step =
    | Init | Planning | PlanReview | Building | CreatingPR | BuildReview | Validating | ValidateReview
    | Shipping | ShipReview | Done | Failed | Cancelled

  /** The position of a step in a run. */
  function Rank(s: Step): nat {
    match s
    case Init => 0
    case Planning => 1
    case PlanReview => 2
    case Building => 3
    case CreatingPR => 4
    case BuildReview => 5
    case Validating => 6
    case ValidateReview => 7
    case Shipping => 8
    case ShipReview => 9
    case Done => 10
    case Failed => 11
    case Cancelled => 12
  }

  predicate IsReview(s: Step) {
    s.PlanReview? || s.BuildReview? || s.ValidateReview? || s.ShipReview?
  }

  /** validTransitions. */
  predicate Allowed(from: Step, to: Step) {
    match from
    case Init => to.Planning?
    case Planning => to.PlanReview? || to.Failed?
    case PlanReview => to.Planning? || to.Building? || to.Failed?
    case Building => to.CreatingPR? || to.Failed?
    case CreatingPR => to.BuildReview? || to.Failed?
    case BuildReview => to.Building? || to.Planning? || to.Validating? || to.Failed?
    case Validating => to.ValidateReview? || to.Failed?
    case ValidateReview => to.Validating? || to.Building? || to.Shipping? || to.Failed?
    case Shipping => to.ShipReview? || to.Failed?
    case ShipReview => to.Shipping? || to.Building? || to.Done? || to.Failed?
    case _ => false
  }

  datatype Phase = Plan | Build | Validate | Ship

  const PHASES: seq<Phase> := [Plan, Build, Validate, Ship]

  function Number(p: Phase): nat
    ensures Number(p) < 4 && PHASES[Number(p)] == p
  {
    match p
    case Plan => 0
    case Build => 1
    case Validate => 2
    case Ship => 3
  }

  function PhaseForStep(s: Step): Option<Phase> {
    match s
    case Planning => Some(Plan)
    case Building => Some(Build)
    case CreatingPR => Some(Build)
    case Validating => Some(Validate)
    case Shipping => Some(Ship)
    case _ => None
  }

  function StartStep(p: Phase): Step
    ensures PhaseForStep(StartStep(p)) == Some(p)
  {
    match p
    case Plan => Planning
    case Build => Building
    case Validate => Validating
    case Ship => Shipping
  }

  function PhaseAfter(p: Phase): Option<Phase>
    ensures PhaseAfter(p).None? <==> p == Ship
    ensures PhaseAfter(p).Some? ==> Number(PhaseAfter(p).value) == Number(p) + 1
  {
    match p
    case Plan => Some(Build)
    case Build => Some(Validate)
    case Validate => Some(Ship)
    case Ship => None
  }

  datatype Label =
    | InProgressLabel(phase: Phase) | DoneLabel(phase: Phase) | SkipLabel(phase: Phase) | OtherLabel(name: string)

  // ----- comments -----

  type CommentId = string
  type Time = int

  /** What ParseCommentAction reads in a comment. */
  datatype Action = SaysApprove | SaysApproveAll | SaysRedo | SaysComment
  datatype Comment = Comment(id: CommentId, action: Action, at: Time)

  // ----- the state machine -----

  datatype Trigger =
    | Start | StepComplete | AutoApproved | Approved(comment: Comment) | ApprovedAll(comment: Comment)
    | Redo | Error | Forced

  datatype Move = Move(from: Step, to: Step, trigger: Trigger)

  /** rejected counts the transitions the table refused. */
  datatype Machine = Machine(step: Step, history: seq<Move>, rejected: nat) {
    function Transition(to: Step, trigger: Trigger): Machine {
      if Allowed(step, to) then Machine(to, history + [Move(step, to, trigger)], rejected)
      else this.(rejected := rejected + 1)
    }

    function ForceState(to: Step): Machine {
      Machine(to, history + [Move(step, to, Forced)], rejected)
    }
  }

  const FRESH: Machine := Machine(Init, [], 0)

  class StateMachine {
    var step: Step
    var history: seq<Move>
    ghost var rejected: nat

    constructor ()
      ensures Val() == FRESH
    {
      step, history, rejected := Init, [], 0;
    }

    ghost function Val(): Machine
      reads this
    {
      Machine(step, history, rejected)
    }

    method Transition(to: Step, trigger: Trigger) returns (ok: bool)
      modifies this
      ensures ok == Allowed(old(step), to)
      ensures Val() == old(Val()).Transition(to, trigger)
    {
      if !Allowed(step, to) {
        rejected := rejected + 1;
        return false;
      }
      history := history + [Move(step, to, trigger)];
      step := to;
      return true;
    }

    method ForceState(to: Step)
      modifies this
      ensures Val() == old(Val()).ForceState(to)
    {
      history := history + [Move(step, to, Forced)];
      step := to;
    }
  }
}
