/**
  One run of the workflow as a function of the replies it gets (jiradozer/workflow.go). Every outside call takes the
  next reply; a failing label write may still have taken effect, and before any call others may have edited labels.
 */
module WorkflowSpec {
  import opened Common
  import opened WorkflowSteps

  datatype SkipSource = FromConfig | FromLabel | FromCli

  function Priority(source: SkipSource): nat {
    match source
    case FromCli => 3
    case FromLabel => 2
    case FromConfig => 1
  }

  datatype Config = Config(
    autoPlan: bool, autoBuild: bool, autoValidate: bool, autoShip: bool,
    skip: set<Phase>, skipSource: SkipSource, maxRedos: nat)

  /** What posting a comment returns: an id and a server time if it has them; neither when posting failed. */
  datatype Posting = Posting(id: Option<CommentId>, at: Option<Time>) {
    function Ids(): seq<CommentId> {
      match id case None => [] case Some(i) => [i]
    }
  }

  /** One round of a step: the context ended before it, it ran, its comment rendered, and how the posting went. */
  datatype Round = Round(cancelled: bool, ran: bool, rendered: bool, posted: Posting)

  /**
    What running a step comes to: one session with its comment, or configured rounds; and whether a build changed
    nothing.
   */
  datatype StepReply =
    | Session(ran: bool, rendered: bool, posted: Posting, noChange: bool)
    | Rounds(rounds: seq<Round>, noChange: bool)

  /** A step as the workflow sees it: whether it failed, the comments it posted, the time of its last one. */
  datatype StepResult = StepResult(failed: bool, ids: seq<CommentId>, at: Option<Time>, noChange: bool)

  /** Rounds post as they go; only the last round's comment gives a time. */
  function AllRounds(rounds: seq<Round>): StepResult {
    if rounds == [] then StepResult(false, [], None, false)
    else if rounds[0].cancelled || !rounds[0].ran || !rounds[0].rendered then StepResult(true, [], None, false)
    else
      var rest := AllRounds(rounds[1..]);
      rest.(ids := rounds[0].posted.Ids() + rest.ids, at := if |rounds| == 1 then rounds[0].posted.at else rest.at)
  }

  /** An unchanged build ends a session before its comment is rendered. */
  function Outcome(s: Step, reply: StepReply): StepResult {
    match reply
    case Session(ran, rendered, posted, noChange) =>
      if !ran then StepResult(true, [], None, false)
      else if s == Building && noChange then StepResult(false, [], None, true)
      else if !rendered then StepResult(true, [], None, false)
      else StepResult(false, posted.Ids(), posted.at, noChange)
    case Rounds(rounds, noChange) => AllRounds(rounds).(noChange := noChange)
  }

  /**
    What one outside call may bring: whether it succeeded, whether a failed write took effect, labels others set
    before it, the answer in whichever form the call has, and the clock. comments and batches are all the comments of
    the issue, oldest first; a fetch gives those created at or after the time it asks for.
   */
  datatype Reply = Reply(
    ok: bool,
    applied: bool,
    edited: Option<set<Label>>,
    cancelled: bool,
    agent: StepReply,
    posted: Posting,
    comments: seq<Comment>,
    batches: seq<Option<seq<Comment>>>,
    now: Time)

  type Replies = nat -> Reply

  datatype Write = Added(l: Label) | Removed(l: Label)

  /** The tracker's label set, the number of replies used up, and the label writes that took effect. */
  datatype Remote = Remote(labels: set<Label>, calls: nat, writes: seq<Write>) {
    function Touch(replies: Replies): Remote {
      this.(calls := calls + 1, labels := match replies(calls).edited case None => labels case Some(ls) => ls)
    }

    predicate Answered(replies: Replies) {
      replies(calls).ok
    }

    predicate TakesEffect(replies: Replies) {
      replies(calls).ok || replies(calls).applied
    }

    function Add(replies: Replies, l: Label): Remote {
      var r := Touch(replies);
      if TakesEffect(replies) then r.(labels := r.labels + {l}, writes := r.writes + [Added(l)]) else r
    }

    function Remove(replies: Replies, l: Label): Remote {
      var r := Touch(replies);
      if TakesEffect(replies) then r.(labels := r.labels - {l}, writes := r.writes + [Removed(l)]) else r
    }
  }

  datatype PhaseState = NotStarted | InProgress | Completed

  /** botCommentIDs and lastCommentAt. */
  datatype Thread = Thread(bot: seq<CommentId>, since: Option<Time>)

  /** The workflow's fields, its state machine, its tracker, and the steps whose agent ran. */
  datatype W = W(
    machine: Machine,
    phases: map<Phase, PhaseState>,
    skips: map<Phase, SkipSource>,
    redoCounts: map<Step, nat>,
    approveAll: bool,
    thread: Thread,
    lastLabels: set<Label>,
    remote: Remote,
    ran: seq<Step>)
  {
    function State(p: Phase): PhaseState {
      if p in phases then phases[p] else NotStarted
    }

    function Redos(s: Step): nat {
      if s in redoCounts then redoCounts[s] else 0
    }

    function Step(): Step {
      machine.step
    }

    function Mark(p: Phase, state: PhaseState): W {
      this.(phases := phases[p := state])
    }

    function Move(to: Step, trigger: Trigger): W {
      this.(machine := machine.Transition(to, trigger))
    }

    function Force(to: Step): W {
      this.(machine := machine.ForceState(to))
    }
  }

  // ----- which phases to skip -----

  function AddSkip(skips: map<Phase, SkipSource>, p: Phase, source: SkipSource): map<Phase, SkipSource> {
    if p in skips && Priority(skips[p]) > Priority(source) then skips else skips[p := source]
  }

  /** Keep a phase's source unless it was a label that is gone; a present label outranks configuration. */
  function Reconciled(cfg: Config, skips: map<Phase, SkipSource>, labels: set<Label>): map<Phase, SkipSource> {
    map p: Phase | SkipLabel(p) in labels || (p in skips && (skips[p] != FromLabel || p in cfg.skip)) ::
      if SkipLabel(p) in labels
          then (if p in skips && Priority(skips[p]) > Priority(FromLabel) then skips[p] else FromLabel)
      else if skips[p] == FromLabel then cfg.skipSource
      else skips[p]
  }

  function Initial(cfg: Config, labels: set<Label>, remote: Remote): W {
    W(FRESH, map[], (map p: Phase | p in cfg.skip || SkipLabel(p) in labels ::
                       if SkipLabel(p) in labels && !(p in cfg.skip && cfg.skipSource.FromCli?) then FromLabel
                       else cfg.skipSource),
      map[], false, Thread([], None), labels, remote, [])
  }

  // ----- labels -----

  function Refresh(rs: Replies, w: W): (t: W)
    ensures t == w.(remote := t.remote, lastLabels := t.lastLabels)
    ensures w.remote.calls <= t.remote.calls
  {
    var remote := w.remote.Touch(rs);
    w.(remote := remote, lastLabels := if w.remote.Answered(rs) then remote.labels else w.lastLabels)
  }

  function Enter(rs: Replies, w: W, p: Phase): (t: W)
    ensures t == w.(phases := t.phases, remote := t.remote)
    ensures w.remote.calls <= t.remote.calls
  {
    if w.State(p) != NotStarted then w
    else
      var t := w.(remote := w.remote.Add(rs, InProgressLabel(p)));
      if w.remote.Answered(rs) then t.Mark(p, InProgress) else t
  }

  function EnterCurrent(rs: Replies, w: W): (t: W)
    ensures t == w.(phases := t.phases, remote := t.remote)
    ensures w.remote.calls <= t.remote.calls
  {
    match PhaseForStep(w.Step())
    case Some(p) => Enter(rs, w, p)
    case None => w
  }

  function Complete(rs: Replies, w: W, p: Phase): (t: W)
    ensures t == w.(phases := t.phases, remote := t.remote)
    ensures w.remote.calls <= t.remote.calls
  {
    if w.State(p) == Completed then w
    else
      var t := w.(remote := w.remote.Add(rs, DoneLabel(p)));
      if !w.remote.Answered(rs) then t
      else t.(remote := t.remote.Remove(rs, InProgressLabel(p))).Mark(p, Completed)
  }

  function CompleteEach(rs: Replies, w: W, ps: seq<Phase>): (t: W)
    ensures t == w.(phases := t.phases, remote := t.remote)
    ensures w.remote.calls <= t.remote.calls
    decreases |ps|
  {
    if ps == [] then w else CompleteEach(rs, Complete(rs, w, ps[0]), ps[1..])
  }

  function ClearStale(rs: Replies, w: W, labels: set<Label>, p: Phase): (t: W)
    ensures t == w.(remote := t.remote)
    ensures w.remote.calls <= t.remote.calls
  {
    if w.State(p) == Completed && InProgressLabel(p) in labels
    then w.(remote := w.remote.Remove(rs, InProgressLabel(p))) else w
  }

  function RemoveStale(rs: Replies, w: W, labels: set<Label>, ps: seq<Phase>): (t: W)
    ensures t == w.(remote := t.remote)
    ensures w.remote.calls <= t.remote.calls
    decreases |ps|
  {
    if ps == [] then w
    else RemoveStale(rs, ClearStale(rs, w, labels, ps[0]), labels, ps[1..])
  }

  function CleanupStale(rs: Replies, w: W): (t: W)
    ensures t == w.(remote := t.remote, lastLabels := t.lastLabels)
    ensures w.remote.calls <= t.remote.calls
  {
    var t := Refresh(rs, w);
    RemoveStale(rs, t, t.lastLabels, PHASES)
  }

  /** Mark the current phase done because its label or the configuration says so. */
  function SkipPhase(rs: Replies, w: W, labels: set<Label>, p: Phase): (t: W)
    ensures t == w.(machine := t.machine, phases := t.phases, remote := t.remote)
    ensures w.remote.calls <= t.remote.calls
    ensures PhaseForStep(w.Step()) == Some(p) ==> Rank(w.Step()) < Rank(t.Step())
  {
    var t := if InProgressLabel(p) in labels || w.State(p) == InProgress
             then w.(remote := w.remote.Remove(rs, InProgressLabel(p))) else w;
    t.Mark(p, Completed).Force(match PhaseAfter(p) case None => Done case Some(q) => StartStep(q))
  }

  predicate ToSkip(w: W, labels: set<Label>) {
    match PhaseForStep(w.Step())
    case None => false
    case Some(p) => DoneLabel(p) in labels || p in w.skips
  }

  function SkipForward(rs: Replies, w: W, labels: set<Label>): (t: W)
    ensures t == w.(machine := t.machine, phases := t.phases, remote := t.remote)
    ensures w.remote.calls <= t.remote.calls
    decreases 13 - Rank(w.Step())
  {
    if !ToSkip(w, labels) then w
    else SkipForward(rs, SkipPhase(rs, w, labels, PhaseForStep(w.Step()).value), labels)
  }

  function SkipCompleted(cfg: Config, rs: Replies, w: W): (t: W)
    ensures t == w.(machine := t.machine, phases := t.phases, remote := t.remote, lastLabels := t.lastLabels,
        skips := t.skips)
    ensures w.remote.calls <= t.remote.calls
  {
    var t := Refresh(rs, w);
    SkipForward(rs, t.(skips := Reconciled(cfg, t.skips, t.lastLabels)), t.lastLabels)
  }

  function AtDone(rs: Replies, w: W): (t: W)
    ensures t == w.(phases := t.phases, remote := t.remote, lastLabels := t.lastLabels)
    ensures w.remote.calls <= t.remote.calls
  {
    CleanupStale(rs, Complete(rs, CompleteEach(rs, w, [Plan, Build, Validate]), Ship))
  }

  function CompletePrior(rs: Replies, w: W): (t: W)
    ensures t == w.(phases := t.phases, remote := t.remote)
    ensures w.remote.calls <= t.remote.calls
  {
    match PhaseForStep(w.Step())
    case None => w
    case Some(p) => CompleteEach(rs, w, PHASES[..Number(p)])
  }

  function Boundary(cfg: Config, rs: Replies, w: W): (t: W)
    ensures t == w.(machine := t.machine, phases := t.phases, remote := t.remote, lastLabels := t.lastLabels,
        skips := t.skips)
    ensures w.remote.calls <= t.remote.calls
  {
    if w.Step() == Done then AtDone(rs, w)
    else EnterCurrent(rs, SkipCompleted(cfg, rs, CompletePrior(rs, w)))
  }

  // ----- failing and redoing -----

  function Fail(w: W): W {
    if Allowed(w.Step(), Failed) then w.Move(Failed, Error) else w.Move(Failed, Error).Force(Failed)
  }

  /** One later phase, rewound. */
  function Rewind(rs: Replies, w: W, p: Phase): (t: W)
    ensures t == w.(phases := t.phases, remote := t.remote)
    ensures w.remote.calls <= t.remote.calls
  {
    var t := if w.State(p) == InProgress then w.(remote := w.remote.Remove(rs, InProgressLabel(p))) else w;
    var u := if w.State(p) == Completed then t.(remote := t.remote.Remove(rs, DoneLabel(p))) else t;
    u.Mark(p, NotStarted)
  }

  function RewindEach(rs: Replies, w: W, ps: seq<Phase>): (t: W)
    ensures t == w.(phases := t.phases, remote := t.remote)
    ensures w.remote.calls <= t.remote.calls
    decreases |ps|
  {
    if ps == [] then w else RewindEach(rs, Rewind(rs, w, ps[0]), ps[1..])
  }

  /** The redone phase itself. */
  function ReopenTarget(rs: Replies, w: W, p: Phase): (t: W)
    ensures t == w.(phases := t.phases, remote := t.remote)
    ensures w.remote.calls <= t.remote.calls
  {
    var t := if w.State(p) == Completed then w.(remote := w.remote.Remove(rs, DoneLabel(p))) else w;
    Enter(rs, t.Mark(p, NotStarted), p)
  }

  function Reopen(rs: Replies, w: W, target: Step): (t: W)
    ensures t == w.(phases := t.phases, remote := t.remote)
    ensures w.remote.calls <= t.remote.calls
  {
    match PhaseForStep(target)
    case None => w
    case Some(p) => RewindEach(rs, ReopenTarget(rs, w, p), PHASES[Number(p) + 1..])
  }

  /** Charge a redo; approve-all is withdrawn even when the redo is refused. */
  function Charge(w: W, target: Step): W {
    w.(approveAll := false, redoCounts := w.redoCounts[target := w.Redos(target) + 1])
  }

  function TryRedo(cfg: Config, rs: Replies, w: W, target: Step): W {
    var t := Charge(w, target);
    if t.Redos(target) > cfg.maxRedos then Fail(t)
    else if !Allowed(t.Step(), target) then Fail(t.Move(target, Redo))
    else SkipCompleted(cfg, rs, Reopen(rs, t.Move(target, Redo), target))
  }

  // ----- review gates -----

  predicate ConfigAutoApproves(cfg: Config, s: Step) {
    match s
    case PlanReview => cfg.autoPlan
    case BuildReview => cfg.autoBuild
    case ValidateReview => cfg.autoValidate
    case ShipReview => cfg.autoShip
    case _ => false
  }

  predicate AutoApproves(cfg: Config, w: W, s: Step) {
    IsReview(s) && (w.approveAll || ConfigAutoApproves(cfg, s))
  }

  /** latestFeedbackComment. */
  function Latest(comments: seq<Comment>, bot: seq<CommentId>): Option<Comment> {
    if comments == [] then None
    else if comments[|comments| - 1].id !in bot then Some(comments[|comments| - 1])
    else Latest(comments[..|comments| - 1], bot)
  }

  /** FetchComments: the comments created at or after since, or all of them without one. */
  function Fetched(comments: seq<Comment>, since: Option<Time>): seq<Comment> {
    if comments == [] then []
    else
      (if since.Some? && comments[0].at < since.value then [] else [comments[0]]) + Fetched(comments[1..], since)
  }

  /** PollForFeedback over the batches it saw before the context ended; a batch may be a failed fetch. */
  function Poll(batches: seq<Option<seq<Comment>>>, since: Option<Time>, bot: seq<CommentId>): Option<Comment> {
    if batches == [] then None
    else
      var latest := if batches[0].Some? then Latest(Fetched(batches[0].value, since), bot) else None;
      if latest.Some? then latest else Poll(batches[1..], since, bot)
  }

  function Approve(cfg: Config, rs: Replies, w: W, target: Step, trigger: Trigger): W {
    if Allowed(w.Step(), target) then Boundary(cfg, rs, w.Move(target, trigger)) else Fail(w.Move(target, trigger))
  }

  function HandleFeedback(cfg: Config, rs: Replies, w: W, c: Comment, approve: Step, redo: Step): W {
    match c.action
    case SaysApprove => Approve(cfg, rs, w, approve, Approved(c))
    case SaysApproveAll =>
      var t := Approve(cfg, rs, w, approve, ApprovedAll(c));
      if Allowed(w.Step(), approve) then t.(approveAll := true) else t
    case SaysRedo => TryRedo(cfg, rs, w, redo)
    case SaysComment => TryRedo(cfg, rs, w, redo)
  }

  /** The feedback a gate acts on, and whether it passes without any. */
  datatype Verdict = Auto | Heard(comment: Comment) | Nothing

  /** The time a gate asks from: lastCommentAt, which an auto-approving gate sets to the clock if it is not set. */
  function Cutoff(cfg: Config, rs: Replies, w: W): Option<Time> {
    if AutoApproves(cfg, w, w.Step()) && w.thread.since.None? then Some(rs(w.remote.calls).now) else w.thread.since
  }

  function Listen(cfg: Config, rs: Replies, w: W): Verdict {
    var reply, since := rs(w.remote.calls), Cutoff(cfg, rs, w);
    if AutoApproves(cfg, w, w.Step()) then
      match (if reply.ok then Latest(Fetched(reply.comments, since), w.thread.bot) else None)
      case Some(c) => Heard(c)
      case None => Auto
    else
      match Poll(reply.batches, since, w.thread.bot)
      case Some(c) => Heard(c)
      case None => Nothing
  }

  /** The gate has asked: a polling gate remembers the time of what it heard. */
  function Asked(cfg: Config, rs: Replies, w: W): (t: W)
    ensures t == w.(remote := w.remote.Touch(rs), thread := t.thread)
  {
    var verdict := Listen(cfg, rs, w);
    var since := if verdict.Heard?
        && !AutoApproves(cfg, w, w.Step()) then Some(verdict.comment.at) else Cutoff(cfg, rs, w);
    w.(remote := w.remote.Touch(rs), thread := w.thread.(since := since))
  }

  function RunReview(cfg: Config, rs: Replies, w: W, approve: Step, redo: Step): W {
    var t := Asked(cfg, rs, w);
    match Listen(cfg, rs, w)
    case Auto => Approve(cfg, rs, t, approve, AutoApproved)
    case Heard(c) => HandleFeedback(cfg, rs, t, c, approve, redo)
    case Nothing => Fail(t)
  }

  // ----- agent steps -----

  /** The waiting comment is posted; without a time for the step's comment its time counts, or else the clock. */
  function Announce(rs: Replies, w: W): (t: W)
    ensures t == w.(remote := w.remote.Touch(rs), thread := t.thread)
  {
    var reply := rs(w.remote.calls);
    w.(remote := w.remote.Touch(rs),
       thread := w.thread.(
         bot := w.thread.bot + reply.posted.Ids(),
         since := if w.thread.since.Some? then w.thread.since
                  else if reply.posted.at.Some? then reply.posted.at else Some(reply.now)))
  }

  function ToReview(cfg: Config, rs: Replies, w: W, next: Step): (t: W)
    ensures t == w.(machine := t.machine, remote := t.remote, thread := t.thread)
    ensures Allowed(w.Step(), next) ==> t.machine == w.machine.Transition(next, StepComplete)
  {
    if !Allowed(w.Step(), next) then Fail(w.Move(next, StepComplete))
    else
      var t := w.Move(next, StepComplete);
      if !IsReview(next) || AutoApproves(cfg, t, next) then t else Announce(rs, t)
  }

  /** The step's agents have run. */
  function Stepped(rs: Replies, w: W): (t: W)
    ensures t == w.(remote := w.remote.Touch(rs), ran := w.ran + [w.Step()], thread := t.thread)
  {
    var res := Outcome(w.Step(), rs(w.remote.calls).agent);
    w.(remote := w.remote.Touch(rs), ran := w.ran + [w.Step()], thread := Thread(res.ids, res.at))
  }

  function RunAgent(cfg: Config, rs: Replies, w: W, next: Step): W {
    var res := Outcome(w.Step(), rs(w.remote.calls).agent);
    var t := Stepped(rs, w);
    if res.failed then Fail(t)
    else if w.Step() == Building && res.noChange then Boundary(cfg, rs, t.Force(Done))
    else ToReview(cfg, rs, t, next)
  }

  // ----- the run -----

  predicate Runs(s: Step) {
    1 <= Rank(s) <= 9
  }

  /** One pass of Run's switch. */
  function Iterate(cfg: Config, rs: Replies, w: W): W {
    match w.Step()
    case Planning => RunAgent(cfg, rs, w, PlanReview)
    case PlanReview => RunReview(cfg, rs, w, Building, Planning)
    case Building => RunAgent(cfg, rs, w, CreatingPR)
    case CreatingPR => RunAgent(cfg, rs, w, BuildReview)
    case BuildReview => RunReview(cfg, rs, w, Validating, Building)
    case Validating => RunAgent(cfg, rs, w, ValidateReview)
    case ValidateReview => RunReview(cfg, rs, w, Shipping, Validating)
    case Shipping => RunAgent(cfg, rs, w, ShipReview)
    case ShipReview => RunReview(cfg, rs, w, Done, Shipping)
    case _ => w
  }

  /** Everything before the loop, once the state names are resolved and the start is allowed. */
  function Begin(cfg: Config, rs: Replies, w: W): W {
    EnterCurrent(rs, SkipCompleted(cfg, rs, w.Move(Planning, Start)))
  }

  datatype Ending = NotResolved | StartRejected | Interrupted | Returned | Broke | Unexpected
}
