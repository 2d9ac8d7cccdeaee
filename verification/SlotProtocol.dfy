/**
  The loop, the discovery goroutine and the per-child wait goroutines as interleaved atomic steps
  (jiradozer/orchestrator.go, RunWithDiscovery, Start and cleanup; jiradozer/discovery.go, poll).
 */
module SlotProtocol {
  import opened Common
  import opened Slots

  /** Where tryStart was called from, and so where its answer goes. */
  datatype Origin = FromPending(left: seq<IssueId>, kept: seq<IssueId>, counted: nat) | FromChannel

  /** Start's progress. handled is the "worktree already exists" failure. */
  datatype Stage = Reserving | Launching | Unreserving(handled: bool) | Signalling(handled: bool) | Failing

  /** The RunWithDiscovery goroutine. counted is the loop's copy of the active count. */
  datatype LoopPc =
    | Top
    | Draining(left: seq<IssueId>, kept: seq<IssueId>, counted: nat)
    | Trying(issue: IssueId, origin: Origin, stage: Stage)
    | Waiting
    | Received(issue: IssueId)

  /** A wait goroutine, from its child's start to its own end. */
  datatype ChildPc = Running | Ended(outcome: Outcome) | Recorded(outcome: Outcome) | Freed | Gone
  datatype ChildState = ChildState(issue: IssueId, pc: ChildPc)

  /**
    The discovery goroutine: idle or sending, or inside poll's lock between its two reads of the orchestrator.
    freed collects the issues whose cleanup landed between those reads; it is bookkeeping for the proof.
   */
  datatype DiscoveryPc = Idle | Reading(list: seq<IssueId>, active: set<IssueId>, freed: set<IssueId>)

  /**
    shipped and gaveUp record how an issue last ended well or was abandoned, until it is emitted again; swallowed
    collects the issues whose release a poll consumed without emitting them. All three are bookkeeping.
   */
  datatype Sys = Sys(
    shared: Shared,
    pending: seq<IssueId>,
    loop: LoopPc,
    children: map<nat, ChildState>,
    next: nat,
    failCounts: map<IssueId, nat>,
    seen: set<IssueId>,
    queue: seq<IssueId>,
    disc: DiscoveryPc,
    shipped: set<IssueId>,
    gaveUp: set<IssueId>,
    swallowed: set<IssueId>)

  const INITIAL: Sys :=
    Sys(Shared(map[], map[], {}, false), [], Top, map[], 0, map[], {}, [], Idle, {}, {}, {})

  datatype Step =
    | Begin
    | Drain
    | TryReserve
    | LaunchOk
    | LaunchFails(handled: bool)
    | Unreserve
    | SignalStartFailure
    | GiveUpOrRetry
    | Wake
    | Take
    | Route
    | End(child: nat, outcome: Outcome)
    | Record(child: nat)
    | Free(child: nat)
    | Signal(child: nat)
    | ReadActive(list: seq<IssueId>)
    | DrainReleased

  predicate Enabled(s: Sys, step: Step) {
    match step
    case Begin => s.loop.Top?
    case Drain => s.loop.Draining?
    case TryReserve => s.loop.Trying? && s.loop.stage.Reserving?
    case LaunchOk => s.loop.Trying? && s.loop.stage.Launching?
    case LaunchFails(_) => s.loop.Trying? && s.loop.stage.Launching?
    case Unreserve => s.loop.Trying? && s.loop.stage.Unreserving?
    case SignalStartFailure => s.loop.Trying? && s.loop.stage.Signalling?
    // ClearSeen needs the lock that poll holds between its two reads.
    case GiveUpOrRetry =>
      s.loop.Trying? && s.loop.stage.Failing?
          && (StartFailures(s, s.loop.issue) + 1 < MAX_START_FAILURES ==> s.disc.Idle?)
    case Wake => s.loop.Waiting? && s.shared.token
    case Take => s.loop.Waiting? && s.queue != []
    case Route => s.loop.Received?
    case End(k, _) => k in s.children && s.children[k].pc.Running?
    case Record(k) => k in s.children && s.children[k].pc.Ended?
    case Free(k) => k in s.children && s.children[k].pc.Recorded?
    case Signal(k) => k in s.children && s.children[k].pc.Freed?
    case ReadActive(_) => s.disc.Idle? && s.queue == []
    case DrainReleased => s.disc.Reading?
  }

  function StartFailures(s: Sys, id: IssueId): nat {
    if id in s.failCounts then s.failCounts[id] else 0
  }

  /** tryStart returned: remove says whether the issue leaves the pending queue. */
  function Answer(s: Sys, remove: bool): (t: Sys)
    requires s.loop.Trying?
    ensures t == s.(loop := t.loop, pending := t.pending)
    ensures t.loop.Top? || (t.loop.Draining? && s.loop.origin.FromPending?)
    ensures t.loop.Draining? && remove ==> t.loop.counted == s.shared.Count() && t.loop.kept == s.loop.origin.kept
  {
    match s.loop.origin
    case FromPending(left, kept, counted) =>
      if remove then s.(loop := Draining(left, kept, s.shared.Count()))
      else s.(loop := Draining(left, kept + [s.loop.issue], counted))
    case FromChannel =>
      if remove then s.(loop := Top) else s.(loop := Top, pending := s.pending + [s.loop.issue])
  }

  function SetChild(s: Sys, k: nat, pc: ChildPc): Sys
    requires k in s.children
  {
    s.(children := s.children[k := s.children[k].(pc := pc)])
  }

  predicate OfLoop(step: Step) {
    !OfChild(step) && !step.ReadActive? && !step.DrainReleased?
  }

  predicate OfChild(step: Step) {
    step.End? || step.Record? || step.Free? || step.Signal?
  }

  /** RunWithDiscovery's own bookkeeping: going round the loop, over the pending queue and through the select. */
  function LoopControl(max: nat, s: Sys, step: Step): Sys
    requires OfLoop(step) && Enabled(s, step)
  {
    match step
    case Begin => s.(loop := Draining(s.pending, [], s.shared.Count()), pending := [])
    case Drain =>
      var d := s.loop;
      if d.left == [] then s.(loop := Waiting, pending := d.kept)
      else if d.counted >= max then s.(loop := Draining(d.left[1..], d.kept + [d.left[0]], d.counted))
      else s.(loop := Trying(d.left[0], FromPending(d.left[1..], d.kept, d.counted), Reserving))
    case Wake => s.(shared := s.shared.(token := false), loop := Top)
    case Take => s.(queue := s.queue[1..], loop := Received(s.queue[0]))
    case Route =>
      var id := s.loop.issue;
      if s.shared.Count() < max then s.(loop := Trying(id, FromChannel, Reserving))
      else s.(loop := Top, pending := s.pending + [id])
    case _ => s
  }

  /** tryStart and the Start it calls. */
  function Launched(s: Sys): Sys
    requires s.loop.Trying?
  {
    var id := s.loop.issue;
    s.(shared := s.shared.Put(id, Child(s.next)),
       children := s.children[s.next := ChildState(id, Running)],
       next := s.next + 1,
       failCounts := s.failCounts - {id})
  }

  /** unreserveSlot's signal, when the worktree already exists: the issue stays suppressed for good. */
  function AlreadyHandled(s: Sys): Sys
    requires s.loop.Trying?
  {
    s.(shared := s.shared.Signal(), gaveUp := s.gaveUp + {s.loop.issue})
  }

  /** Another start failure: forget the issue so that it is found again, or give up on it. */
  function Charged(s: Sys): Sys
    requires s.loop.Trying?
  {
    var id := s.loop.issue;
    var n := StartFailures(s, id) + 1;
    var counted := s.(failCounts := s.failCounts[id := n]);
    if n < MAX_START_FAILURES then counted.(seen := s.seen - {id}) else counted.(gaveUp := s.gaveUp + {id})
  }

  function StartStep(max: nat, s: Sys, step: Step): Sys
    requires OfLoop(step) && Enabled(s, step)
  {
    match step
    case TryReserve =>
      (match Reserve(s.shared, max, s.loop.issue)
       case LimitReached => Answer(s, false)
       case AlreadyActive => s.(loop := s.loop.(stage := Failing))
       case Reserved => s.(shared := s.shared.Put(s.loop.issue, Placeholder), loop := s.loop.(stage := Launching)))
    case LaunchOk => Answer(Launched(s), true)
    case LaunchFails(handled) => s.(loop := s.loop.(stage := Unreserving(handled)))
    case Unreserve =>
      s.(shared := s.shared.Delete(s.loop.issue), loop := s.loop.(stage := Signalling(s.loop.stage.handled)))
    case SignalStartFailure =>
      if s.loop.stage.handled then Answer(AlreadyHandled(s), true)
      else s.(shared := s.shared.Signal(), loop := s.loop.(stage := Failing))
    case GiveUpOrRetry => Answer(Charged(s), true)
    case _ => s
  }

  predicate InStart(step: Step) {
    || step.TryReserve? || step.LaunchOk? || step.LaunchFails? || step.Unreserve?
    || step.SignalStartFailure? || step.GiveUpOrRetry?
  }

  function ChildStep(s: Sys, step: Step): Sys
    requires OfChild(step) && Enabled(s, step)
  {
    match step
    case End(k, outcome) => SetChild(s, k, Ended(outcome))
    case Record(k) =>
      var c := s.children[k];
      SetChild(s, k, Recorded(c.pc.outcome)).(
        shared := s.shared.Record(c.issue, c.pc.outcome))
    case Free(k) =>
      var c := s.children[k];
      SetChild(s, k, Freed).(
        shared := s.shared.Free(c.issue, c.pc.outcome),
        shipped := if c.pc.outcome == Done then s.shipped + {c.issue} else s.shipped,
        disc := if s.disc.Reading? then s.disc.(freed := s.disc.freed + {c.issue}) else s.disc)
    case Signal(k) => SetChild(s, k, Gone).(shared := s.shared.Signal())
  }

  /** The rest of poll's critical section, with the active set read earlier. */
  function Reconciled(s: Sys): Sys
    requires s.disc.Reading?
  {
    var emitted := Fresh(s.disc.list, s.disc.active + (s.seen - s.shared.released));
    var sent := (set id | id in emitted);
    s.(shared := s.shared.(released := {}),
       seen := (set id | id in s.disc.list),
       queue := emitted,
       disc := Idle,
       shipped := s.shipped - sent,
       gaveUp := s.gaveUp - sent)
  }

  function DiscoveryStep(s: Sys, step: Step): Sys
    requires !OfLoop(step) && !OfChild(step) && Enabled(s, step)
  {
    match step
    case ReadActive(list) => s.(disc := Reading(list, s.shared.Suppressed(), {}))
    case DrainReleased =>
      var after := Reconciled(s);
      var lost := (set id | id in s.disc.list && id in s.disc.freed && !Accounted(after, id));
      after.(swallowed := (s.swallowed - (set id | id in after.queue)) + lost)
  }

  function Apply(max: nat, s: Sys, step: Step): Sys
    requires Enabled(s, step)
  {
    if InStart(step) then StartStep(max, s, step)
    else if OfLoop(step) then LoopControl(max, s, step)
    else if OfChild(step) then ChildStep(s, step)
    else DiscoveryStep(s, step)
  }

  // ----- what an issue can be waiting for -----

  function LoopIssues(loop: LoopPc): seq<IssueId> {
    match loop
    case Top => []
    case Draining(left, kept, _) => kept + left
    case Trying(issue, FromPending(left, kept, _), _) => kept + [issue] + left
    case Trying(issue, FromChannel, _) => [issue]
    case Waiting => []
    case Received(issue) => [issue]
  }

  /** Somebody will bring the issue back or has finished with it, other than by a release. */
  predicate Held(s: Sys, id: IssueId) {
    || id in s.queue
    || id in s.pending
    || id in LoopIssues(s.loop)
    || id in s.shared.active
    || id in s.shipped
    || id in s.gaveUp
    || s.shared.AtCap(id)
  }

  /** A suppressed issue is accounted for. */
  predicate Accounted(s: Sys, id: IssueId) {
    Held(s, id) || id in s.shared.released
  }

  // ----- behaviours -----

  /** Whether the steps can be taken one after another from s. */
  predicate Possible(max: nat, s: Sys, steps: seq<Step>)
    decreases |steps|
  {
    steps == [] || (Enabled(s, steps[0]) && Possible(max, Apply(max, s, steps[0]), steps[1..]))
  }

  function Run(max: nat, s: Sys, steps: seq<Step>): Sys
    requires Possible(max, s, steps)
    decreases |steps|
  {
    if steps == [] then s else Run(max, Apply(max, s, steps[0]), steps[1..])
  }
}
