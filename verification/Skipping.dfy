/** Which phases a run skips, and why (jiradozer/workflow.go). */
module Skipping {
  import opened Common
  import opened WorkflowSteps
  import opened WorkflowSpec
  import opened WorkflowShape
  import opened ReviewGates

  /** A phase to skip: its -done label is there, or the table says so. */
  predicate Off(w: W, labels: set<Label>, p: Phase) {
    DoneLabel(p) in labels || p in w.skips
  }

  /** The step a run stands at when it is about to begin phase n. */
  function Beginning(n: nat): Step
    requires n <= 4
  {
    if n < 4 then StartStep(PHASES[n]) else Done
  }

  /** All phases from p on to n are skipped and marked done, and n is the first that is not. */
  ghost predicate Skips(w: W, t: W, labels: set<Label>, p: Phase, n: nat) {
    && Number(p) <= n <= 4
    && (forall q :: Number(p) <= Number(q) < n ==> Off(w, labels, q))
    && (n < 4 ==> !Off(w, labels, PHASES[n]))
    && t.Step() == (if n == Number(p) then w.Step() else Beginning(n))
    && forall q :: t.State(q) == if Number(p) <= Number(q) < n then Completed else w.State(q)
  }

  lemma SkipOne(rs: Replies, w: W, labels: set<Label>, p: Phase)
    requires PhaseForStep(w.Step()) == Some(p)
    ensures var t := SkipPhase(rs, w, labels, p);
            && t.Step() == Beginning(Number(p) + 1) && t.skips == w.skips
            && forall q :: t.State(q) == if q == p then Completed else w.State(q)
  {
    hide Remote.Remove;
    match p {
      case Plan =>
      case Build =>
      case Validate =>
      case Ship =>
    }
  }

  lemma {:induction false} SkipForwardMeaning(rs: Replies, w: W, labels: set<Label>, p: Phase) returns (n: nat)
    requires PhaseForStep(w.Step()) == Some(p)
    ensures Skips(w, SkipForward(rs, w, labels), labels, p, n)
    ensures SkipForward(rs, w, labels).skips == w.skips
    decreases 4 - Number(p)
  {
    hide SkipPhase, W.State;
    n := Number(p);
    if Off(w, labels, p) {
      SkipOne(rs, w, labels, p);
      var t := SkipPhase(rs, w, labels, p);
      n := n + 1;
      if n < 4 {
        n := SkipForwardMeaning(rs, t, labels, PHASES[n]);
      }
      forall q ensures Number(q) == Number(p) <==> q == p {
        assert PHASES[Number(q)] == q;
      }
    }
  }

  // ----- the table -----

  /** The table a fresh workflow would build from the configuration and these labels. */
  function Table(cfg: Config, labels: set<Label>): map<Phase, SkipSource> {
    Initial(cfg, labels, Remote({}, 0, [])).skips
  }

  /** Reconciling the table of some labels with others gives the table of the others: nothing of the first is left. */
  lemma ReconciledIsFresh(cfg: Config, labels: set<Label>, now: set<Label>)
    ensures Reconciled(cfg, Table(cfg, labels), now) == Table(cfg, now)
  {
  }

  /** What the table skips: what the configuration says and what a skip label says; labels outrank all but the CLI. */
  lemma TableMeaning(cfg: Config, labels: set<Label>, p: Phase)
    ensures p in Table(cfg, labels) <==> p in cfg.skip || SkipLabel(p) in labels
    ensures p in Table(cfg, labels) ==>
              Table(cfg, labels)[p] ==
                if SkipLabel(p) !in labels || (p in cfg.skip && cfg.skipSource == FromCli) then cfg.skipSource
                else FromLabel
  {
  }

  ghost predicate Fresh(cfg: Config, w: W) {
    w.Step() != Done ==> w.skips == Table(cfg, w.lastLabels)
  }

  /**
    Skipping looks at the labels as fetched now, or as last known when the fetch fails, and goes past exactly the run of
    phases that those labels or the configuration turn off.
   */
  lemma SkipMeaning(cfg: Config, rs: Replies, w: W, p: Phase) returns (n: nat)
    requires PhaseForStep(w.Step()) == Some(p) && w.skips == Table(cfg, w.lastLabels)
    ensures var t := SkipCompleted(cfg, rs, w);
            && t.lastLabels == (if w.remote.Answered(rs) then w.remote.Touch(rs).labels else w.lastLabels)
            && t.skips == Table(cfg, t.lastLabels)
            && Skips(w.(skips := t.skips), t, t.lastLabels, p, n)
  {
    hide Reconciled, Table, SkipForward;
    var t := Refresh(rs, w);
    ReconciledIsFresh(cfg, w.lastLabels, t.lastLabels);
    var u := t.(skips := Reconciled(cfg, t.skips, t.lastLabels));
    n := SkipForwardMeaning(rs, u, t.lastLabels, p);
    assert forall q :: u.State(q) == w.State(q);
  }

  lemma SkippingKeepsFresh(cfg: Config, rs: Replies, w: W)
    requires w.skips == Table(cfg, w.lastLabels)
    ensures Fresh(cfg, SkipCompleted(cfg, rs, w))
  {
    hide Reconciled, Table, SkipForward;
    var t := Refresh(rs, w);
    ReconciledIsFresh(cfg, w.lastLabels, t.lastLabels);
  }

  lemma BoundaryKeepsFresh(cfg: Config, rs: Replies, w: W)
    requires w.skips == Table(cfg, w.lastLabels)
    ensures Fresh(cfg, Boundary(cfg, rs, w))
  {
    hide SkipCompleted, CompletePrior, EnterCurrent, AtDone, Table;
    SkippingKeepsFresh(cfg, rs, CompletePrior(rs, w));
  }

  lemma AgentKeepsFresh(cfg: Config, rs: Replies, w: W)
    requires Runs(w.Step()) && !IsReview(w.Step()) && w.skips == Table(cfg, w.lastLabels)
    ensures Fresh(cfg, RunAgent(cfg, rs, w, Next(w.Step())))
  {
    hide Outcome, AtDone, Table, Next, Allowed, ToReview;
  }

  lemma ReviewKeepsFresh(cfg: Config, rs: Replies, w: W)
    requires IsReview(w.Step()) && w.skips == Table(cfg, w.lastLabels)
    ensures Fresh(cfg, RunReview(cfg, rs, w, Next(w.Step()), RedoTarget(w.Step())))
  {
    hide Listen, Asked, Approve, TryRedo, Fresh, Next, RedoTarget, Fail;
    var t := Asked(cfg, rs, w);
    FailKeepsFresh(cfg, t);
    RedoKeepsFresh(cfg, rs, t, RedoTarget(w.Step()));
    ApproveKeepsFresh(cfg, rs, t, Next(w.Step()), AutoApproved);
    if Listen(cfg, rs, w).Heard? {
      ApproveKeepsFresh(cfg, rs, t, Next(w.Step()), Approved(Listen(cfg, rs, w).comment));
      ApproveKeepsFresh(cfg, rs, t, Next(w.Step()), ApprovedAll(Listen(cfg, rs, w).comment));
    }
  }

  lemma FailKeepsFresh(cfg: Config, w: W)
    requires w.skips == Table(cfg, w.lastLabels)
    ensures Fresh(cfg, Fail(w))
  {
    hide Table;
  }

  lemma ApproveKeepsFresh(cfg: Config, rs: Replies, w: W, target: Step, trigger: Trigger)
    requires w.skips == Table(cfg, w.lastLabels)
    ensures var t := Approve(cfg, rs, w, target, trigger); Fresh(cfg, t) && Fresh(cfg, t.(approveAll := true))
  {
    hide Boundary, Table, Fail, Allowed;
    var m := w.Move(target, trigger);
    FailKeepsFresh(cfg, m);
    BoundaryKeepsFresh(cfg, rs, m);
  }

  lemma RedoKeepsFresh(cfg: Config, rs: Replies, w: W, target: Step)
    requires w.skips == Table(cfg, w.lastLabels)
    ensures Fresh(cfg, TryRedo(cfg, rs, w, target))
  {
    hide SkipCompleted, Reopen, Table, Fail, Fresh, Allowed;
    var t := Charge(w, target);
    FailKeepsFresh(cfg, t);
    FailKeepsFresh(cfg, t.Move(target, Redo));
    SkippingKeepsFresh(cfg, rs, Reopen(rs, t.Move(target, Redo), target));
  }

  lemma IterateKeepsFresh(cfg: Config, rs: Replies, w: W)
    requires Runs(w.Step()) && Fresh(cfg, w)
    ensures Fresh(cfg, Iterate(cfg, rs, w))
  {
    hide RunAgent, RunReview, Table;
    if IsReview(w.Step()) {
      ReviewKeepsFresh(cfg, rs, w);
    } else {
      AgentKeepsFresh(cfg, rs, w);
    }
  }

  lemma {:induction false} PassesAreFresh(cfg: Config, rs: Replies, w: W)
    requires Fresh(cfg, w)
    ensures forall t :: t in Passes(cfg, rs, w) ==> t.skips == Table(cfg, t.lastLabels)
    decreases Budget(cfg, w), 13 - Rank(w.Step())
  {
    hide Iterate, Budget, Table;
    var t := w.(remote := w.remote.Touch(rs));
    if !rs(w.remote.calls).cancelled && Runs(t.Step()) {
      SameBudget(cfg, w, t);
      Progress(cfg, rs, t);
      IterateKeepsFresh(cfg, rs, t);
      PassesAreFresh(cfg, rs, Iterate(cfg, rs, t));
    }
  }

  /**
    In every run, whatever others do to the labels in between and whichever fetches fail, the table at every pass is the
    one a fresh workflow would build from the labels last fetched.
   */
  lemma TableIsAlwaysFresh(cfg: Config, rs: Replies, labels: set<Label>, remote: Remote)
    ensures forall t :: t in RunPasses(cfg, rs, Initial(cfg, labels, remote)) ==> t.skips == Table(cfg, t.lastLabels)
  {
    var w := Initial(cfg, labels, remote).(remote := remote.Touch(rs));
    hide SkipCompleted, EnterCurrent, Passes;
    if remote.Answered(rs) {
      SkippingKeepsFresh(cfg, rs, w.Move(Planning, Start));
      PassesAreFresh(cfg, rs, Begin(cfg, rs, w));
    }
  }

  // ----- entering the phase a run comes to -----

  /** Every call from the n-th on succeeds; others may still edit labels. */
  ghost predicate OkFrom(rs: Replies, n: nat) {
    forall k :: k >= n ==> rs(k).ok
  }

  lemma EnterMeaning(rs: Replies, w: W, p: Phase)
    requires OkFrom(rs, w.remote.calls)
    ensures var t := Enter(rs, w, p);
            && t.State(p) == (if w.State(p) == NotStarted then InProgress else w.State(p))
            && (forall q :: q != p ==> t.State(q) == w.State(q))
            && (w.State(p) == NotStarted ==> InProgressLabel(p) in t.remote.labels)
  {
    assert rs(w.remote.calls).ok;
  }

  /** A boundary that does not end the run enters the phase it leads to, labels included. */
  lemma BoundaryEnters(cfg: Config, rs: Replies, w: W)
    requires w.Step() != Done && OkFrom(rs, w.remote.calls)
    ensures var t := Boundary(cfg, rs, w);
            PhaseForStep(t.Step()).Some? ==> t.State(PhaseForStep(t.Step()).value) != NotStarted
  {
    hide SkipCompleted, CompletePrior, Enter;
    ArrivalEnters(rs, SkipCompleted(cfg, rs, CompletePrior(rs, w)));
  }

  /** So does the start of a run. */
  lemma BeginEnters(cfg: Config, rs: Replies, w: W)
    requires w.Step() == Init && OkFrom(rs, w.remote.calls)
    ensures var t := Begin(cfg, rs, w);
            PhaseForStep(t.Step()).Some? ==> t.State(PhaseForStep(t.Step()).value) != NotStarted
  {
    hide SkipCompleted, Enter;
    ArrivalEnters(rs, SkipCompleted(cfg, rs, w.Move(Planning, Start)));
  }

  lemma ArrivalEnters(rs: Replies, w: W)
    requires OkFrom(rs, w.remote.calls)
    ensures var t := EnterCurrent(rs, w);
            && t.Step() == w.Step()
            && (PhaseForStep(t.Step()).Some? ==>
                  var p := PhaseForStep(t.Step()).value;
                  t.State(p) != NotStarted && (w.State(p) == NotStarted ==> InProgressLabel(p) in t.remote.labels))
  {
    hide Enter;
    if PhaseForStep(w.Step()).Some? {
      EnterMeaning(rs, w, PhaseForStep(w.Step()).value);
    }
  }

  lemma {:induction false} RewindEachResets(rs: Replies, w: W, ps: seq<Phase>)
    ensures var t := RewindEach(rs, w, ps);
            t.Step() == w.Step() && forall q :: t.State(q) == if q in ps then NotStarted else w.State(q)
    decreases |ps|
  {
    if ps != [] {
      RewindEachResets(rs, Rewind(rs, w, ps[0]), ps[1..]);
      assert ps == [ps[0]] + ps[1..];
    }
  }

  lemma ReopenMeaning(rs: Replies, w: W, p: Phase)
    requires OkFrom(rs, w.remote.calls) && w.Step() == StartStep(p)
    ensures var t := Reopen(rs, w, StartStep(p));
            && t.Step() == w.Step() && t.State(p) == InProgress
            && forall q :: Number(p) < Number(q) ==> t.State(q) == NotStarted
  {
    hide Enter, RewindEach;
    var later := PHASES[Number(p) + 1..];
    var u := ReopenTarget(rs, w, p);
    var marked := (if w.State(p) == Completed then w.(remote := w.remote.Remove(rs, DoneLabel(p))) else w)
        .Mark(p, NotStarted);
    EnterMeaning(rs, marked, p);
    RewindEachResets(rs, u, later);
    forall q ensures q in later <==> Number(p) < Number(q) {
      assert PHASES[Number(q)] == q;
    }
  }

  /**
    A redo enters the phase it ends up in exactly when it skips nothing: tryRedo skips on without entering, so a run
    that a label turns off between the gate and the redo works in a phase without its -inprogress label.
   */
  lemma RedoEntersIffNothingSkipped(cfg: Config, rs: Replies, w: W, p: Phase)
    requires IsReview(w.Step()) && Home(w.Step()) == Some(p) && w.Redos(StartStep(p)) < cfg.maxRedos
    requires OkFrom(rs, w.remote.calls)
    ensures var t := TryRedo(cfg, rs, w, StartStep(p));
            Home(t.Step()).Some? ==>
              var q := Home(t.Step()).value;
              (t.State(q) == InProgress <==> t.Step() == StartStep(p)) && (q != p ==> t.State(q) == NotStarted)
  {
    hide Reopen, SkipCompleted, W.State;
    assert Allowed(w.Step(), StartStep(p));
    var moved := Charge(w, StartStep(p)).Move(StartStep(p), Redo);
    assert Charge(w, StartStep(p)).Redos(StartStep(p)) == w.Redos(StartStep(p)) + 1;
    hide Allowed, Charge;
    ReopenMeaning(rs, moved, p);
    SkipsFromReopened(cfg, rs, Reopen(rs, moved, StartStep(p)), p);
  }

  lemma SkipsFromReopened(cfg: Config, rs: Replies, w: W, p: Phase)
    requires w.Step() == StartStep(p) && w.State(p) == InProgress
    requires forall q :: Number(p) < Number(q) ==> w.State(q) == NotStarted
    ensures var t := SkipCompleted(cfg, rs, w);
            Home(t.Step()).Some? ==>
              var q := Home(t.Step()).value;
              (t.State(q) == InProgress <==> t.Step() == StartStep(p)) && (q != p ==> t.State(q) == NotStarted)
  {
    hide SkipForward, Reconciled, W.State;
    var f := Refresh(rs, w);
    var ready := f.(skips := Reconciled(cfg, f.skips, f.lastLabels));
    SamePhases(w, ready);
    var n := SkipForwardMeaning(rs, ready, f.lastLabels, p);
  }

  lemma SamePhases(w: W, t: W)
    requires t.phases == w.phases
    ensures forall q :: t.State(q) == w.State(q)
  {
  }

  const ONE_REDO: Config := Config(false, false, false, false, {}, FromConfig, 1)

  /** Somebody puts a skip label on the issue while the plan is being redone. */
  const LABELLED: Reply :=
    Reply(true, true, Some({SkipLabel(Plan)}), false, Rounds([], false), Posting(None, None), [], [], 0)

  const AT_PLAN_REVIEW: W :=
    W(Machine(PlanReview, [], 0), map[Plan := InProgress], map[], map[], false, Thread([], None), {},
      Remote({InProgressLabel(Plan)}, 0, []), [])

  lemma RedoCanWorkUnannounced()
    ensures var t := TryRedo(ONE_REDO, (n: nat) => LABELLED, AT_PLAN_REVIEW, Planning);
            t.Step() == Building && t.State(Build) == NotStarted && InProgressLabel(Build) !in t.remote.labels
  {
    var rs: Replies := (n: nat) => LABELLED;
    var w := AT_PLAN_REVIEW;
    hide SkipForward, Reopen;
    RedoEntersIffNothingSkipped(ONE_REDO, rs, w, Plan);
    var u := Reopen(rs, Charge(w, Planning).Move(Planning, Redo), Planning);
    var f := Refresh(rs, u);
    var ready := f.(skips := Reconciled(ONE_REDO, f.skips, f.lastLabels));
    assert ready.skips == map[Plan := FromLabel];
    SkipsThePlan(rs, ready);
  }

  lemma SkipsThePlan(rs: Replies, w: W)
    requires w.Step() == Planning && w.skips == map[Plan := FromLabel] && forall n :: rs(n) == LABELLED
    requires InProgressLabel(Build) !in w.remote.labels
    ensures var t := SkipForward(rs, w, {SkipLabel(Plan)});
            t.Step() == Building && InProgressLabel(Build) !in t.remote.labels
  {
  }
}
