/**
  Phase labels over whole runs: memory and tracker agree, a crash between any two label writes loses no recorded phase,
  and a run without failures leaves the labels tidy (jiradozer/workflow.go).
 */
module LabelRuns {
  import opened Common
  import opened WorkflowSteps
  import opened WorkflowSpec
  import opened WorkflowShape
  import opened PhaseOrder
  import opened PhaseLabels

  lemma BeginKept(cfg: Config, start: set<Label>, clean: bool, rs: Replies, w: W)
    requires Alone(rs) && (clean ==> AllSucceed(rs)) && Labelled(cfg, start, clean, w) && Orderly(w)
    requires w.machine == FRESH && w.ran == []
    ensures Kept(cfg, start, clean, Begin(cfg, rs, w))
  {
    var m := w.Move(Planning, Start);
    SameLabelled(cfg, start, clean, w, m);
    MovingOrderly(w, m);
    assert BehindDone(m);
    SkipCompletedOrderly(cfg, rs, m);
    BoundaryJumps(cfg, rs, m);
    var t := SkipCompleted(cfg, rs, m);
    hide Orderly, Chain, Off, Labelled, BehindDone, SkipCompleted, EnterCurrent, Alone, AllSucceed, Jumps, ToSkip;
    SkipCompletedAgrees(cfg, start, clean, rs, m);
    NotToSkipOff(cfg, start, clean, m, t);
    EnterCurrentAgrees(cfg, start, clean, rs, t);
    EnteringBehind(rs, t);
  }

  /** Between passes. */
  ghost predicate Steady(cfg: Config, start: set<Label>, clean: bool, w: W) {
    InOrder(cfg, w) && Kept(cfg, start, clean, w)
  }

  lemma AskingSteady(cfg: Config, start: set<Label>, clean: bool, rs: Replies, w: W)
    requires Alone(rs) && Steady(cfg, start, clean, w)
    ensures Steady(cfg, start, clean, w.(remote := w.remote.Touch(rs)))
  {
    var t := w.(remote := w.remote.Touch(rs));
    SameLabelled(cfg, start, clean, w, t);
    MovingOrderly(w, t);
    hide Labelled, Orderly, OffRan, Off;
  }

  lemma {:induction false} LoopSteady(cfg: Config, start: set<Label>, clean: bool, rs: Replies, w: W)
    requires Alone(rs) && (clean ==> AllSucceed(rs)) && Steady(cfg, start, clean, w)
    ensures var (t, ending) := Loop(cfg, rs, w);
            Steady(cfg, start, clean, t) && (ending == Returned ==> t.Step() == Done)
    decreases Budget(cfg, w), 13 - Rank(w.Step())
  {
    var t := w.(remote := w.remote.Touch(rs));
    AskingSteady(cfg, start, clean, rs, w);
    hide Iterate, Budget, Orderly, Kept, SkipsKept, SkipsObeyed, Alone, AllSucceed;
    SameBudget(cfg, w, t);
    if !rs(w.remote.calls).cancelled && Runs(t.Step()) {
      Progress(cfg, rs, t);
      IterateInOrder(cfg, rs, t);
      IterateKept(cfg, start, clean, rs, t);
      LoopSteady(cfg, start, clean, rs, Iterate(cfg, rs, t));
    }
  }

  lemma InitialLabelled(cfg: Config, start: set<Label>, clean: bool, remote: Remote)
    requires remote.labels == start && remote.writes == []
    ensures Labelled(cfg, start, clean, Initial(cfg, start, remote))
  {
  }

  lemma RunSteady(cfg: Config, start: set<Label>, clean: bool, rs: Replies, calls: nat)
    requires Alone(rs) && (clean ==> AllSucceed(rs))
    ensures var (t, ending) := Run(cfg, rs, Initial(cfg, start, Remote(start, calls, [])));
            && Labelled(cfg, start, clean, t) && OffRan(cfg, start, t.ran) && GoodWrites(t)
            && (clean && ending == Returned ==> BehindDone(t) && t.Step() == Done)
  {
    var remote := Remote(start, calls, []);
    var w := Initial(cfg, start, remote);
    var t := w.(remote := remote.Touch(rs));
    InitialInOrder(cfg, start, remote);
    InitialLabelled(cfg, start, clean, remote);
    MovingOrderly(w, t);
    SameLabelled(cfg, start, clean, w, t);
    assert OffRan(cfg, start, []);
    hide Loop, Begin, Labelled, BehindDone, OffRan, Alone, AllSucceed, NotPassed;
    if remote.Answered(rs) {
      BeginInOrder(cfg, rs, t);
      BeginKept(cfg, start, clean, rs, t);
      LoopSteady(cfg, start, clean, rs, Begin(cfg, rs, t));
    }
  }

  /**
    Under any write failures, while nobody else edits labels: a phase in progress in memory has its -inprogress label,
    a phase done in memory has its -done label or is configured to be skipped, and nothing ran of a phase that was
    recorded as done, or to be skipped, when the run started.
   */
  lemma MemoryAndTrackerAgree(cfg: Config, start: set<Label>, rs: Replies, calls: nat, p: Phase)
    requires Alone(rs)
    ensures var t := Run(cfg, rs, Initial(cfg, start, Remote(start, calls, []))).0;
            && (t.State(p) == InProgress ==> InProgressLabel(p) in t.remote.labels)
            && (t.State(p) == Completed ==> DoneLabel(p) in t.remote.labels || Configured(cfg, start, p))
            && (Off(cfg, start, p) ==> forall s :: s in t.ran ==> PhaseForStep(s) != Some(p))
  {
    RunSteady(cfg, start, false, rs, calls);
    var t := Run(cfg, rs, Initial(cfg, start, Remote(start, calls, []))).0;
    assert Agrees(cfg, start, false, t, p);
    hide Run, Off, Configured;
  }

  /** -done labels only accumulate along the writes of a run. */
  lemma {:induction false} DoneAccumulates(labels: set<Label>, writes: seq<Write>, j: nat, k: nat, p: Phase)
    requires (forall x :: x in writes ==> GoodWrite(x)) && j <= k <= |writes|
    requires DoneLabel(p) in Replay(labels, writes[..j])
    ensures DoneLabel(p) in Replay(labels, writes[..k])
    decreases k
  {
    if j < k {
      DoneAccumulates(labels, writes, j, k - 1, p);
      assert writes[..k][..k - 1] == writes[..k - 1];
      assert GoodWrite(writes[k - 1]);
    }
  }

  /**
    A run crashes after any k of its label writes took effect. Every phase recorded as done after any j <= k of them is
    still recorded, and a second run from there executes nothing of it.
   */
  lemma CrashNeverRedoesARecordedPhase(cfg: Config, start: set<Label>, rs: Replies, calls: nat, j: nat, k: nat,
                                       p: Phase, again: Config, replies: Replies, later: nat)
    requires Alone(rs) && Alone(replies)
    requires var t := Run(cfg, rs, Initial(cfg, start, Remote(start, calls, []))).0;
             j <= k <= |t.remote.writes| && DoneLabel(p) in Replay(start, t.remote.writes[..j])
    ensures var t := Run(cfg, rs, Initial(cfg, start, Remote(start, calls, []))).0;
            var left := Replay(start, t.remote.writes[..k]);
            && t.remote.labels == Replay(start, t.remote.writes)
            && DoneLabel(p) in left
            && forall s :: s in Run(again, replies, Initial(again, left, Remote(left, later, []))).0.ran ==>
                PhaseForStep(s) != Some(p)
  {
    RunSteady(cfg, start, false, rs, calls);
    var t := Run(cfg, rs, Initial(cfg, start, Remote(start, calls, []))).0;
    hide Run, GoodWrite, Agrees;
    DoneAccumulates(start, t.remote.writes, j, k, p);
    MemoryAndTrackerAgree(again, Replay(start, t.remote.writes[..k]), replies, later, p);
  }

  /**
    When every call succeeds and nobody else edits labels, a run that returns through the done step leaves no
    -inprogress label, and -done on every phase not configured to be skipped, however it got there.
   */
  lemma CleanFinish(cfg: Config, start: set<Label>, rs: Replies, calls: nat, p: Phase)
    requires Alone(rs) && AllSucceed(rs)
    ensures var (t, ending) := Run(cfg, rs, Initial(cfg, start, Remote(start, calls, [])));
            ending == Returned ==>
              InProgressLabel(p) !in t.remote.labels && (Configured(cfg, start, p) || DoneLabel(p) in t.remote.labels)
  {
    RunSteady(cfg, start, true, rs, calls);
    var (t, ending) := Run(cfg, rs, Initial(cfg, start, Remote(start, calls, [])));
    assert Agrees(cfg, start, true, t, p);
    hide Run, Configured;
  }

  // ----- the terminal sweep -----

  /** From the n-th call on nobody edits labels and every call succeeds. */
  ghost predicate CalmFrom(rs: Replies, n: nat) {
    forall k :: k >= n ==> rs(k).ok && rs(k).edited == None
  }

  /** The phases of ps that are done in memory lose their -inprogress label, and no other label changes. */
  ghost predicate Swept(before: W, after: W, ps: seq<Phase>) {
    && after.phases == before.phases
    && forall l: Label :: l in after.remote.labels <==>
         l in before.remote.labels && !(l.InProgressLabel? && l.phase in ps && before.State(l.phase) == Completed)
  }

  lemma {:induction false} SweepTidies(rs: Replies, w: W, labels: set<Label>, ps: seq<Phase>)
    requires CalmFrom(rs, w.remote.calls)
    requires forall p :: p in ps && InProgressLabel(p) in w.remote.labels ==> InProgressLabel(p) in labels
    ensures Swept(w, RemoveStale(rs, w, labels, ps), ps)
    decreases |ps|
  {
    if ps != [] {
      var t := ClearStale(rs, w, labels, ps[0]);
      assert rs(w.remote.calls).ok && rs(w.remote.calls).edited == None;
      SweepTidies(rs, t, labels, ps[1..]);
      assert ps == [ps[0]] + ps[1..];
    }
  }

  /** The phases of ps are done, newly done ones have their -done label, and other -done labels stay. */
  ghost predicate Finished(before: W, after: W, ps: seq<Phase>) {
    && before.remote.calls <= after.remote.calls
    && (forall p :: after.State(p) == if p in ps then Completed else before.State(p))
    && forall p :: DoneLabel(p) in before.remote.labels || (p in ps && before.State(p) != Completed) ==>
         DoneLabel(p) in after.remote.labels
  }

  lemma {:induction false} CompleteEachFinishes(rs: Replies, w: W, ps: seq<Phase>)
    requires CalmFrom(rs, w.remote.calls)
    ensures Finished(w, CompleteEach(rs, w, ps), ps)
    decreases |ps|
  {
    if ps != [] {
      var n := w.remote.calls;
      assert rs(n).ok && rs(n).edited == None && rs(n + 1).ok && rs(n + 1).edited == None;
      var t := Complete(rs, w, ps[0]);
      CompleteEachFinishes(rs, t, ps[1..]);
      assert ps == [ps[0]] + ps[1..];
    }
  }

  lemma AllFinish(rs: Replies, w: W)
    requires CalmFrom(rs, w.remote.calls)
    ensures var t := Complete(rs, CompleteEach(rs, w, [Plan, Build, Validate]), Ship);
            && w.remote.calls <= t.remote.calls
            && forall p :: t.State(p) == Completed && (w.State(p) != Completed ==> DoneLabel(p) in t.remote.labels)
  {
    var t := CompleteEach(rs, w, [Plan, Build, Validate]);
    CompleteEachFinishes(rs, w, [Plan, Build, Validate]);
    CompleteEachFinishes(rs, t, [Ship]);
    LastOfOne(rs, t, Ship);
    hide Complete, CompleteEach, CalmFrom, W.State;
    forall p ensures p in [Plan, Build, Validate] || p in [Ship] {
      assert PHASES[Number(p)] == p;
    }
  }

  lemma LastOfOne(rs: Replies, w: W, p: Phase)
    ensures CompleteEach(rs, w, [p]) == Complete(rs, w, p)
  {
    assert [p][1..] == [];
    hide Complete;
  }

  lemma CleanupTidies(rs: Replies, w: W)
    requires CalmFrom(rs, w.remote.calls)
    ensures Swept(w, CleanupStale(rs, w), PHASES)
  {
    hide RemoveStale;
    var t := Refresh(rs, w);
    assert rs(w.remote.calls).ok && rs(w.remote.calls).edited == None;
    SweepTidies(rs, t, t.lastLabels, PHASES);
  }

  lemma EndBoundary(cfg: Config, rs: Replies, w: W)
    requires w.Step() == Done
    ensures Boundary(cfg, rs, w) == CleanupStale(rs, Complete(rs, CompleteEach(rs, w, [Plan, Build, Validate]), Ship))
  {
    hide CleanupStale, Complete, CompleteEach, SkipCompleted, CompletePrior, EnterCurrent;
  }

  /**
    The last boundary leaves every phase done and no -inprogress label behind, whatever earlier removals failed or
    others did to the labels before, once its own calls succeed.
   */
  lemma FinishTidiesUp(cfg: Config, rs: Replies, w: W)
    requires w.Step() == Done && CalmFrom(rs, w.remote.calls)
    ensures var t := Boundary(cfg, rs, w);
            forall p :: t.State(p) == Completed && InProgressLabel(p) !in t.remote.labels
                        && (w.State(p) != Completed ==> DoneLabel(p) in t.remote.labels)
  {
    hide Complete, CompleteEach, CleanupStale, Boundary;
    var t := Complete(rs, CompleteEach(rs, w, [Plan, Build, Validate]), Ship);
    AllFinish(rs, w);
    EndBoundary(cfg, rs, w);
    CleanupTidies(rs, t);
    forall p ensures p in PHASES {
      assert PHASES[Number(p)] == p;
    }
  }
}
