/**
  Phase labels when nobody else edits them, under any label write failures (jiradozer/workflow.go): what the memory says
  about a phase the tracker says too, and a phase recorded as done before a run is never executed by it.
 */
module PhaseLabels {
  import opened Common
  import opened WorkflowSteps
  import opened WorkflowSpec
  import opened WorkflowShape
  import opened PhaseOrder

  ghost predicate Alone(rs: Replies) {
    forall n :: rs(n).edited == None
  }

  ghost predicate AllSucceed(rs: Replies) {
    forall n :: rs(n).ok
  }

  /** The labels after some writes. */
  function Replay(labels: set<Label>, writes: seq<Write>): set<Label> {
    if writes == [] then labels
    else
      var before := Replay(labels, writes[..|writes| - 1]);
      match writes[|writes| - 1]
      case Added(l) => before + {l}
      case Removed(l) => before - {l}
  }

  /** The configuration or a starting label says to skip the phase. */
  predicate Configured(cfg: Config, start: set<Label>, p: Phase) {
    p in cfg.skip || SkipLabel(p) in start
  }

  /** Nothing of the phase may run: it is to be skipped or was recorded as done before the run. */
  predicate Off(cfg: Config, start: set<Label>, p: Phase) {
    Configured(cfg, start, p) || DoneLabel(p) in start
  }

  /** What memory and tracker agree on for a phase; clean when no outside call fails. */
  predicate Agree(cfg: Config, start: set<Label>, clean: bool, labels: set<Label>, last: set<Label>, skipped: bool,
                  state: PhaseState, p: Phase) {
    && (state == InProgress ==> InProgressLabel(p) in labels)
    && (state == Completed ==> DoneLabel(p) in labels || Configured(cfg, start, p))
    && (DoneLabel(p) in start ==> DoneLabel(p) in last)
    && (DoneLabel(p) in last ==> DoneLabel(p) in labels)
    && (SkipLabel(p) in labels <==> SkipLabel(p) in start)
    && (SkipLabel(p) in last <==> SkipLabel(p) in start)
    && (skipped <==> Configured(cfg, start, p))
    && (clean && state == Completed ==> InProgressLabel(p) !in labels)
  }

  predicate Agrees(cfg: Config, start: set<Label>, clean: bool, w: W, p: Phase) {
    Agree(cfg, start, clean, w.remote.labels, w.lastLabels, p in w.skips, w.State(p), p)
  }

  ghost predicate Labelled(cfg: Config, start: set<Label>, clean: bool, w: W) {
    && (forall p :: Agrees(cfg, start, clean, w, p))
    && w.remote.labels == Replay(start, w.remote.writes)
  }

  lemma WritesReplay(rs: Replies, r: Remote, start: set<Label>, l: Label)
    requires Alone(rs) && r.labels == Replay(start, r.writes)
    ensures r.Touch(rs).labels == r.labels
    ensures r.Add(rs, l).labels == Replay(start, r.Add(rs, l).writes)
    ensures r.Remove(rs, l).labels == Replay(start, r.Remove(rs, l).writes)
  {
    assert (r.writes + [Added(l)])[..|r.writes|] == r.writes;
    assert (r.writes + [Removed(l)])[..|r.writes|] == r.writes;
  }

  // ----- label operations -----

  /** What a label write leaves behind when nobody else edits. */
  lemma WriteEffects(rs: Replies, r: Remote, l: Label)
    requires Alone(rs)
    ensures r.Add(rs, l).calls == r.Remove(rs, l).calls == r.calls + 1
    ensures r.Add(rs, l).labels == r.labels + {l} || (!r.Answered(rs) && r.Add(rs, l).labels == r.labels)
    ensures r.Remove(rs, l).labels == r.labels - {l} || (!r.Answered(rs) && r.Remove(rs, l).labels == r.labels)
  {
  }

  lemma EnterEffect(rs: Replies, w: W, p: Phase, q: Phase)
    requires Alone(rs)
    ensures var t := Enter(rs, w, p); var labels := w.remote.labels;
            && t.State(q) == (if p == q && w.State(p) == NotStarted
                && w.remote.Answered(rs) then InProgress else w.State(q))
            && (t.remote.labels == labels + {InProgressLabel(p)}
                || (t.remote.labels == labels && (w.State(p) != NotStarted || !w.remote.Answered(rs))))
            && (w.State(p) != NotStarted ==> t == w)
  {
    WriteEffects(rs, w.remote, InProgressLabel(p));
    hide Remote.Add, Alone;
  }

  lemma EnterAt(cfg: Config, start: set<Label>, clean: bool, rs: Replies, w: W, p: Phase, q: Phase)
    requires Alone(rs) && Agrees(cfg, start, clean, w, q)
    ensures Agrees(cfg, start, clean, Enter(rs, w, p), q)
  {
    EnterEffect(rs, w, p, q);
    hide Enter, W.State, Alone, Configured, Remote.Answered;
  }

  lemma CompleteEffect(rs: Replies, w: W, p: Phase, q: Phase)
    requires Alone(rs) && w.State(p) != Completed
    ensures var t := Complete(rs, w, p); var labels := w.remote.labels;
            && t.State(q) == (if p == q && w.remote.Answered(rs) then Completed else w.State(q))
            && (w.remote.Answered(rs) ==>
                  || t.remote.labels == labels + {DoneLabel(p)} - {InProgressLabel(p)}
                  || (!rs(w.remote.calls + 1).ok && t.remote.labels == labels + {DoneLabel(p)}))
            && (!w.remote.Answered(rs) ==> t.remote.labels == labels + {DoneLabel(p)} || t.remote.labels == labels)
  {
    WriteEffects(rs, w.remote, DoneLabel(p));
    WriteEffects(rs, w.remote.Add(rs, DoneLabel(p)), InProgressLabel(p));
    hide Remote.Add, Remote.Remove, Alone;
  }

  lemma CompleteAt(cfg: Config, start: set<Label>, clean: bool, rs: Replies, w: W, p: Phase, q: Phase)
    requires Alone(rs) && (clean ==> AllSucceed(rs)) && Agrees(cfg, start, clean, w, q)
    ensures Agrees(cfg, start, clean, Complete(rs, w, p), q)
  {
    if w.State(p) != Completed {
      CompleteEffect(rs, w, p, q);
      assert clean ==> rs(w.remote.calls + 1).ok;
      hide Complete, W.State, Alone, AllSucceed, Configured, Remote.Answered;
    }
  }

  lemma SkipPhaseEffect(rs: Replies, w: W, labels: set<Label>, p: Phase, q: Phase)
    requires Alone(rs)
    ensures var t := SkipPhase(rs, w, labels, p);
            && t.State(q) == (if p == q then Completed else w.State(q))
            && (|| t.remote.labels == w.remote.labels - {InProgressLabel(p)}
                || (t.remote.labels == w.remote.labels && (!rs(w.remote.calls).ok || InProgressLabel(p) !in labels)))
  {
    WriteEffects(rs, w.remote, InProgressLabel(p));
    hide Remote.Remove, Alone;
  }

  lemma SkipPhaseAt(cfg: Config, start: set<Label>, clean: bool, rs: Replies, w: W, labels: set<Label>, p: Phase,
      q: Phase)
    requires Alone(rs) && (clean ==> AllSucceed(rs)) && Agrees(cfg, start, clean, w, q)
    requires DoneLabel(p) in labels ==> DoneLabel(p) in w.remote.labels
    requires DoneLabel(p) in labels || p in w.skips
    requires clean ==> w.remote.labels <= labels
    ensures Agrees(cfg, start, clean, SkipPhase(rs, w, labels, p), q)
  {
    SkipPhaseEffect(rs, w, labels, p, q);
    assert clean ==> rs(w.remote.calls).ok;
    hide SkipPhase, W.State, Alone, AllSucceed, Configured;
  }

  lemma EnterAgrees(cfg: Config, start: set<Label>, clean: bool, rs: Replies, w: W, p: Phase)
    requires Alone(rs) && (clean ==> AllSucceed(rs)) && Labelled(cfg, start, clean, w)
    ensures Labelled(cfg, start, clean, Enter(rs, w, p))
  {
    WritesReplay(rs, w.remote, start, InProgressLabel(p));
    hide Replay, Agrees;
    forall q ensures Agrees(cfg, start, clean, Enter(rs, w, p), q) {
      EnterAt(cfg, start, clean, rs, w, p, q);
    }
  }

  lemma EnterCurrentAgrees(cfg: Config, start: set<Label>, clean: bool, rs: Replies, w: W)
    requires Alone(rs) && (clean ==> AllSucceed(rs)) && Labelled(cfg, start, clean, w)
    ensures Labelled(cfg, start, clean, EnterCurrent(rs, w))
  {
    hide Labelled, Enter;
    if PhaseForStep(w.Step()).Some? {
      EnterAgrees(cfg, start, clean, rs, w, PhaseForStep(w.Step()).value);
    }
  }

  lemma CompleteReplays(rs: Replies, w: W, start: set<Label>, p: Phase)
    requires Alone(rs) && w.remote.labels == Replay(start, w.remote.writes)
    ensures var t := Complete(rs, w, p); t.remote.labels == Replay(start, t.remote.writes)
  {
    WritesReplay(rs, w.remote, start, DoneLabel(p));
    WritesReplay(rs, w.remote.Add(rs, DoneLabel(p)), start, InProgressLabel(p));
    hide Replay, Remote.Add, Remote.Remove, Remote.Touch;
  }

  lemma CompleteAgrees(cfg: Config, start: set<Label>, clean: bool, rs: Replies, w: W, p: Phase)
    requires Alone(rs) && (clean ==> AllSucceed(rs)) && Labelled(cfg, start, clean, w)
    ensures var t := Complete(rs, w, p);
            && Labelled(cfg, start, clean, t)
            && (clean ==> t.State(p) == Completed)
            && forall q :: w.State(q) == Completed ==> t.State(q) == Completed
  {
    var t := Complete(rs, w, p);
    CompleteReplays(rs, w, start, p);
    forall q
      ensures Agrees(cfg, start, clean, t, q)
      ensures w.State(q) == Completed || (clean && q == p) ==> t.State(q) == Completed
    {
      CompleteAt(cfg, start, clean, rs, w, p, q);
      if w.State(p) != Completed {
        CompleteEffect(rs, w, p, q);
      }
    }
    hide Replay, Agrees, Complete, W.State;
  }

  lemma {:induction false} CompleteEachAgrees(cfg: Config, start: set<Label>, clean: bool, rs: Replies, w: W,
      ps: seq<Phase>)
    requires Alone(rs) && (clean ==> AllSucceed(rs)) && Labelled(cfg, start, clean, w)
    ensures var t := CompleteEach(rs, w, ps);
            && Labelled(cfg, start, clean, t)
            && forall q :: w.State(q) == Completed || (clean && q in ps) ==> t.State(q) == Completed
    decreases |ps|
  {
    hide Labelled, Complete, Alone, AllSucceed;
    if ps != [] {
      CompleteAgrees(cfg, start, clean, rs, w, ps[0]);
      CompleteEachAgrees(cfg, start, clean, rs, Complete(rs, w, ps[0]), ps[1..]);
    }
  }

  /** When no call fails every phase before the current one ends up done. */
  ghost predicate BehindDone(w: W) {
    forall p :: Number(p) < Position(w.Step()) ==> w.State(p) == Completed
  }

  lemma CompletePriorAgrees(cfg: Config, start: set<Label>, clean: bool, rs: Replies, w: W)
    requires Alone(rs) && (clean ==> AllSucceed(rs)) && Labelled(cfg, start, clean, w) && w.Step() != Done
    requires PhaseForStep(w.Step()).Some?
    ensures var t := CompletePrior(rs, w); Labelled(cfg, start, clean, t) && (clean ==> BehindDone(t))
  {
    hide Labelled, CompleteEach, Alone, AllSucceed;
    var p := PhaseForStep(w.Step()).value;
    PhasesBefore(p);
    CompleteEachAgrees(cfg, start, clean, rs, w, PHASES[..Number(p)]);
  }

  lemma RefreshAgrees(cfg: Config, start: set<Label>, clean: bool, rs: Replies, w: W)
    requires Alone(rs) && (clean ==> AllSucceed(rs)) && Labelled(cfg, start, clean, w)
    ensures var t := Refresh(rs, w);
            && Labelled(cfg, start, clean, t)
            && t.remote.labels == w.remote.labels
            && (clean ==> t.lastLabels == t.remote.labels)
  {
    var t := Refresh(rs, w);
    hide Replay, Configured;
    forall q ensures Agrees(cfg, start, clean, t, q) {
      assert Agrees(cfg, start, clean, w, q);
    }
  }

  lemma {:induction false} RemoveStaleAgrees(cfg: Config, start: set<Label>, clean: bool, rs: Replies, w: W,
                                             labels: set<Label>, ps: seq<Phase>)
    requires Alone(rs) && Labelled(cfg, start, clean, w)
    ensures Labelled(cfg, start, clean, RemoveStale(rs, w, labels, ps))
    decreases |ps|
  {
    hide Replay, Configured;
    if ps != [] {
      WritesReplay(rs, w.remote, start, InProgressLabel(ps[0]));
      var t := if w.State(ps[0]) == Completed && InProgressLabel(ps[0]) in labels
               then w.(remote := w.remote.Remove(rs, InProgressLabel(ps[0]))) else w;
      forall q ensures Agrees(cfg, start, clean, t, q) {
        assert Agrees(cfg, start, clean, w, q);
      }
      RemoveStaleAgrees(cfg, start, clean, rs, t, labels, ps[1..]);
    }
  }

  lemma AtDoneAgrees(cfg: Config, start: set<Label>, clean: bool, rs: Replies, w: W)
    requires Alone(rs) && (clean ==> AllSucceed(rs)) && Labelled(cfg, start, clean, w)
    ensures var t := AtDone(rs, w); Labelled(cfg, start, clean, t) && (clean ==> BehindDone(t))
  {
    hide Labelled, Complete, CompleteEach, Refresh, RemoveStale, Alone, AllSucceed;
    var early := [Plan, Build, Validate];
    CompleteEachAgrees(cfg, start, clean, rs, w, early);
    var t := CompleteEach(rs, w, early);
    CompleteAgrees(cfg, start, clean, rs, t, Ship);
    var u := Complete(rs, t, Ship);
    RefreshAgrees(cfg, start, clean, rs, u);
    RemoveStaleAgrees(cfg, start, clean, rs, Refresh(rs, u), Refresh(rs, u).lastLabels, PHASES);
    forall p | clean ensures AtDone(rs, w).State(p) == Completed {
      assert p in early || p == Ship;
      assert u.State(p) == Completed;
    }
  }

  lemma SkipPhaseAgrees(cfg: Config, start: set<Label>, clean: bool, rs: Replies, w: W, labels: set<Label>, p: Phase)
    requires Alone(rs) && (clean ==> AllSucceed(rs)) && Labelled(cfg, start, clean, w)
    requires DoneLabel(p) in labels ==> DoneLabel(p) in w.remote.labels
    requires DoneLabel(p) in labels || p in w.skips
    requires clean ==> w.remote.labels <= labels
    ensures var t := SkipPhase(rs, w, labels, p);
            Labelled(cfg, start, clean, t) && (clean ==> t.remote.labels <= labels)
  {
    WritesReplay(rs, w.remote, start, InProgressLabel(p));
    hide Replay, Agrees;
    forall q ensures Agrees(cfg, start, clean, SkipPhase(rs, w, labels, p), q) {
      SkipPhaseAt(cfg, start, clean, rs, w, labels, p, q);
    }
  }

  lemma {:induction false} SkipForwardAgrees(cfg: Config, start: set<Label>, clean: bool, rs: Replies, w: W)
    requires Alone(rs) && (clean ==> AllSucceed(rs)) && Labelled(cfg, start, clean, w)
    requires clean ==> w.remote.labels <= w.lastLabels && BehindDone(w)
    ensures var t := SkipForward(rs, w, w.lastLabels); Labelled(cfg, start, clean, t) && (clean ==> BehindDone(t))
    decreases 13 - Rank(w.Step())
  {
    hide Replay, Configured, Alone, AllSucceed;
    if ToSkip(w, w.lastLabels) {
      var p := PhaseForStep(w.Step()).value;
      var t := SkipPhase(rs, w, w.lastLabels, p);
      assert Agrees(cfg, start, clean, w, p);
      hide Agrees;
      SkipPhaseAgrees(cfg, start, clean, rs, w, w.lastLabels, p);
      SkipPhaseBehind(rs, w, w.lastLabels, p);
      SkipForwardAgrees(cfg, start, clean, rs, t);
    }
  }

  lemma SkipPhaseBehind(rs: Replies, w: W, labels: set<Label>, p: Phase)
    requires PhaseForStep(w.Step()) == Some(p)
    ensures BehindDone(w) ==> BehindDone(SkipPhase(rs, w, labels, p))
  {
  }

  lemma SkipCompletedAgrees(cfg: Config, start: set<Label>, clean: bool, rs: Replies, w: W)
    requires Alone(rs) && (clean ==> AllSucceed(rs)) && Labelled(cfg, start, clean, w) && (clean ==> BehindDone(w))
    ensures var t := SkipCompleted(cfg, rs, w); Labelled(cfg, start, clean, t) && (clean ==> BehindDone(t))
  {
    hide SkipForward, Replay, Alone, AllSucceed, Refresh;
    RefreshAgrees(cfg, start, clean, rs, w);
    var t := Refresh(rs, w);
    var u := t.(skips := Reconciled(cfg, t.skips, t.lastLabels));
    assert clean ==> u.remote.labels <= u.lastLabels;
    assert Labelled(cfg, start, clean, u) by {
      forall q ensures Agrees(cfg, start, clean, u, q) {
        assert Agrees(cfg, start, clean, t, q);
      }
    }
    assert clean ==> BehindDone(u) by {
      forall p | clean && Number(p) < Position(u.Step()) ensures u.State(p) == Completed {
        assert w.State(p) == Completed;
      }
    }
    hide Agrees, BehindDone;
    SkipForwardAgrees(cfg, start, clean, rs, u);
  }

  lemma RewindEachAgrees(cfg: Config, start: set<Label>, clean: bool, rs: Replies, w: W, ps: seq<Phase>)
    requires Alone(rs) && Labelled(cfg, start, clean, w) && Orderly(w) && forall p :: p in ps ==>
        Position(w.Step()) < Number(p)
    ensures var t := RewindEach(rs, w, ps); Labelled(cfg, start, clean, t)
    decreases |ps|
  {
    hide Replay, Configured, Position;
    if ps != [] {
      assert PhaseAhead(w, ps[0]);
      var t := Rewind(rs, w, ps[0]);
      assert t == w.Mark(ps[0], NotStarted);
      forall q ensures Agrees(cfg, start, clean, t, q) && PhaseAhead(t, q) {
        assert Agrees(cfg, start, clean, w, q) && PhaseAhead(w, q);
      }
      RewindEachAgrees(cfg, start, clean, rs, t, ps[1..]);
    }
  }

  lemma {:induction false} RewindElsewhere(rs: Replies, w: W, ps: seq<Phase>, q: Phase)
    requires q !in ps
    ensures RewindEach(rs, w, ps).State(q) == w.State(q)
    decreases |ps|
  {
    if ps != [] {
      RewindElsewhere(rs, Rewind(rs, w, ps[0]), ps[1..], q);
    }
  }

  lemma ResetAgrees(cfg: Config, start: set<Label>, clean: bool, w: W, p: Phase)
    requires Labelled(cfg, start, clean, w) && Orderly(w) && PhaseForStep(w.Step()) == Some(p)
    ensures var t := w.Mark(p, NotStarted); Labelled(cfg, start, clean, t) && Orderly(t) && w.State(p) != Completed
  {
    var t := w.Mark(p, NotStarted);
    assert Position(w.Step()) == Number(p) && PhaseAhead(w, p);
    hide Replay, Configured, Position;
    forall q ensures Agrees(cfg, start, clean, t, q) && PhaseAhead(t, q) {
      assert Agrees(cfg, start, clean, w, q) && PhaseAhead(w, q);
    }
  }

  lemma ReopenAgrees(cfg: Config, start: set<Label>, clean: bool, rs: Replies, w: W, p: Phase)
    requires Alone(rs) && (clean ==> AllSucceed(rs)) && Labelled(cfg, start, clean, w) && Orderly(w)
    requires w.Step() == StartStep(p)
    ensures Labelled(cfg, start, clean, Reopen(rs, w, StartStep(p)))
    ensures BehindDone(w) ==> BehindDone(Reopen(rs, w, StartStep(p)))
  {
    var t := w.Mark(p, NotStarted);
    var u := Enter(rs, t, p);
    var rest := PHASES[Number(p) + 1..];
    ResetAgrees(cfg, start, clean, w, p);
    PhasesBefore(p);
    assert Position(w.Step()) == Number(p);
    assert Reopen(rs, w, StartStep(p)) == RewindEach(rs, u, rest);
    forall q | Number(q) < Number(p) ensures RewindEach(rs, u, rest).State(q) == w.State(q) {
      RewindElsewhere(rs, u, rest, q);
      EnterEffect(rs, t, p, q);
    }
    hide RewindEach, Enter, Labelled, Orderly, AllSucceed, Alone, Reopen;
    EnterAgrees(cfg, start, clean, rs, t, p);
    EnterOrderly(rs, t, p);
    RewindEachAgrees(cfg, start, clean, rs, u, rest);
  }

  // ----- one pass -----

  ghost predicate OffRan(cfg: Config, start: set<Label>, ran: seq<Step>) {
    forall s :: s in ran && PhaseForStep(s).Some? ==> !Off(cfg, start, PhaseForStep(s).value)
  }

  /** Nothing of a phase that is off has run or is about to. */
  ghost predicate OffObeyed(cfg: Config, start: set<Label>, w: W) {
    && OffRan(cfg, start, w.ran)
    && (Home(w.Step()).Some? ==> !Off(cfg, start, Home(w.Step()).value))
  }

  ghost predicate Kept(cfg: Config, start: set<Label>, clean: bool, w: W) {
    Labelled(cfg, start, clean, w) && OffObeyed(cfg, start, w) && (clean && w.Step() != Failed ==> BehindDone(w))
  }

  /** Labels, phases and skip list as before. */
  predicate SameLabels(w: W, t: W) {
    && t.phases == w.phases && t.lastLabels == w.lastLabels && t.skips == w.skips
    && t.remote.labels == w.remote.labels && t.remote.writes == w.remote.writes
  }

  lemma SameLabelled(cfg: Config, start: set<Label>, clean: bool, w: W, t: W)
    requires Labelled(cfg, start, clean, w) && SameLabels(w, t)
    ensures Labelled(cfg, start, clean, t)
  {
    hide Replay, Configured;
    forall p ensures Agrees(cfg, start, clean, t, p) {
      assert Agrees(cfg, start, clean, w, p);
    }
  }

  lemma StayingKept(cfg: Config, start: set<Label>, clean: bool, w: W, t: W)
    requires Kept(cfg, start, clean, w) && SameLabels(w, t)
    requires Home(t.Step()) == Home(w.Step()) || t.Step() == Failed
    requires t.ran == w.ran || (t.ran == w.ran + [w.Step()] && PhaseForStep(w.Step()) == Home(w.Step()))
    requires Runs(w.Step())
    ensures Kept(cfg, start, clean, t)
  {
    SameLabelled(cfg, start, clean, w, t);
    hide Labelled, Off;
    assert t.Step() == Failed || Position(t.Step()) == Position(w.Step());
  }

  lemma StoppedKept(cfg: Config, start: set<Label>, clean: bool, rs: Replies, w: W, t: W)
    requires Alone(rs) && (clean ==> AllSucceed(rs))
    requires Kept(cfg, start, clean, w) && SameLabels(w, t) && t.ran == w.ran && t.Step() == Done
    ensures Kept(cfg, start, clean, AtDone(rs, t))
  {
    hide AtDone, Labelled, OffRan, Off, BehindDone, Alone, AllSucceed;
    SameLabelled(cfg, start, clean, w, t);
    AtDoneAgrees(cfg, start, clean, rs, t);
  }

  lemma AgentKept(cfg: Config, start: set<Label>, clean: bool, rs: Replies, w: W)
    requires Alone(rs) && (clean ==> AllSucceed(rs))
    requires Runs(w.Step()) && !IsReview(w.Step()) && Kept(cfg, start, clean, w)
    ensures Kept(cfg, start, clean, RunAgent(cfg, rs, w, Next(w.Step())))
  {
    hide Kept, ToReview, AtDone, AllSucceed, Next, Allowed, Outcome, Stepped, PhaseForStep;
    var ran := Stepped(rs, w);
    AgentLeadsOn(w.Step());
    StayingKept(cfg, start, clean, w, ran);
    var res := Outcome(w.Step(), rs(w.remote.calls).agent);
    if res.failed {
      StayingKept(cfg, start, clean, ran, Fail(ran));
    } else if w.Step() == Building && res.noChange {
      StoppedKept(cfg, start, clean, rs, ran, ran.Force(Done));
    } else {
      ToReviewStays(cfg, rs, ran, Next(w.Step()));
      StayingKept(cfg, start, clean, ran, ToReview(cfg, rs, ran, Next(w.Step())));
    }
  }

  lemma NotToSkipOff(cfg: Config, start: set<Label>, clean: bool, m: W, t: W)
    requires Labelled(cfg, start, clean, t) && Jumps(m.machine, t.machine) && PhaseForStep(m.Step()) == Home(m.Step())
    requires m.Step() == Done || !ToSkip(t, t.lastLabels)
    ensures Home(t.Step()).Some? ==> !Off(cfg, start, Home(t.Step()).value)
  {
    hide Chain, Replay, Configured;
    if Home(t.Step()).Some? {
      assert Agrees(cfg, start, clean, t, Home(t.Step()).value);
    }
  }

  /** Boundary handling after an approval. */
  lemma BoundaryKept(cfg: Config, start: set<Label>, clean: bool, rs: Replies, m: W)
    requires Alone(rs) && (clean ==> AllSucceed(rs)) && Labelled(cfg, start, clean, m)
    requires IsStart(m.Step()) || m.Step() == Done
    ensures var t := Boundary(cfg, rs, m); Labelled(cfg, start, clean, t) && (clean ==> BehindDone(t))
  {
    hide Labelled, CompletePrior, SkipCompleted, EnterCurrent, AtDone, Alone, AllSucceed;
    if m.Step() == Done {
      AtDoneAgrees(cfg, start, clean, rs, m);
    } else {
      CompletePriorAgrees(cfg, start, clean, rs, m);
      var t := CompletePrior(rs, m);
      SkipCompletedAgrees(cfg, start, clean, rs, t);
      var u := SkipCompleted(cfg, rs, t);
      EnterCurrentAgrees(cfg, start, clean, rs, u);
      EnteringBehind(rs, u);
    }
  }

  lemma EnteringBehind(rs: Replies, w: W)
    ensures BehindDone(w) ==> BehindDone(EnterCurrent(rs, w))
  {
  }

  lemma ApproveKept(cfg: Config, start: set<Label>, clean: bool, rs: Replies, w: W, trigger: Trigger)
    requires Alone(rs) && (clean ==> AllSucceed(rs)) && IsReview(w.Step()) && Kept(cfg, start, clean, w) && Orderly(w)
    ensures Kept(cfg, start, clean, Approve(cfg, rs, w, Next(w.Step()), trigger))
  {
    var m := w.Move(Next(w.Step()), trigger);
    assert m.Step() == Next(w.Step()) && Position(w.Step()) <= Position(m.Step());
    hide Kept, Orderly, Alone, AllSucceed, Boundary;
    AfterApproval(cfg, start, clean, rs, w, m);
  }

  lemma AfterApproval(cfg: Config, start: set<Label>, clean: bool, rs: Replies, w: W, m: W)
    requires Alone(rs) && (clean ==> AllSucceed(rs)) && Kept(cfg, start, clean, w) && Orderly(w)
    requires SameLabels(w, m) && m.ran == w.ran && Position(w.Step()) <= Position(m.Step())
    requires IsStart(m.Step()) || m.Step() == Done
    ensures Kept(cfg, start, clean, Boundary(cfg, rs, m))
  {
    hide Boundary, Orderly, Off, OffRan, Labelled, Alone, AllSucceed, BehindDone, ToSkip, Jumps, SkipsKept, Position;
    MovingOrderly(w, m);
    BoundaryOrderly(cfg, rs, m);
    BoundaryJumps(cfg, rs, m);
    SameLabelled(cfg, start, clean, w, m);
    BoundaryKept(cfg, start, clean, rs, m);
    NotToSkipOff(cfg, start, clean, m, Boundary(cfg, rs, m));
  }

  lemma RedoingKept(cfg: Config, start: set<Label>, clean: bool, rs: Replies, m: W, p: Phase)
    requires Alone(rs) && (clean ==> AllSucceed(rs)) && Kept(cfg, start, clean, m) && Orderly(m)
    requires m.Step() == StartStep(p)
    ensures Kept(cfg, start, clean, SkipCompleted(cfg, rs, Reopen(rs, m, StartStep(p))))
  {
    hide SkipCompleted, Reopen, Orderly, Off, OffRan, Labelled, Alone, AllSucceed, BehindDone, ToSkip, Jumps, SkipsKept;
    var r := Reopen(rs, m, StartStep(p));
    ReopenAgrees(cfg, start, clean, rs, m, p);
    ReopenOrderly(rs, m, StartStep(p));
    SkipCompletedOrderly(cfg, rs, r);
    BoundaryJumps(cfg, rs, r);
    SkipCompletedAgrees(cfg, start, clean, rs, r);
    NotToSkipOff(cfg, start, clean, r, SkipCompleted(cfg, rs, r));
  }

  lemma RedoKept(cfg: Config, start: set<Label>, clean: bool, rs: Replies, w: W)
    requires Alone(rs) && (clean ==> AllSucceed(rs)) && IsReview(w.Step()) && Kept(cfg, start, clean, w) && Orderly(w)
    ensures Kept(cfg, start, clean, TryRedo(cfg, rs, w, RedoTarget(w.Step())))
  {
    var target := RedoTarget(w.Step());
    var charged := Charge(w, target);
    var m := charged.Move(target, Redo);
    assert charged.Redos(target) == w.Redos(target) + 1;
    StayingKept(cfg, start, clean, w, Fail(charged));
    StayingKept(cfg, start, clean, w, m);
    MovingOrderly(w, m);
    hide Kept, W.Redos, Fail, Charge, Orderly, SkipCompleted, Reopen;
    if w.Redos(target) < cfg.maxRedos {
      RedoingKept(cfg, start, clean, rs, m, Home(w.Step()).value);
    }
  }

  lemma ReviewKept(cfg: Config, start: set<Label>, clean: bool, rs: Replies, w: W)
    requires Alone(rs) && (clean ==> AllSucceed(rs)) && IsReview(w.Step()) && Kept(cfg, start, clean, w) && Orderly(w)
    ensures Kept(cfg, start, clean, RunReview(cfg, rs, w, Next(w.Step()), RedoTarget(w.Step())))
  {
    hide Approve, TryRedo, Listen, Orderly, Kept, Asked;
    var t := Asked(cfg, rs, w);
    MovingOrderly(w, t);
    StayingKept(cfg, start, clean, w, t);
    match Listen(cfg, rs, w) {
      case Auto => ApproveKept(cfg, start, clean, rs, t, AutoApproved);
      case Heard(c) =>
        ApproveKept(cfg, start, clean, rs, t, Approved(c));
        ApproveKept(cfg, start, clean, rs, t, ApprovedAll(c));
        ApprovedAllKept(cfg, start, clean, Approve(cfg, rs, t, Next(w.Step()), ApprovedAll(c)));
        RedoKept(cfg, start, clean, rs, t);
      case Nothing => StayingKept(cfg, start, clean, t, Fail(t));
    }
  }

  lemma ApprovedAllKept(cfg: Config, start: set<Label>, clean: bool, w: W)
    requires Kept(cfg, start, clean, w)
    ensures Kept(cfg, start, clean, w.(approveAll := true))
  {
    SameLabelled(cfg, start, clean, w, w.(approveAll := true));
    hide Labelled, Off;
  }

  lemma IterateKept(cfg: Config, start: set<Label>, clean: bool, rs: Replies, w: W)
    requires Alone(rs) && (clean ==> AllSucceed(rs)) && Runs(w.Step()) && Kept(cfg, start, clean, w) && Orderly(w)
    ensures Kept(cfg, start, clean, Iterate(cfg, rs, w))
  {
    hide RunAgent, RunReview, Kept, Orderly;
    if IsReview(w.Step()) {
      ReviewKept(cfg, start, clean, rs, w);
    } else {
      AgentKept(cfg, start, clean, rs, w);
    }
  }
}
