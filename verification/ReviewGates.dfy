/** Why a run makes each of its moves out of a step or a review gate (jiradozer/workflow.go). */
module ReviewGates {
  import opened Common
  import opened WorkflowSteps
  import opened WorkflowSpec
  import opened WorkflowShape
  import opened Feedback

  // ----- justification along the history -----

  /** The states in which the passes of the loop begin. */
  function Passes(cfg: Config, rs: Replies, w: W): seq<W>
    decreases Budget(cfg, w), 13 - Rank(w.Step())
  {
    var t := w.(remote := w.remote.Touch(rs));
    if rs(w.remote.calls).cancelled || !Runs(t.Step()) then []
    else
      hide Iterate, Budget;
      SameBudget(cfg, w, t);
      Progress(cfg, rs, t);
      [t] + Passes(cfg, rs, Iterate(cfg, rs, t))
  }

  function RunPasses(cfg: Config, rs: Replies, w: W): seq<W> {
    if !w.remote.Answered(rs) || !Allowed(w.Step(), Planning) then []
    else Passes(cfg, rs, Begin(cfg, rs, w.(remote := w.remote.Touch(rs))))
  }

  /** An approve-all before move k is still in force: no redo since. */
  ghost predicate AllInForce(h: seq<Move>, k: nat)
    requires k <= |h|
  {
    exists j :: 0 <= j < k && h[j].trigger.ApprovedAll? && forall i :: j < i < k ==> h[i].trigger != Redo
  }

  /** What the pass that makes move k out of a gate found there; call is the call that ran the gate's step. */
  ghost predicate Decided(cfg: Config, rs: Replies, h: seq<Move>, k: nat, call: nat, w: W)
    requires k < |h|
  {
    match h[k].trigger
    case AutoApproved =>
      && h[k].to == Next(h[k].from) && NobodySpoke(cfg, rs, call, w)
      && ((Home(h[k].from).Some? && PassesAlone(cfg, Home(h[k].from).value)) || AllInForce(h, k))
    case Approved(c) => h[k].to == Next(h[k].from) && c.action == SaysApprove && HeardAt(cfg, rs, call, w, c)
    case ApprovedAll(c) => h[k].to == Next(h[k].from) && c.action == SaysApproveAll && HeardAt(cfg, rs, call, w, c)
    case Redo =>
      && h[k].to == RedoTarget(h[k].from)
      && exists c :: HeardAt(cfg, rs, call, w, c) && (c.action.SaysRedo? || c.action.SaysComment?)
    case Error =>
      && h[k].to == Failed
      && (|| (Waits(cfg, w) && NobodySpoke(cfg, rs, call, w))
          || (w.Redos(RedoTarget(h[k].from)) >= cfg.maxRedos
              && exists c :: HeardAt(cfg, rs, call, w, c) && (c.action.SaysRedo? || c.action.SaysComment?)))
    case _ => false
  }

  /**
    Pass i stands at a gate that the pass before it led to by running the gate's step, and listens as it should: from
    the time that step and its announcement give, to everybody but the workflow itself.
   */
  ghost predicate Attentive(cfg: Config, rs: Replies, passes: seq<W>, i: nat)
    requires 0 < i < |passes|
  {
    var before, w := passes[i - 1], passes[i];
    && IsReview(w.Step()) && !IsReview(before.Step()) && Next(before.Step()) == w.Step()
    && !Fails(before.Step(), rs(before.remote.calls).agent)
    && Listening(cfg, rs, before.remote.calls, w)
  }

  /** Pass i made move k out of a gate: it stood there after exactly the moves before, and found what it decided on. */
  ghost predicate MadeBy(cfg: Config, rs: Replies, h: seq<Move>, passes: seq<W>, k: nat, i: nat)
    requires k < |h| && 0 < i < |passes|
  {
    && passes[i].machine.history == h[..k] && passes[i].Step() == h[k].from
    && Attentive(cfg, rs, passes, i) && Decided(cfg, rs, h, k, passes[i - 1].remote.calls, passes[i])
  }

  ghost predicate Justified(cfg: Config, rs: Replies, h: seq<Move>, passes: seq<W>, k: nat)
    requires k < |h|
  {
    IsReview(h[k].from) ==> exists i :: 0 < i < |passes| && MadeBy(cfg, rs, h, passes, k, i)
  }

  ghost predicate Gated(cfg: Config, rs: Replies, h: seq<Move>, passes: seq<W>, approveAll: bool) {
    && (forall k :: 0 <= k < |h| ==> Justified(cfg, rs, h, passes, k))
    && (approveAll ==> AllInForce(h, |h|))
  }

  lemma SameInForce(h: seq<Move>, g: seq<Move>, k: nat)
    requires h <= g && k <= |h|
    ensures AllInForce(g, k) == AllInForce(h, k)
  {
    if AllInForce(h, k) {
      var j :| 0 <= j < k && h[j].trigger.ApprovedAll? && forall i :: j < i < k ==> h[i].trigger != Redo;
      assert g[j].trigger.ApprovedAll?;
    }
    if AllInForce(g, k) {
      var j :| 0 <= j < k && g[j].trigger.ApprovedAll? && forall i :: j < i < k ==> g[i].trigger != Redo;
      assert h[j].trigger.ApprovedAll?;
    }
  }

  lemma StillAttentive(cfg: Config, rs: Replies, passes: seq<W>, more: seq<W>, i: nat)
    requires 0 < i < |passes| && passes <= more && Attentive(cfg, rs, passes, i)
    ensures Attentive(cfg, rs, more, i)
  {
  }

  lemma OlderMovesJustified(cfg: Config, rs: Replies, h: seq<Move>, g: seq<Move>, passes: seq<W>, more: seq<W>, k: nat)
    requires h <= g && passes <= more && k < |h| && Justified(cfg, rs, h, passes, k)
    ensures Justified(cfg, rs, g, more, k)
  {
    if IsReview(h[k].from) {
      var i :| 0 < i < |passes| && MadeBy(cfg, rs, h, passes, k, i);
      SameInForce(h, g, k);
      hide Attentive, NobodySpoke, HeardAt, AllInForce, Waits, Allowed, Next, RedoTarget, PassesAlone;
      assert passes[i] == more[i] && passes[i - 1] == more[i - 1] && g[..k] == h[..k];
      assert Attentive(cfg, rs, more, i) by {
        StillAttentive(cfg, rs, passes, more, i);
      }
      assert MadeBy(cfg, rs, g, more, k, i);
    }
  }

  /** Further moves other than a redo keep an approve-all in force. */
  lemma StillInForce(h: seq<Move>, g: seq<Move>)
    requires h <= g && AllInForce(h, |h|) && forall k :: |h| <= k < |g| ==> g[k].trigger != Redo
    ensures AllInForce(g, |g|)
  {
    var j :| 0 <= j < |h| && h[j].trigger.ApprovedAll? && forall i :: j < i < |h| ==> h[i].trigger != Redo;
    assert g[j].trigger.ApprovedAll?;
  }

  lemma MovesGated(cfg: Config, rs: Replies, h: seq<Move>, g: seq<Move>, passes: seq<W>, before: bool, after: bool)
    requires Gated(cfg, rs, h, passes, before) && h <= g
    requires forall k :: |h| <= k < |g| ==> Justified(cfg, rs, g, passes, k)
    requires after ==> AllInForce(g, |g|)
    ensures Gated(cfg, rs, g, passes, after)
  {
    forall k | 0 <= k < |g| ensures Justified(cfg, rs, g, passes, k) {
      if k < |h| {
        OlderMovesJustified(cfg, rs, h, g, passes, passes, k);
      }
    }
    hide Justified, AllInForce;
  }

  lemma MorePasses(cfg: Config, rs: Replies, h: seq<Move>, passes: seq<W>, more: seq<W>, approveAll: bool)
    requires Gated(cfg, rs, h, passes, approveAll) && passes <= more
    ensures Gated(cfg, rs, h, more, approveAll)
  {
    forall k | 0 <= k < |h| ensures Justified(cfg, rs, h, more, k) {
      OlderMovesJustified(cfg, rs, h, h, passes, more, k);
    }
    hide Justified, AllInForce;
  }

  /** One ordinary move, then forced jumps. */
  lemma MoveThenJumps(cfg: Config, rs: Replies, m: Machine, to: Step, trigger: Trigger, t: Machine, passes: seq<W>,
                      before: bool, after: bool)
    requires Gated(cfg, rs, m.history, passes, before) && Allowed(m.step, to) && Jumps(m.Transition(to, trigger), t)
    requires Justified(cfg, rs, m.history + [Move(m.step, to, trigger)], passes, |m.history|)
    requires after ==> trigger != Redo && (before || trigger.ApprovedAll?)
    ensures Gated(cfg, rs, t.history, passes, after)
  {
    var h, g := m.history, t.history;
    var one := h + [Move(m.step, to, trigger)];
    forall k | |h| <= k < |g| ensures Justified(cfg, rs, g, passes, k) {
      if k == |h| {
        OlderMovesJustified(cfg, rs, one, g, passes, passes, k);
      }
    }
    if after {
      if trigger.ApprovedAll? {
        assert one[|h|].trigger.ApprovedAll?;
        assert AllInForce(one, |one|);
      } else {
        StillInForce(h, one);
      }
      StillInForce(one, g);
    }
    hide Justified, AllInForce;
    MovesGated(cfg, rs, h, g, passes, before, after);
  }

  lemma AgentGated(cfg: Config, rs: Replies, w: W, t: W, passes: seq<W>)
    requires Runs(w.Step()) && !IsReview(w.Step()) && AgentShape(w, t)
    requires Gated(cfg, rs, w.machine.history, passes, w.approveAll)
    ensures Gated(cfg, rs, t.machine.history, passes, t.approveAll)
  {
    var h, g := w.machine.history, t.machine.history;
    assert |g| == |h| + 1 && g[..|h|] == h && g[|h|].from == w.Step() && g[|h|].trigger != Redo;
    if w.approveAll {
      StillInForce(h, g);
    }
    assert Justified(cfg, rs, g, passes, |h|);
    hide AllInForce, AgentShape, Justified;
    MovesGated(cfg, rs, h, g, passes, w.approveAll, t.approveAll);
  }

  /** The last pass so far is attentive. */
  ghost predicate LastAttentive(cfg: Config, rs: Replies, passes: seq<W>, w: W) {
    |passes| > 1 && passes[|passes| - 1] == w && Attentive(cfg, rs, passes, |passes| - 1)
  }

  /** The call that ran the step of the gate the last pass stands at. */
  function StepCall(passes: seq<W>): nat
    requires |passes| > 1
  {
    passes[|passes| - 2].remote.calls
  }

  /** The pass itself witnesses the move it decides. */
  lemma PassJustifies(cfg: Config, rs: Replies, w: W, to: Step, trigger: Trigger, passes: seq<W>)
    requires LastAttentive(cfg, rs, passes, w)
    requires var h := w.machine.history + [Move(w.Step(), to, trigger)];
             Decided(cfg, rs, h, |w.machine.history|, StepCall(passes), w)
    ensures Justified(cfg, rs, w.machine.history + [Move(w.Step(), to, trigger)], passes, |w.machine.history|)
  {
    hide Attentive, Decided;
    var h := w.machine.history + [Move(w.Step(), to, trigger)];
    assert h[..|w.machine.history|] == w.machine.history;
    assert MadeBy(cfg, rs, h, passes, |w.machine.history|, |passes| - 1);
  }

  lemma BreakGated(cfg: Config, rs: Replies, w: W, t: W, passes: seq<W>)
    requires LastAttentive(cfg, rs, passes, w) && Breaks(w, t) && (t.approveAll ==> w.approveAll)
    requires Gated(cfg, rs, w.machine.history, passes, w.approveAll)
    requires || (Waits(cfg, w) && NobodySpoke(cfg, rs, StepCall(passes), w))
             || (w.Redos(RedoTarget(w.Step())) >= cfg.maxRedos
                 && exists c :: HeardAt(cfg, rs, StepCall(passes), w, c)
                                && (c.action.SaysRedo? || c.action.SaysComment?))
    ensures Gated(cfg, rs, t.machine.history, passes, t.approveAll)
  {
    assert Allowed(w.Step(), Failed);
    ForcedNothing(t.machine);
    hide Gated, Jumps, Listening, NobodySpoke, HeardAt, Waits, Allowed;
    PassJustifies(cfg, rs, w, Failed, Error, passes);
    MoveThenJumps(cfg, rs, w.machine, Failed, Error, t.machine, passes, w.approveAll, t.approveAll);
  }

  lemma RedoGated(cfg: Config, rs: Replies, w: W, t: W, c: Comment, passes: seq<W>)
    requires LastAttentive(cfg, rs, passes, w) && Redoes(cfg, w, t)
    requires HeardAt(cfg, rs, StepCall(passes), w, c) && (c.action.SaysRedo? || c.action.SaysComment?)
    requires Gated(cfg, rs, w.machine.history, passes, w.approveAll)
    ensures Gated(cfg, rs, t.machine.history, passes, t.approveAll)
  {
    var target := RedoTarget(w.Step());
    assert Allowed(w.Step(), target);
    hide Gated, Jumps, Listening, NobodySpoke, HeardAt, Waits, AllInForce, Allowed;
    if w.Redos(target) >= cfg.maxRedos {
      BreakGated(cfg, rs, w, t, passes);
    } else {
      PassJustifies(cfg, rs, w, target, Redo, passes);
      MoveThenJumps(cfg, rs, w.machine, target, Redo, t.machine, passes, w.approveAll, false);
    }
  }

  lemma ApproveGated(cfg: Config, rs: Replies, w: W, t: W, trigger: Trigger, passes: seq<W>)
    requires LastAttentive(cfg, rs, passes, w) && Approves(w, t, trigger)
    requires Gated(cfg, rs, w.machine.history, passes, w.approveAll)
    requires match trigger
             case AutoApproved => !Waits(cfg, w) && NobodySpoke(cfg, rs, StepCall(passes), w)
             case Approved(c) => c.action == SaysApprove && HeardAt(cfg, rs, StepCall(passes), w, c)
             case ApprovedAll(c) => c.action == SaysApproveAll && HeardAt(cfg, rs, StepCall(passes), w, c)
             case _ => false
    ensures Gated(cfg, rs, t.machine.history, passes, t.approveAll)
  {
    var h := w.machine.history;
    var one := h + [Move(w.Step(), Next(w.Step()), trigger)];
    SameInForce(h, one, |h|);
    assert w.approveAll ==> AllInForce(h, |h|);
    assert Allowed(w.Step(), Next(w.Step()));
    hide Gated, Jumps, AllInForce, Listening, NobodySpoke, HeardAt, PassesAlone, Allowed;
    PassJustifies(cfg, rs, w, Next(w.Step()), trigger, passes);
    MoveThenJumps(cfg, rs, w.machine, Next(w.Step()), trigger, t.machine, passes, w.approveAll, t.approveAll);
  }

  lemma ReviewGated(cfg: Config, rs: Replies, w: W, t: W, passes: seq<W>)
    requires LastAttentive(cfg, rs, passes, w) && ReviewShape(cfg, rs, w, t)
    requires Gated(cfg, rs, w.machine.history, passes, w.approveAll)
    ensures Gated(cfg, rs, t.machine.history, passes, t.approveAll)
  {
    hide Jumps, Listen, Gated, HeardAt, NobodySpoke, Waits, Listening, Redoes, Approves, Breaks;
    GateDecision(cfg, rs, StepCall(passes), w);
    var verdict := Listen(cfg, rs, w);
    if verdict.Auto? {
      ApproveGated(cfg, rs, w, t, AutoApproved, passes);
    } else if verdict.Nothing? {
      BreakGated(cfg, rs, w, t, passes);
    } else if verdict.comment.action.SaysApprove? {
      ApproveGated(cfg, rs, w, t, Approved(verdict.comment), passes);
    } else if verdict.comment.action.SaysApproveAll? {
      ApproveGated(cfg, rs, w, t, ApprovedAll(verdict.comment), passes);
    } else {
      RedoGated(cfg, rs, w, t, verdict.comment, passes);
    }
  }

  lemma IterateGated(cfg: Config, rs: Replies, w: W, passes: seq<W>)
    requires Runs(w.Step()) && (IsReview(w.Step()) ==> LastAttentive(cfg, rs, passes, w))
        && Gated(cfg, rs, w.machine.history, passes, w.approveAll)
    ensures var t := Iterate(cfg, rs, w); Gated(cfg, rs, t.machine.history, passes, t.approveAll)
  {
    IterateHasShape(cfg, rs, w);
    hide Iterate, Gated, ReviewShape, AgentShape, LastAttentive;
    if IsReview(w.Step()) {
      ReviewGated(cfg, rs, w, Iterate(cfg, rs, w), passes);
    } else {
      AgentGated(cfg, rs, w, Iterate(cfg, rs, w), passes);
    }
  }

  /** At a gate, the last pass ran its step. */
  ghost predicate Follows(cfg: Config, rs: Replies, past: seq<W>, w: W) {
    IsReview(w.Step()) ==> past != [] && Ready(cfg, rs, past[|past| - 1], w)
  }

  lemma FollowingIsAttentive(cfg: Config, rs: Replies, past: seq<W>, w: W)
    requires Follows(cfg, rs, past, w)
    ensures var t := w.(remote := w.remote.Touch(rs));
            IsReview(t.Step()) ==> LastAttentive(cfg, rs, past + [t], t)
  {
    if IsReview(w.Step()) {
      ReadyGateListens(cfg, rs, past[|past| - 1], w);
      hide Listening;
    }
  }

  lemma PassFollows(cfg: Config, rs: Replies, past: seq<W>, w: W)
    requires Runs(w.Step())
    ensures Follows(cfg, rs, past + [w], Iterate(cfg, rs, w))
  {
    IterateIsReady(cfg, rs, w);
    hide Iterate, Ready;
    assert (past + [w])[|past|] == w;
  }

  lemma {:induction false} LoopGated(cfg: Config, rs: Replies, w: W, past: seq<W>)
    requires Follows(cfg, rs, past, w) && Gated(cfg, rs, w.machine.history, past, w.approveAll)
    ensures var t := Loop(cfg, rs, w).0; Gated(cfg, rs, t.machine.history, past + Passes(cfg, rs, w), t.approveAll)
    decreases Budget(cfg, w), 13 - Rank(w.Step())
  {
    hide Iterate, Budget, Gated, Follows, LastAttentive;
    var t := w.(remote := w.remote.Touch(rs));
    FollowingIsAttentive(cfg, rs, past, w);
    SameBudget(cfg, w, t);
    if !rs(w.remote.calls).cancelled && Runs(t.Step()) {
      var now := past + [t];
      var u := Iterate(cfg, rs, t);
      Progress(cfg, rs, t);
      MorePasses(cfg, rs, t.machine.history, past, now, t.approveAll);
      IterateGated(cfg, rs, t, now);
      PassFollows(cfg, rs, past, t);
      LoopGated(cfg, rs, u, now);
      assert now + Passes(cfg, rs, u) == past + Passes(cfg, rs, w);
    } else {
      assert past + [] == past;
    }
  }

  lemma StartsGated(cfg: Config, rs: Replies)
    ensures Gated(cfg, rs, [], [], false) && Justified(cfg, rs, [Move(Init, Planning, Start)], [], 0)
  {
  }

  lemma BeginGated(cfg: Config, rs: Replies, w: W)
    requires w.machine == FRESH && !w.approveAll
    ensures var t := Begin(cfg, rs, w);
            Follows(cfg, rs, [], t) && !t.approveAll && Gated(cfg, rs, t.machine.history, [], false)
  {
    hide SkipCompleted, EnterCurrent, Chain, Gated, Justified;
    var m := w.Move(Planning, Start);
    BoundaryJumps(cfg, rs, m);
    StartsGated(cfg, rs);
    assert [] + [Move(Init, Planning, Start)] == [Move(Init, Planning, Start)];
    hide Jumps;
    MoveThenJumps(cfg, rs, w.machine, Planning, Start, Begin(cfg, rs, w).machine, [], false, false);
    BeginFollows(cfg, rs, w);
  }

  lemma BeginFollows(cfg: Config, rs: Replies, w: W)
    requires w.machine == FRESH
    ensures Follows(cfg, rs, [], Begin(cfg, rs, w))
  {
    var m := w.Move(Planning, Start);
    BoundaryJumps(cfg, rs, m);
    hide SkipCompleted, EnterCurrent, Chain;
  }

  lemma GatedMeaning(cfg: Config, rs: Replies, h: seq<Move>, passes: seq<W>, approveAll: bool)
    requires Gated(cfg, rs, h, passes, approveAll)
    ensures forall k :: 0 <= k < |h| ==> Justified(cfg, rs, h, passes, k)
  {
  }

  lemma FreshRunIsJustified(cfg: Config, rs: Replies, w: W)
    requires w.machine == FRESH && !w.approveAll
    ensures var h := Run(cfg, rs, w).0.machine.history;
            forall k :: 0 <= k < |h| ==> Justified(cfg, rs, h, RunPasses(cfg, rs, w), k)
  {
    hide Begin, Loop, Passes, Gated, Justified, Follows;
    var asked := w.(remote := w.remote.Touch(rs));
    if w.remote.Answered(rs) {
      BeginGated(cfg, rs, asked);
      var begun := Begin(cfg, rs, asked);
      LoopGated(cfg, rs, begun, []);
      assert [] + Passes(cfg, rs, begun) == Passes(cfg, rs, begun);
      var t := Loop(cfg, rs, begun).0;
      GatedMeaning(cfg, rs, t.machine.history, Passes(cfg, rs, begun), t.approveAll);
    }
  }

  /**
    In every run, each move out of a review gate was made by a pass that stood at that gate after exactly the moves
    before. The pass before it ran the gate's step to the end; since then the workflow excludes exactly the comments it
    posted, by what the calls of that step answered, and listens from the time they gave. The move leads to a later
    phase only through the gate's auto-approve or an earlier approve-all with no redo since, nobody else having spoken;
    or through the last word of somebody else, heard at that gate and read as approve or approve-all. It redoes the
    gate's own phase only on such a comment read as redo or feedback, and fails only on one past the redo limit or when
    polling ended without any.
   */
  lemma EveryGateIsJustified(cfg: Config, rs: Replies, labels: set<Label>, remote: Remote)
    ensures var w := Initial(cfg, labels, remote);
            var h := Run(cfg, rs, w).0.machine.history;
            forall k :: 0 <= k < |h| ==> Justified(cfg, rs, h, RunPasses(cfg, rs, w), k)
  {
    FreshRunIsJustified(cfg, rs, Initial(cfg, labels, remote));
  }

  /** Every pass from the |past|-th on that stands at a gate listens as it should. */
  ghost predicate AttentiveFrom(cfg: Config, rs: Replies, passes: seq<W>, n: nat) {
    forall i :: n <= i < |passes| && IsReview(passes[i].Step()) ==> i > 0 && Attentive(cfg, rs, passes, i)
  }

  lemma {:induction false} PassesListen(cfg: Config, rs: Replies, w: W, past: seq<W>)
    requires Follows(cfg, rs, past, w)
    ensures AttentiveFrom(cfg, rs, past + Passes(cfg, rs, w), |past|)
    decreases Budget(cfg, w), 13 - Rank(w.Step())
  {
    hide Iterate, Budget, Follows, Attentive, LastAttentive;
    var t := w.(remote := w.remote.Touch(rs));
    FollowingIsAttentive(cfg, rs, past, w);
    SameBudget(cfg, w, t);
    if !rs(w.remote.calls).cancelled && Runs(t.Step()) {
      var now, u := past + [t], Iterate(cfg, rs, t);
      Progress(cfg, rs, t);
      PassFollows(cfg, rs, past, t);
      PassesListen(cfg, rs, u, now);
      assert now + Passes(cfg, rs, u) == past + Passes(cfg, rs, w);
      if IsReview(t.Step()) {
        FirstAttentive(cfg, rs, past, t, Passes(cfg, rs, u));
      }
    }
  }

  lemma FirstAttentive(cfg: Config, rs: Replies, past: seq<W>, t: W, rest: seq<W>)
    requires LastAttentive(cfg, rs, past + [t], t)
    ensures |past| > 0 && Attentive(cfg, rs, past + [t] + rest, |past|)
  {
    StillAttentive(cfg, rs, past + [t], past + [t] + rest, |past|);
  }

  /**
    In every run, whenever a pass stands at a gate the pass before it ran the gate's step to the end, and the workflow
    excludes exactly the comments posted by that step's call and by the waiting comment's, listening from their time.
   */
  lemma EveryGateListens(cfg: Config, rs: Replies, labels: set<Label>, remote: Remote)
    ensures AttentiveFrom(cfg, rs, RunPasses(cfg, rs, Initial(cfg, labels, remote)), 0)
  {
    var w := Initial(cfg, labels, remote).(remote := remote.Touch(rs));
    hide Begin, Passes, Attentive, Follows;
    if remote.Answered(rs) {
      BeginGated(cfg, rs, w);
      var begun := Begin(cfg, rs, w);
      PassesListen(cfg, rs, begun, []);
      assert [] + Passes(cfg, rs, begun) == Passes(cfg, rs, begun);
    }
  }
}
