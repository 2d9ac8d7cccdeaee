/** Polishing ends: the divergence guard over whole runs (prdozer/watcher.go, diverging and recordHealth). */
module PolishTermination {
  import opened Common
  import opened PrHealth
  import opened PrState
  import opened TickSpec
  import opened TickFacts
  import DiskWrites
  import PolishRounds

  function StateAt(cfg: Config, s: State, ins: nat -> TickInput, n: nat): State {
    if n == 0 then s else Tick(cfg, StateAt(cfg, s, ins, n - 1), ins(n - 1)).disk
  }

  function OutAt(cfg: Config, s: State, ins: nat -> TickInput, n: nat): TickOut {
    Tick(cfg, StateAt(cfg, s, ins, n), ins(n))
  }

  predicate Readable(input: TickInput) {
    input.snap.Some? ==> input.snap.value.unresolved >= 0
  }

  /** One run that goes on for ever with the guard switched on: no tick ends it. */
  ghost predicate EndlessRun(cfg: Config, s: State, ins: nat -> TickInput) {
    && Inv(s)
    && cfg.maxRoundsWithoutImprovement > 0
    && !cfg.dryRun
    && (forall n: nat :: !EndsTheRun(OutAt(cfg, s, ins, n).Action()))
  }

  predicate PolishedAt(cfg: Config, s: State, ins: nat -> TickInput, n: nat) {
    OutAt(cfg, s, ins, n).Action() == Polished
  }

  /**
    A completed tick whose thread count could not be read, and which polishes or directly follows a polished tick: the
    record's last action is that of the last completed tick.
   */
  predicate Blind(cfg: Config, s: State, ins: nat -> TickInput, n: nat) {
    && OutAt(cfg, s, ins, n).kind == Ran
    && !Readable(ins(n))
    && (PolishedAt(cfg, s, ins, n) || StateAt(cfg, s, ins, n).lastAction == Polished)
  }

  ghost predicate QuietFrom(cfg: Config, s: State, ins: nat -> TickInput, n: nat) {
    forall k: nat :: k >= n ==> !PolishedAt(cfg, s, ins, k)
  }

  ghost predicate SightedFrom(cfg: Config, s: State, ins: nat -> TickInput, n: nat) {
    forall k: nat :: k >= n ==> !Blind(cfg, s, ins, k)
  }

  // ----- the measure -----

  /** Best CI red, best unresolved threads, rounds left before the hard limit; no best yet ranks above all. */
  datatype Rank = Rank(red: nat, threads: nat, left: nat)

  function RankOf(cfg: Config, s: State): Rank {
    match s.bestHealth
    case None => Rank(2, 0, 0)
    case Some(h) =>
      Rank(h.Red(), h.unresolvedThreads,
           if 2 * cfg.maxRoundsWithoutImprovement > s.roundsSinceImprovement
           then 2 * cfg.maxRoundsWithoutImprovement - s.roundsSinceImprovement else 0)
  }

  predicate Below(a: Rank, b: Rank) {
    || a.red < b.red
    || (a.red == b.red && a.threads < b.threads)
    || (a.red == b.red && a.threads == b.threads && a.left < b.left)
  }

  /** Inside a run, once a snapshot has been scored. */
  predicate Scoring(s: State) {
    s.lastAction != NeedsHuman && s.bestHealth.Some?
  }

  /** A polished tick leaves this behind. */
  predicate Pending(cfg: Config, s: State) {
    Scoring(s) && s.lastAction == Polished && s.roundsSinceImprovement < 2 * cfg.maxRoundsWithoutImprovement
  }

  lemma HealthScores(s: State, snap: Snapshot)
    requires s.lastAction != NeedsHuman && snap.unresolved >= 0
    ensures var a, h := Account(s, snap).0, PRHealth(snap.unresolved, snap.rollup == RollupFailure);
            if s.bestHealth == None || h.BetterThan(s.bestHealth.value)
            then a.bestHealth == Some(h) && a.roundsSinceImprovement == 0
            else a.bestHealth == s.bestHealth
                 && a.roundsSinceImprovement == s.roundsSinceImprovement + (if s.lastAction == Polished then 1 else 0)
  {
  }

  /** One completed tick of a run never raises the rank, and lowers it when the tick before it polished. */
  lemma TickLowersRank(cfg: Config, s: State, input: TickInput)
    requires Inv(s) && !cfg.dryRun && cfg.maxRoundsWithoutImprovement > 0
    requires Tick(cfg, s, input).kind == Ran && Readable(input) && s.lastAction != NeedsHuman
    ensures var out := Tick(cfg, s, input);
            && out.disk.bestHealth.Some?
            && out.disk.lastAction == out.Action()
            && (RankOf(cfg, out.disk) == RankOf(cfg, s) || Below(RankOf(cfg, out.disk), RankOf(cfg, s)))
            && (Pending(cfg, s) ==> Below(RankOf(cfg, out.disk), RankOf(cfg, s)))
            && (out.Action() == Polished ==> Pending(cfg, out.disk))
  {
    hide Tick, Account, Decide, Diff, Inv, Ratcheting;
    TickShape(cfg, s, input);
    var snap := input.snap.value;
    HealthScores(s, snap);
    DiskWrites.LiveTicksNeverDryRun(cfg, s, input);
    DiskWrites.DiskIsMemory(cfg, s, input);
    InvokeActions(cfg, Scored(s, snap), snap, Diff(s, snap), input);
  }

  /** A completed tick that could not read the count leaves the guard's fields as they were. */
  lemma UnreadableTickKeepsRank(cfg: Config, s: State, input: TickInput)
    requires Inv(s) && !cfg.dryRun && Tick(cfg, s, input).kind == Ran && !Readable(input) && s.lastAction != NeedsHuman
    ensures var out := Tick(cfg, s, input);
            && out.disk.bestHealth == s.bestHealth && out.disk.roundsSinceImprovement == s.roundsSinceImprovement
            && out.disk.lastAction == out.Action()
  {
    hide Tick, Decide, Diff, Inv;
    TickShape(cfg, s, input);
    DiskWrites.LiveTicksNeverDryRun(cfg, s, input);
    DiskWrites.DiskIsMemory(cfg, s, input);
  }

  /** A tick that did not look at the PR changes nothing. */
  lemma IdleTick(cfg: Config, s: State, input: TickInput)
    ensures Tick(cfg, s, input).kind != Ran ==>
        Tick(cfg, s, input).disk == s && Tick(cfg, s, input).Action() != Polished
  {
  }

  // ----- from one polished tick to the next -----

  lemma {:induction false} InvAt(cfg: Config, s: State, ins: nat -> TickInput, n: nat)
    requires Inv(s)
    ensures Inv(StateAt(cfg, s, ins, n))
  {
    hide Inv, Tick;
    if n > 0 {
      InvAt(cfg, s, ins, n - 1);
      TickKeepsInv(cfg, StateAt(cfg, s, ins, n - 1), ins(n - 1));
    }
  }

  /** Polished ticks that read the count hand over a pending round, wherever in the run they are. */
  lemma PolishedLeavesPending(cfg: Config, s: State, ins: nat -> TickInput, m: nat)
    requires EndlessRun(cfg, s, ins) && PolishedAt(cfg, s, ins, m) && !Blind(cfg, s, ins, m)
    ensures Pending(cfg, StateAt(cfg, s, ins, m + 1))
  {
    hide Tick, Inv;
    var now := StateAt(cfg, s, ins, m);
    InvAt(cfg, s, ins, m);
    IdleTick(cfg, now, ins(m));
    PolishedFromAnyState(cfg, now, ins(m));
  }

  /** The same at the first tick of a run, where a verdict of an earlier run may be retired first. */
  lemma PolishedFromAnyState(cfg: Config, s: State, input: TickInput)
    requires Inv(s) && !cfg.dryRun && cfg.maxRoundsWithoutImprovement > 0 && Readable(input)
    requires Tick(cfg, s, input).kind == Ran && Tick(cfg, s, input).Action() == Polished
    ensures Pending(cfg, Tick(cfg, s, input).disk)
  {
    hide Tick, Account, Decide, Diff, Inv, Ratcheting;
    TickShape(cfg, s, input);
    var snap := input.snap.value;
    ReadableIsScored(s, snap);
    DiskWrites.DiskIsMemory(cfg, s, input);
    InvokeActions(cfg, Scored(s, snap), snap, Diff(s, snap), input);
  }

  lemma ReadableIsScored(s: State, snap: Snapshot)
    requires snap.unresolved >= 0
    ensures Account(s, snap).0.bestHealth.Some?
  {
  }

  /** After a polished tick m, with no blind tick since, the record is untouched or strictly lower at every later j. */
  lemma {:induction false} LowerOrUntouched(cfg: Config, s: State, ins: nat -> TickInput, m: nat, j: nat)
    requires EndlessRun(cfg, s, ins) && PolishedAt(cfg, s, ins, m) && SightedFrom(cfg, s, ins, m) && j > m
    ensures var from, at := StateAt(cfg, s, ins, m + 1), StateAt(cfg, s, ins, j);
            && Scoring(at)
            && (at == from || Below(RankOf(cfg, at), RankOf(cfg, from)))
  {
    hide Tick, Inv;
    PolishedLeavesPending(cfg, s, ins, m);
    if j > m + 1 {
      LowerOrUntouched(cfg, s, ins, m, j - 1);
      var from, before := StateAt(cfg, s, ins, m + 1), StateAt(cfg, s, ins, j - 1);
      InvAt(cfg, s, ins, j - 1);
      IdleTick(cfg, before, ins(j - 1));
      assert !EndsTheRun(OutAt(cfg, s, ins, j - 1).Action()) && !Blind(cfg, s, ins, j - 1);
      if Tick(cfg, before, ins(j - 1)).kind == Ran {
        if Readable(ins(j - 1)) {
          TickLowersRank(cfg, before, ins(j - 1));
        } else {
          UnreadableTickKeepsRank(cfg, before, ins(j - 1));
          assert before.lastAction != from.lastAction;
        }
      }
    }
  }

  /** Of two polished ticks with no blind tick since the earlier, the later leaves a strictly lower rank. */
  lemma PolishedTicksDescend(cfg: Config, s: State, ins: nat -> TickInput, m: nat, k: nat)
    requires EndlessRun(cfg, s, ins) && SightedFrom(cfg, s, ins, m) && m < k
    ensures PolishedAt(cfg, s, ins, m) && PolishedAt(cfg, s, ins, k) ==>
              Below(RankOf(cfg, StateAt(cfg, s, ins, k + 1)), RankOf(cfg, StateAt(cfg, s, ins, m + 1)))
  {
    hide Tick, Inv;
    if PolishedAt(cfg, s, ins, m) && PolishedAt(cfg, s, ins, k) {
      PolishedLeavesPending(cfg, s, ins, m);
      LowerOrUntouched(cfg, s, ins, m, k);
      var before := StateAt(cfg, s, ins, k);
      InvAt(cfg, s, ins, k);
      IdleTick(cfg, before, ins(k));
      assert !Blind(cfg, s, ins, k);
      TickLowersRank(cfg, before, ins(k));
    }
  }

  lemma {:induction false} QuietAfter(cfg: Config, s: State, ins: nat -> TickInput, m: nat) returns (n: nat)
    requires EndlessRun(cfg, s, ins) && PolishedAt(cfg, s, ins, m) && SightedFrom(cfg, s, ins, m)
    ensures QuietFrom(cfg, s, ins, n)
    decreases RankOf(cfg, StateAt(cfg, s, ins, m + 1)).red, RankOf(cfg, StateAt(cfg, s, ins, m + 1)).threads,
              RankOf(cfg, StateAt(cfg, s, ins, m + 1)).left
  {
    hide Tick, Inv, EndlessRun, RankOf, StateAt, OutAt, PolishedAt, Blind;
    n := m + 1;
    if !QuietFrom(cfg, s, ins, n) {
      var k: nat :| k >= n && PolishedAt(cfg, s, ins, k);
      PolishedTicksDescend(cfg, s, ins, m, k);
      n := QuietAfter(cfg, s, ins, k);
    }
  }

  /** With no blind tick from some point on, only finitely many ticks polish. */
  lemma QuietIfSighted(cfg: Config, s: State, ins: nat -> TickInput, from: nat) returns (n: nat)
    requires EndlessRun(cfg, s, ins) && SightedFrom(cfg, s, ins, from)
    ensures QuietFrom(cfg, s, ins, n)
  {
    hide Tick, Inv, EndlessRun, StateAt, OutAt, PolishedAt, Blind;
    n := from;
    if !QuietFrom(cfg, s, ins, from) {
      var m: nat :| m >= from && PolishedAt(cfg, s, ins, m);
      n := QuietAfter(cfg, s, ins, m);
    }
  }

  // ----- and the other way round -----

  /** Between polished ticks the last action does not become polished. */
  lemma {:induction false} OnlyPolishingLeavesPolished(cfg: Config, s: State, ins: nat -> TickInput, a: nat, b: nat)
    requires EndlessRun(cfg, s, ins) && a <= b && StateAt(cfg, s, ins, a).lastAction != Polished
    requires forall k: nat :: a <= k < b ==> !PolishedAt(cfg, s, ins, k)
    ensures StateAt(cfg, s, ins, b).lastAction != Polished
    decreases b
  {
    hide Tick, Inv;
    if a < b {
      OnlyPolishingLeavesPolished(cfg, s, ins, a, b - 1);
      assert !PolishedAt(cfg, s, ins, b - 1);
      LastActionAfter(cfg, s, ins, b - 1);
    }
  }

  lemma LastActionAfter(cfg: Config, s: State, ins: nat -> TickInput, n: nat)
    requires EndlessRun(cfg, s, ins)
    ensures var out := OutAt(cfg, s, ins, n);
            StateAt(cfg, s, ins, n + 1).lastAction ==
              (if out.kind == Ran then out.Action() else StateAt(cfg, s, ins, n).lastAction)
  {
    hide Tick, Inv;
    var now := StateAt(cfg, s, ins, n);
    InvAt(cfg, s, ins, n);
    IdleTick(cfg, now, ins(n));
    if Tick(cfg, now, ins(n)).kind == Ran {
      TickShape(cfg, now, ins(n));
      DiskWrites.LiveTicksNeverDryRun(cfg, now, ins(n));
      DiskWrites.DiskIsMemory(cfg, now, ins(n));
    }
  }

  /** Two blind ticks have a polished one among them or between them. */
  lemma BlindTicksPolish(cfg: Config, s: State, ins: nat -> TickInput, a: nat, b: nat) returns (k: nat)
    requires EndlessRun(cfg, s, ins) && a < b && Blind(cfg, s, ins, a) && Blind(cfg, s, ins, b)
    ensures k >= a && PolishedAt(cfg, s, ins, k)
  {
    hide Tick, Inv, EndlessRun, StateAt, OutAt;
    if PolishedAt(cfg, s, ins, a) {
      k := a;
    } else if PolishedAt(cfg, s, ins, b) {
      k := b;
    } else {
      LastActionAfter(cfg, s, ins, a);
      if forall j: nat :: a + 1 <= j < b ==> !PolishedAt(cfg, s, ins, j) {
        OnlyPolishingLeavesPolished(cfg, s, ins, a + 1, b);
        assert false;
      }
      k :| a + 1 <= k < b && PolishedAt(cfg, s, ins, k);
    }
  }

  lemma SightedIfQuiet(cfg: Config, s: State, ins: nat -> TickInput, from: nat) returns (n: nat)
    requires EndlessRun(cfg, s, ins) && QuietFrom(cfg, s, ins, from)
    ensures SightedFrom(cfg, s, ins, n)
  {
    hide Tick, Inv, EndlessRun, StateAt, OutAt, PolishedAt, Blind;
    n := from;
    if !SightedFrom(cfg, s, ins, from) {
      var a: nat :| a >= from && Blind(cfg, s, ins, a);
      n := a + 1;
      if !SightedFrom(cfg, s, ins, n) {
        var b: nat :| b >= n && Blind(cfg, s, ins, b);
        var k := BlindTicksPolish(cfg, s, ins, a, b);
        assert false;
      }
    }
  }

  /**
    In an endless run with the guard on, infinitely many ticks polish if and only if infinitely many completed ticks
    could not read the thread count and polished or directly followed a polished tick.
   */
  lemma PolishesForeverIffBlindForever(cfg: Config, s: State, ins: nat -> TickInput)
    requires EndlessRun(cfg, s, ins)
    ensures (forall n: nat :: !QuietFrom(cfg, s, ins, n)) <==> (forall n: nat :: !SightedFrom(cfg, s, ins, n))
  {
    hide Inv, EndlessRun, QuietFrom, SightedFrom;
    if n: nat :| QuietFrom(cfg, s, ins, n) {
      var m := SightedIfQuiet(cfg, s, ins, n);
    }
    if n: nat :| SightedFrom(cfg, s, ins, n) {
      var m := QuietIfSighted(cfg, s, ins, n);
    }
  }

  /** In a run whose thread counts can all be read, only finitely many ticks polish. */
  lemma FinitelyManyPolishes(cfg: Config, s: State, ins: nat -> TickInput) returns (n: nat)
    requires EndlessRun(cfg, s, ins) && forall k: nat :: Readable(ins(k))
    ensures forall k: nat :: k >= n ==> OutAt(cfg, s, ins, k).Action() != Polished
  {
    hide Tick, Inv, EndlessRun, StateAt, OutAt;
    assert SightedFrom(cfg, s, ins, 0);
    n := QuietIfSighted(cfg, s, ins, 0);
    forall k: nat | k >= n ensures OutAt(cfg, s, ins, k).Action() != Polished {
      assert !PolishedAt(cfg, s, ins, k);
    }
  }

  // ----- the hypothesis is needed -----

  /** A tick whose thread count could not be read, on a PR whose reviewer still wants changes; polishing succeeds. */
  const UNREADABLE: TickInput :=
    TickInput(Clock(0, 0, 0, 0, 0),
              Some(Snapshot(0, Open, "h", "b", RollupPending, ChangesWanted, CanMerge, [], [], -1, 1, 1, 0)),
              Verified(false), None, PolishRounds.NoFault)

  const DIVERGENCE_ONLY: Config :=
    Config(false, PolicySquash, false, false, true, false, [], 3, 3, 0, 7200)

  /** With the divergence guard on and every count unreadable, every tick polishes: nothing stops the run. */
  lemma {:induction false} UnreadableCountsNeverStop(n: nat)
    ensures OutAt(DIVERGENCE_ONLY, ZERO, _ => UNREADABLE, n).Action() == Polished
    ensures var at := StateAt(DIVERGENCE_ONLY, ZERO, _ => UNREADABLE, n);
            at.cooldownUntil == None && at.mergeAttempts == 0
  {
    hide Tick;
    if n > 0 {
      UnreadableCountsNeverStop(n - 1);
      UnreadableTickPolishes(StateAt(DIVERGENCE_ONLY, ZERO, _ => UNREADABLE, n - 1));
    }
    UnreadableTickPolishes(StateAt(DIVERGENCE_ONLY, ZERO, _ => UNREADABLE, n));
  }

  lemma UnreadableTickPolishes(s: State)
    requires s.cooldownUntil == None && s.mergeAttempts == 0
    ensures var out := Tick(DIVERGENCE_ONLY, s, UNREADABLE);
            out.Action() == Polished && out.disk.cooldownUntil == None && out.disk.mergeAttempts == 0
  {
    var snap := UNREADABLE.snap.value;
    PolishesOnRequest(Account(s, snap).0, s);
    hide RecordSnapshot, Account, Decide, Diff;
    assert Tick(DIVERGENCE_ONLY, s, UNREADABLE).kind == Ran;
    TickShape(DIVERGENCE_ONLY, s, UNREADABLE);
    TickCooldown(DIVERGENCE_ONLY, s, UNREADABLE);
  }

  lemma PolishesOnRequest(scored: State, prev: State)
    ensures var snap := UNREADABLE.snap.value;
            var v := Decide(DIVERGENCE_ONLY, scored, snap, Diff(prev, snap), UNREADABLE);
            v.report.action == Polished && !v.attempted
  {
    assert Diff(prev, UNREADABLE.snap.value).changesRequested;
  }

  /** A snapshot whose count is read, with changes wanted; then one whose count is not, with nothing to do. */
  const COUNTED: TickInput :=
    TickInput(Clock(0, 0, 0, 0, 0),
              Some(Snapshot(0, Open, "h", "b", RollupPending, ChangesWanted, CanMerge, [], [], 1, 1, 1, 0)),
              Verified(false), None, PolishRounds.NoFault)
  const UNCOUNTED: TickInput :=
    TickInput(Clock(0, 0, 0, 0, 0),
              Some(Snapshot(0, Open, "h", "", RollupPending, OtherDecision, MergeUnknown, [], [], -1, 1, 1, 0)),
              Verified(false), None, PolishRounds.NoFault)

  function Alternating(n: nat): TickInput {
    if n % 2 == 0 then COUNTED else UNCOUNTED
  }

  /** Nothing charged: no window, no attempts, and the one thread seen is the best so far with no round against it. */
  predicate Uncharged(s: State) {
    && s.cooldownUntil == None && s.mergeAttempts == 0 && s.roundsSinceImprovement == 0
    && (s.bestHealth == None || s.bestHealth == Some(PRHealth(1, false)))
    && s.lastAction != NeedsHuman
  }

  lemma CountedTickPolishes(s: State)
    requires Inv(s) && Uncharged(s) && s.lastAction != Polished
    ensures var out := Tick(DIVERGENCE_ONLY, s, COUNTED);
            out.Action() == Polished && Uncharged(out.disk) && out.disk.lastAction == Polished
  {
    var snap := COUNTED.snap.value;
    HealthScores(s, snap);
    assert Diff(s, snap).changesRequested && !Diff(s, snap).mergeable;
    assert Decide(DIVERGENCE_ONLY, Account(s, snap).0, snap, Diff(s, snap), COUNTED).report.action == Polished;
    TickFollows(s, COUNTED);
  }

  lemma UncountedTickIdles(s: State)
    requires Inv(s) && Uncharged(s)
    ensures var out := Tick(DIVERGENCE_ONLY, s, UNCOUNTED);
            out.Action() == Idle && Uncharged(out.disk) && out.disk.lastAction == Idle
  {
    var snap := UNCOUNTED.snap.value;
    var cs := Diff(s, snap);
    assert UnseenComments(snap.comments, s.seenComments) == [] && UnseenRuns(snap.failedRuns, s.seenRuns) == [];
    assert !cs.NeedsPolish() && !cs.mergeable && !cs.needsReview;
    assert Decide(DIVERGENCE_ONLY, Account(s, snap).0, snap, cs, UNCOUNTED).report.action == Idle;
    TickFollows(s, UNCOUNTED);
    UnreadableTickKeepsRank(DIVERGENCE_ONLY, s, UNCOUNTED);
  }

  /** A tick that polishes or idles, and attempts no merge, leaves no window and no attempt. */
  lemma TickFollows(s: State, input: TickInput)
    requires Inv(s) && s.cooldownUntil == None && s.mergeAttempts == 0 && input.snap.Some?
    requires var v := Decide(DIVERGENCE_ONLY, Scored(s, input.snap.value), input.snap.value,
        Diff(s, input.snap.value), input);
             v.report.action in {Polished, Idle}
    ensures var out, scored := Tick(DIVERGENCE_ONLY, s, input), Scored(s, input.snap.value);
            && out.kind == Ran
            && out.Action()
               == Decide(DIVERGENCE_ONLY, scored, input.snap.value, Diff(s, input.snap.value), input).report.action
            && out.disk.cooldownUntil == None && out.disk.mergeAttempts == 0 && out.disk.lastAction == out.Action()
            && out.disk.bestHealth == scored.bestHealth
                && out.disk.roundsSinceImprovement == scored.roundsSinceImprovement
  {
    hide RecordSnapshot, Account, Decide, Diff, Inv;
    assert Tick(DIVERGENCE_ONLY, s, input).kind == Ran;
    TickShape(DIVERGENCE_ONLY, s, input);
    var scored := Scored(s, input.snap.value);
    AttemptActions(DIVERGENCE_ONLY, scored, input.snap.value, s, input);
    TickCooldown(DIVERGENCE_ONLY, s, input);
    DiskWrites.DiskIsMemory(DIVERGENCE_ONLY, s, input);
  }

  /**
    With the guard on and every polishing tick counted, a run whose every second tick cannot read the count polishes for
    ever: that tick idles, so the round before it is never charged.
   */
  lemma {:induction false} AlternatingCountsNeverStop(n: nat)
    ensures var at := StateAt(DIVERGENCE_ONLY, ZERO, Alternating, 2 * n);
            Inv(at) && Uncharged(at) && at.lastAction != Polished
    ensures PolishedAt(DIVERGENCE_ONLY, ZERO, Alternating, 2 * n) && Readable(Alternating(2 * n))
    ensures OutAt(DIVERGENCE_ONLY, ZERO, Alternating, 2 * n + 1).Action() == Idle
  {
    hide Tick, Inv, StateAt, OutAt, PolishedAt, Uncharged;
    if n == 0 {
      StartsUncharged();
    } else {
      var k := 2 * n - 2;
      assert k == 2 * (n - 1);
      AlternatingCountsNeverStop(n - 1);
      TwoTicks(k);
    }
    TwoTicks(2 * n);
  }

  lemma StartsUncharged()
    ensures StateAt(DIVERGENCE_ONLY, ZERO, Alternating, 0) == ZERO && Inv(ZERO) && Uncharged(ZERO)
  {
    ZeroHasInv();
  }

  lemma TwoTicks(k: nat)
    requires k % 2 == 0
    requires var at := StateAt(DIVERGENCE_ONLY, ZERO, Alternating, k);
             Inv(at) && Uncharged(at) && at.lastAction != Polished
    ensures PolishedAt(DIVERGENCE_ONLY, ZERO, Alternating, k)
    ensures OutAt(DIVERGENCE_ONLY, ZERO, Alternating, k + 1).Action() == Idle
    ensures var at := StateAt(DIVERGENCE_ONLY, ZERO, Alternating, k + 2);
            Inv(at) && Uncharged(at) && at.lastAction != Polished
  {
    hide Tick, Inv;
    var at := StateAt(DIVERGENCE_ONLY, ZERO, Alternating, k);
    CountedTickPolishes(at);
    TickKeepsInv(DIVERGENCE_ONLY, at, COUNTED);
    var next := StateAt(DIVERGENCE_ONLY, ZERO, Alternating, k + 1);
    assert next == Tick(DIVERGENCE_ONLY, at, COUNTED).disk;
    UncountedTickIdles(next);
    TickKeepsInv(DIVERGENCE_ONLY, next, UNCOUNTED);
    assert StateAt(DIVERGENCE_ONLY, ZERO, Alternating, k + 2) == Tick(DIVERGENCE_ONLY, next, UNCOUNTED).disk;
  }
}
