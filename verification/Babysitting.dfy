/** A watcher ticking over and over: what the run theorems say about the calls it makes (prdozer/watcher.go). */
module Babysitting {
  import opened Common
  import opened PrState
  import opened TickSpec
  import opened TickFacts
  import opened PolishRounds
  import opened Accounting
  import Watcher
  import DiskWrites
  import MergeRate
  import Decisions
  import Cooldowns
  import Tally
  import OnceRounds

  /** Polish calls of a run. */
  function Invoked(cfg: Config, s: State, ins: seq<TickInput>): nat
    decreases |ins|
  {
    if ins == [] then 0
    else
      var out := Tick(cfg, s, ins[0]);
      (if out.verdict.invoked then 1 else 0) + Invoked(cfg, out.disk, ins[1..])
  }

  /** A dry run calls nobody, whatever it sees. */
  lemma {:induction false} DryRunCallsNobody(cfg: Config, s: State, ins: seq<TickInput>)
    requires cfg.dryRun
    ensures Attempted(cfg, s, ins) == 0 && Invoked(cfg, s, ins) == 0
    decreases |ins|
  {
    hide Tick;
    if ins != [] {
      Decisions.TickMergesIff(cfg, s, ins[0]);
      Decisions.TickPolishesIff(cfg, s, ins[0]);
      DryRunCallsNobody(cfg, Tick(cfg, s, ins[0]).disk, ins[1..]);
    }
  }

  /** The rounds a run completes, in order. */
  function Completed(cfg: Config, s: State, ins: seq<TickInput>): seq<RoundSpec>
    decreases |ins|
  {
    if ins == [] then []
    else
      var out := Tick(cfg, s, ins[0]);
      out.verdict.completed + Completed(cfg, out.disk, ins[1..])
  }

  lemma {:induction false} AllAttemptsInside(cfg: Config, s: State, ins: seq<TickInput>, now: int, lo: int, hi: int)
    requires MergeRate.ClockFrom(now, ins) && lo <= now && forall input :: input in ins ==> input.clock.attempt < hi
    ensures Attempted(cfg, s, ins) == MergeRate.AttemptsIn(cfg, s, ins, lo, hi)
    decreases |ins|
  {
    hide Tick;
    if ins != [] {
      assert ins[0] in ins && forall input :: input in ins[1..] ==> input in ins;
      AllAttemptsInside(cfg, Tick(cfg, s, ins[0]).disk, ins[1..], ins[0].clock.brake, lo, hi);
    }
  }

  lemma {:induction false} CompletionsConcat(key: RoundKey, a: seq<RoundSpec>, b: seq<RoundSpec>)
    ensures Completions(key, a + b) == Completions(key, a) + Completions(key, b)
  {
    if a == [] {
      assert a + b == b;
    } else {
      assert (a + b)[1..] == a[1..] + b;
      CompletionsConcat(key, a[1..], b);
    }
  }

  lemma {:induction false} CompletedFinishes(key: RoundKey, cfg: Config, s: State, ins: seq<TickInput>)
    ensures Completions(key, Completed(cfg, s, ins)) == OnceRounds.Finishes(key, seq(|ins|, i => cfg), s, ins)
    decreases |ins|
  {
    hide Tick;
    if ins != [] {
      var out := Tick(cfg, s, ins[0]);
      CompletionsConcat(key, out.verdict.completed, Completed(cfg, out.disk, ins[1..]));
      CompletedFinishes(key, cfg, out.disk, ins[1..]);
      assert seq(|ins|, i => cfg)[1..] == seq(|ins[1..]|, i => cfg);
    }
  }

  lemma CompletesOnce(key: RoundKey, cfg: Config, s: State, ins: seq<TickInput>)
    requires Inv(s) && ValidSpec(cfg.polishSpec)
    ensures Completions(key, Completed(cfg, s, ins)) <= 1
  {
    CompletedFinishes(key, cfg, s, ins);
    OnceRounds.OnceRoundFinishesOnce(key, seq(|ins|, i => cfg), s, ins);
  }

  /** Ticks in a row: the file, the merge attempts and the completed rounds are those of the specification. */
  method TickAll(w: Watcher.Watcher, ins: seq<TickInput>)
    modifies w
    ensures w.disk == DiskWrites.OnDisk(w.cfg, old(w.disk), ins)
    ensures w.mergeCalls == old(w.mergeCalls) + Attempted(w.cfg, old(w.disk), ins)
    ensures w.polishCalls == old(w.polishCalls) + Invoked(w.cfg, old(w.disk), ins)
    ensures w.completedRounds == old(w.completedRounds) + Completed(w.cfg, old(w.disk), ins)
  {
    hide Tick;
    assert ins[0..] == ins;
    for i := 0 to |ins|
      invariant DiskWrites.OnDisk(w.cfg, w.disk, ins[i..]) == DiskWrites.OnDisk(w.cfg, old(w.disk), ins)
      invariant w.mergeCalls + Attempted(w.cfg, w.disk, ins[i..])
          == old(w.mergeCalls) + Attempted(w.cfg, old(w.disk), ins)
      invariant w.polishCalls + Invoked(w.cfg, w.disk, ins[i..])
          == old(w.polishCalls) + Invoked(w.cfg, old(w.disk), ins)
      invariant w.completedRounds + Completed(w.cfg, w.disk, ins[i..])
                == old(w.completedRounds) + Completed(w.cfg, old(w.disk), ins)
    {
      assert ins[i..] == [ins[i]] + ins[i + 1..] && ins[i..][1..] == ins[i + 1..];
      var _ := w.Tick(ins[i]);
    }
    assert ins[|ins|..] == [] && w.completedRounds + [] == w.completedRounds;
  }

  /**
    Both brakes are on, and all ticks start at or after from and attempt within one cooldown of it, until one lands.
   */
  ghost predicate WithinOneCooldown(cfg: Config, s: State, ins: seq<TickInput>, from: int) {
    && cfg.maxConsecutiveFailures > 0 && cfg.cooldown > 0
    && MergeRate.ClockFrom(from, ins) && MergeRate.UpToLanding(cfg, s, ins)
    && forall input :: input in ins ==> input.clock.attempt < from + cfg.cooldown
  }

  /**
    A watcher on any record it can have saved: over ticks within one cooldown it calls merge at most N times, over any
    ticks it completes each once round at most one time, and in a dry run it calls nobody at all. Its failure streak is
    the number of failing ticks since the last clearing one.
   */
  method Babysit(w: Watcher.Watcher, ins: seq<TickInput>)
    requires Inv(w.disk) && ValidSpec(w.cfg.polishSpec)
    modifies w
    ensures forall from :: WithinOneCooldown(w.cfg, old(w.disk), ins, from) ==>
              w.mergeCalls <= old(w.mergeCalls) + w.cfg.maxConsecutiveFailures
    ensures exists done ::
              w.completedRounds == old(w.completedRounds) + done && forall key :: Completions(key, done) <= 1
    ensures w.cfg.dryRun ==> w.mergeCalls == old(w.mergeCalls) && w.polishCalls == old(w.polishCalls)
    ensures w.disk.consecutiveFailures
         == Tally.Count(old(w.disk).consecutiveFailures, Cooldowns.Marks(Reported(w.cfg, old(w.disk), ins)))
  {
    hide Tick, Inv, ValidSpec, MergeRate.UpToLanding, MergeRate.ClockFrom, Completions;
    ghost var s := w.disk;
    TickAll(w, ins);
    Cooldowns.StreakIsHistory(w.cfg, s, ins);
    if w.cfg.dryRun {
      DryRunCallsNobody(w.cfg, s, ins);
    }
    forall from | WithinOneCooldown(w.cfg, s, ins, from)
      ensures Attempted(w.cfg, s, ins) <= w.cfg.maxConsecutiveFailures
    {
      AllAttemptsInside(w.cfg, s, ins, from, from, from + w.cfg.cooldown);
      MergeRate.MergeRateBound(w.cfg, s, ins, from, from);
    }
    forall key ensures Completions(key, Completed(w.cfg, s, ins)) <= 1 {
      CompletesOnce(key, w.cfg, s, ins);
    }
  }
}
