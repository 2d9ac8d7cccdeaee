/** How often a live watcher may try to merge (prdozer/watcher.go, the two cooldown brakes). */
module MergeRate {
  import opened Common
  import opened PrState
  import opened TickSpec
  import opened TickFacts
  import DiskWrites

  /** Clock readings never go back, within a tick or from one tick to the next. */
  ghost predicate ClockFrom(now: int, ins: seq<TickInput>)
    decreases |ins|
  {
    ins == [] || (now <= ins[0].clock.start && ins[0].clock.Monotone() && ClockFrom(ins[0].clock.brake, ins[1..]))
  }

  /** Merge attempts made at instants in [lo, hi). */
  function AttemptsIn(cfg: Config, s: State, ins: seq<TickInput>, lo: int, hi: int): nat
    decreases |ins|
  {
    if ins == [] then 0
    else
      var out := Tick(cfg, s, ins[0]);
      (if out.verdict.attempted && lo <= ins[0].clock.attempt < hi then 1 else 0)
      + AttemptsIn(cfg, out.disk, ins[1..], lo, hi)
  }

  predicate Lands(out: TickOut) {
    out.verdict.attempted && out.Action() == Merged
  }

  /** No attempt but possibly the last tick's lands the PR. */
  predicate UpToLanding(cfg: Config, s: State, ins: seq<TickInput>)
    decreases |ins|
  {
    |ins| <= 1 || (!Lands(Tick(cfg, s, ins[0])) && UpToLanding(cfg, Tick(cfg, s, ins[0]).disk, ins[1..]))
  }

  ghost predicate WindowReaches(s: State, t: int) {
    s.cooldownUntil.Some? && t <= s.cooldownUntil.value
  }

  lemma SkippedOrFailedTick(cfg: Config, s: State, input: TickInput)
    ensures var out := Tick(cfg, s, input);
            && (out.kind != Ran ==> out.disk == s && !out.verdict.attempted)
            && (out.kind == Ran ==> !InCooldown(s, input.clock.start))
  {
  }

  /** No attempt happens inside [.., hi) once the clock has reached hi, or while a window reaching hi is open. */
  lemma {:induction false} NoneBefore(cfg: Config, s: State, ins: seq<TickInput>, now: int, lo: int, hi: int)
    requires ClockFrom(now, ins) && (hi <= now || WindowReaches(s, hi))
    ensures AttemptsIn(cfg, s, ins, lo, hi) == 0
    decreases |ins|
  {
    hide Tick;
    if ins != [] {
      SkippedOrFailedTick(cfg, s, ins[0]);
      NoneBefore(cfg, Tick(cfg, s, ins[0]).disk, ins[1..], ins[0].clock.brake, lo, hi);
    }
  }

  /**
    One tick that does not land the PR either opens a window reaching a full cooldown past the attempt, or leaves
    the brake's watermark alone; and an attempt that opens no window leaves fewer than N attempts uncharged.
   */
  lemma TickOpensOrCounts(cfg: Config, s: State, input: TickInput)
    requires Inv(s) && input.clock.Monotone()
    requires cfg.maxConsecutiveFailures > 0 && cfg.cooldown > 0
    requires Tick(cfg, s, input).kind == Ran && !Lands(Tick(cfg, s, input))
    ensures var out := Tick(cfg, s, input);
            var m := out.disk;
            || WindowReaches(m, input.clock.attempt + cfg.cooldown)
            || (&& m.cooldownFromAttempt == s.cooldownFromAttempt
                && m.mergeAttempts == s.mergeAttempts + (if out.verdict.attempted then 1 else 0)
                && (out.verdict.attempted ==> m.mergeAttempts - m.cooldownFromAttempt < cfg.maxConsecutiveFailures))
  {
    hide Tick, Account, Diff, CooldownCause, Inv, Decide;
    var out := Tick(cfg, s, input);
    TickShape(cfg, s, input);
    var snap := input.snap.value;
    AttemptActions(cfg, Scored(s, snap), snap, s, input);
    InvokeActions(cfg, Scored(s, snap), snap, Diff(s, snap), input);
    if out.Action() == DryRun {
    } else {
      DiskWrites.DiskIsMemory(cfg, s, input);
      TickCooldown(cfg, s, input);
    }
  }

  /** With k attempts already made at or after lo and no window opened since, at most N - k more fit before lo + D. */
  lemma {:induction false} AtMostTheRest(cfg: Config, s: State, ins: seq<TickInput>, now: int, lo: int, k: nat)
    requires Inv(s) && ClockFrom(now, ins) && UpToLanding(cfg, s, ins)
    requires cfg.maxConsecutiveFailures > 0 && cfg.cooldown > 0
    requires k < cfg.maxConsecutiveFailures && (k > 0 ==> lo <= now)
    requires s.mergeAttempts - s.cooldownFromAttempt >= k
    ensures AttemptsIn(cfg, s, ins, lo, lo + cfg.cooldown) <= cfg.maxConsecutiveFailures - k
    decreases |ins|
  {
    hide Tick, Inv;
    if ins != [] {
      var out, clock := Tick(cfg, s, ins[0]), ins[0].clock;
      var counted := out.verdict.attempted && lo <= clock.attempt < lo + cfg.cooldown;
      SkippedOrFailedTick(cfg, s, ins[0]);
      TickKeepsInv(cfg, s, ins[0]);
      if |ins| == 1 {
        assert AttemptsIn(cfg, out.disk, ins[1..], lo, lo + cfg.cooldown) == 0;
      } else if out.kind != Ran {
        AtMostTheRest(cfg, s, ins[1..], clock.brake, lo, k);
      } else {
        TickOpensOrCounts(cfg, s, ins[0]);
        if clock.attempt >= lo && WindowReaches(out.disk, clock.attempt + cfg.cooldown) {
          NoneBefore(cfg, out.disk, ins[1..], clock.brake, lo, lo + cfg.cooldown);
        } else {
          WatermarkBehind(out.disk);
          AtMostTheRest(cfg, out.disk, ins[1..], clock.brake, lo, if counted then k + 1 else k);
        }
      }
    }
  }

  lemma WatermarkBehind(s: State)
    requires Inv(s)
    ensures s.cooldownFromAttempt <= s.mergeAttempts
  {
  }

  /**
    Every half-open interval as long as the cooldown holds at most N merge attempts, up to the tick that lands the
    PR: from any record the watcher can have saved, and whichever of the two brakes opened the windows.
   */
  lemma MergeRateBound(cfg: Config, s: State, ins: seq<TickInput>, now: int, lo: int)
    requires Inv(s) && ClockFrom(now, ins) && UpToLanding(cfg, s, ins)
    requires cfg.maxConsecutiveFailures > 0 && cfg.cooldown > 0
    ensures AttemptsIn(cfg, s, ins, lo, lo + cfg.cooldown) <= cfg.maxConsecutiveFailures
  {
    WatermarkBehind(s);
    AtMostTheRest(cfg, s, ins, now, lo, 0);
  }
}
