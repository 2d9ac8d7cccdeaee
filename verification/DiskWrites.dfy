/** A tick that decides not to save has changed nothing (prdozer/watcher.go, recordSnapshot and its callers). */
module DiskWrites {
  import opened Common
  import opened PrState
  import opened TickSpec
  import opened TickFacts
  import SeenSet
  import PolishRounds

  lemma CleanAccountChangesNothing(s: State, snap: Snapshot)
    requires !Account(s, snap).1
    ensures Account(s, snap).0 == s
  {
  }

  lemma SameSizeSubset<T>(a: set<T>, b: set<T>)
    requires a <= b && |a| == |b|
    ensures a == b
  {
    SeenSet.SubsetCardinality(a, b);
  }

  lemma CleanActionChangesNothing(cfg: Config, s: State, snap: Snapshot, cs: Changeset, input: TickInput)
    requires !ActionDirty(s, Decide(cfg, s, snap, cs, input).state)
    ensures Decide(cfg, s, snap, cs, input).state == s
  {
    hide Decide;
    DecideFrame(cfg, s, snap, cs, input);
    SameSizeSubset(s.onceRoundsDone, Decide(cfg, s, snap, cs, input).state.onceRoundsDone);
  }

  /** The one change recording makes without reporting it, clearing a cause, needs the cause to come with a window. */
  lemma CleanRecordChangesNothing(cfg: Config, s: State, snap: Snapshot, rep: Report, prior: bool, clock: Clock)
    requires s.lastCooldownCause != NoCause ==> s.cooldownUntil.Some?
    requires rep.action != DryRun && !RecordSnapshot(cfg, s, snap, rep, prior, clock).1
    ensures RecordSnapshot(cfg, s, snap, rep, prior, clock).0 == s && !prior
  {
    hide CooldownCause, MergeBrakeTripped;
    assert Observe(s, snap).0 == s;
    assert s.(lastAction := rep.action) == s;
  }

  /** Skipping the disk write is sound: whenever nothing was saved, no persisted field had changed. */
  lemma SkippedWriteLosesNothing(cfg: Config, s: State, input: TickInput)
    requires Inv(s)
    ensures var out := Tick(cfg, s, input);
            out.Action() != DryRun && !out.wrote ==> out.memory == s
  {
    var out := Tick(cfg, s, input);
    if out.kind == Ran && out.Action() != DryRun && !out.wrote {
      hide Account, Decide, RecordSnapshot, Diff, ActionDirty;
      var snap := input.snap.value;
      var scored := Account(s, snap).0;
      AccountFrame(s, snap);
      var v := Decide(cfg, scored, snap, Diff(s, snap), input);
      DecideFrame(cfg, scored, snap, Diff(s, snap), input);
      CleanRecordChangesNothing(cfg, v.state, snap, v.report, ActionDirty(scored, v.state)
          || Account(s, snap).1, input.clock);
      CleanAccountChangesNothing(s, snap);
      CleanActionChangesNothing(cfg, s, snap, Diff(s, snap), input);
    }
  }

  /** What a process that never reloads would hold. */
  function InMemory(cfg: Config, s: State, ins: seq<TickInput>): State
    decreases |ins|
  {
    if ins == [] then s else InMemory(cfg, Tick(cfg, s, ins[0]).memory, ins[1..])
  }

  /** What is on disk, reloaded before every tick. */
  function OnDisk(cfg: Config, s: State, ins: seq<TickInput>): State
    decreases |ins|
  {
    if ins == [] then s else OnDisk(cfg, Tick(cfg, s, ins[0]).disk, ins[1..])
  }

  lemma DiskIsMemory(cfg: Config, s: State, input: TickInput)
    requires Inv(s) && Tick(cfg, s, input).Action() != DryRun
    ensures Tick(cfg, s, input).disk == Tick(cfg, s, input).memory
  {
    SkippedWriteLosesNothing(cfg, s, input);
  }

  lemma LiveTicksNeverDryRun(cfg: Config, s: State, input: TickInput)
    requires !cfg.dryRun
    ensures Tick(cfg, s, input).Action() != DryRun
  {
    if Tick(cfg, s, input).kind == Ran {
      hide Account, Decide, RecordSnapshot, Diff;
      var snap := input.snap.value;
      InvokeActions(cfg, Account(s, snap).0, snap, Diff(s, snap), input);
    }
  }

  /** Reloading the record before each tick is the same as keeping it in memory, over every run of a live watcher. */
  lemma {:induction false} ReloadingEqualsMemory(cfg: Config, s: State, ins: seq<TickInput>)
    requires Inv(s) && !cfg.dryRun
    ensures OnDisk(cfg, s, ins) == InMemory(cfg, s, ins)
    decreases |ins|
  {
    hide Tick, Inv;
    if ins != [] {
      LiveTicksNeverDryRun(cfg, s, ins[0]);
      DiskIsMemory(cfg, s, ins[0]);
      TickKeepsInv(cfg, s, ins[0]);
      ReloadingEqualsMemory(cfg, Tick(cfg, s, ins[0]).disk, ins[1..]);
    }
  }

  /** A dry run is observe-only: whatever the tick computed, the file stays as it was. */
  lemma {:induction false} DryRunNeverReachesDisk(cfg: Config, s: State, input: TickInput)
    ensures Tick(cfg, s, input).Action() == DryRun ==> Tick(cfg, s, input).disk == s
  {
    if Tick(cfg, s, input).kind == Ran && Tick(cfg, s, input).Action() == DryRun {
      TickDryRun(cfg, s, input);
    }
  }
}
