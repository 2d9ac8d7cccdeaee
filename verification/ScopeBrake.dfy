/**
  The scope brake over a PR's whole life, across runs and restarts (prdozer/watcher.go, ratcheting and pushedCommits).
 */
module ScopeBrake {
  import opened Common
  import opened PrState
  import opened TickSpec
  import opened TickFacts
  import DiskWrites

  /** Commits charged to the PR are never given back. */
  lemma PolishCommitsNeverDecrease(cfg: Config, s: State, input: TickInput)
    ensures Tick(cfg, s, input).disk.polishCommits >= s.polishCommits
  {
    if Tick(cfg, s, input).kind == Ran {
      TickShape(cfg, s, input);
    }
  }

  /** The polisher is never called at twice the limit, nor at the limit when there is something to polish. */
  lemma InvokedBelowLimit(cfg: Config, s: State, input: TickInput)
    requires cfg.maxPolishCommits > 0
    ensures Tick(cfg, s, input).verdict.invoked ==>
              var charged, limit := Tick(cfg, s, input).memory.polishCommits, cfg.maxPolishCommits;
              && input.snap.Some?
              && charged < 2 * limit
              && (Diff(s, input.snap.value).NeedsPolish() ==> charged < limit)
  {
    hide Tick, Account, Decide, Diff, Diverging, NeedsSelfReview;
    OnlyATickThatRanInvokes(cfg, s, input);
    if Tick(cfg, s, input).verdict.invoked {
      TickShape(cfg, s, input);
      var snap := input.snap.value;
      InvokeActions(cfg, Scored(s, snap), snap, Diff(s, snap), input);
    }
  }

  lemma OnlyATickThatRanInvokes(cfg: Config, s: State, input: TickInput)
    ensures Tick(cfg, s, input).verdict.invoked ==> Tick(cfg, s, input).kind == Ran
  {
    hide Account, Decide, RecordSnapshot, Diff, ActionDirty;
  }

  /**
    How many polish calls, not ended by the stall guard, were followed by a moved head at the next snapshot.
    pending is the head such a call worked on, until the next snapshot is taken.
   */
  function MovedHeads(cfg: Config, s: State, ins: seq<TickInput>, pending: Option<string>): nat
    decreases |ins|
  {
    if ins == [] then 0
    else
      var out := Tick(cfg, s, ins[0]);
      if out.kind != Ran || ins[0].snap == None then MovedHeads(cfg, out.disk, ins[1..], pending)
      else
        var head := ins[0].snap.value.head;
        (if pending.Some? && pending.value != head then 1 else 0)
        + MovedHeads(cfg, out.disk, ins[1..], if out.verdict.invoked && !out.verdict.stalled then Some(head) else None)
  }

  predicate HeadsKnown(ins: seq<TickInput>) {
    forall input | input in ins :: input.snap.Some? ==> input.snap.value.head != ""
  }

  /** A call that counts leaves the record waiting to charge the next moved head. */
  ghost predicate Waiting(cfg: Config, s: State, pending: Option<string>) {
    pending.Some? ==>
      && s.lastAction in {Polished, Failed, Stalled, Transient}
      && s.lastSeenHead == pending.value != ""
      && s.polishCommits < 2 * cfg.maxPolishCommits
  }

  lemma MovedHeadIsCharged(s: State, snap: Snapshot)
    requires s.lastAction in {Polished, Failed, Stalled, Transient}
    requires s.lastSeenHead != "" && snap.head != "" && s.lastSeenHead != snap.head
    ensures PushedCommits(s, snap) >= 1
  {
  }

  lemma CallLeavesWaiting(cfg: Config, s: State, input: TickInput)
    requires Inv(s) && cfg.maxPolishCommits > 0 && Tick(cfg, s, input).kind == Ran
    requires input.snap.Some? && input.snap.value.head != ""
    requires Tick(cfg, s, input).verdict.invoked && !Tick(cfg, s, input).verdict.stalled
    ensures Waiting(cfg, Tick(cfg, s, input).disk, Some(input.snap.value.head))
  {
    hide Tick, Account, Decide, Diff, Inv, Ratcheting, Diverging;
    TickShape(cfg, s, input);
    var snap := input.snap.value;
    InvokeActions(cfg, Scored(s, snap), snap, Diff(s, snap), input);
    InvokedBelowLimit(cfg, s, input);
    DiskWrites.DiskIsMemory(cfg, s, input);
  }

  /** What one completed tick charges. */
  lemma TickCharges(cfg: Config, s: State, input: TickInput, pending: Option<string>)
    requires Inv(s) && Tick(cfg, s, input).kind == Ran && Waiting(cfg, s, pending)
    requires input.snap.Some? && input.snap.value.head != "" && !cfg.dryRun
    requires pending.Some? && pending.value != input.snap.value.head
    ensures Tick(cfg, s, input).disk.polishCommits > s.polishCommits
  {
    hide Tick, Account, Decide, Diff, Inv;
    TickShape(cfg, s, input);
    MovedHeadIsCharged(s, input.snap.value);
    DiskWrites.LiveTicksNeverDryRun(cfg, s, input);
    DiskWrites.DiskIsMemory(cfg, s, input);
  }

  lemma OtherTick(cfg: Config, s: State, input: TickInput)
    ensures Tick(cfg, s, input).kind != Ran ==> Tick(cfg, s, input).disk == s
    ensures Tick(cfg, s, input).kind == Ran ==> input.snap.Some?
  {
  }

  lemma {:induction false} MovedHeadsBound(cfg: Config, s: State, ins: seq<TickInput>, pending: Option<string>)
    requires Inv(s) && cfg.maxPolishCommits > 0 && !cfg.dryRun && HeadsKnown(ins) && Waiting(cfg, s, pending)
    ensures MovedHeads(cfg, s, ins, pending)
         <= if s.polishCommits < 2 * cfg.maxPolishCommits then 2 * cfg.maxPolishCommits - s.polishCommits else 0
    decreases |ins|
  {
    hide Tick, Inv;
    if ins != [] {
      var out := Tick(cfg, s, ins[0]);
      OtherTick(cfg, s, ins[0]);
      TickKeepsInv(cfg, s, ins[0]);
      PolishCommitsNeverDecrease(cfg, s, ins[0]);
      assert ins[0] in ins && HeadsKnown(ins[1..]);
      if out.kind != Ran {
        MovedHeadsBound(cfg, out.disk, ins[1..], pending);
      } else {
        var head := ins[0].snap.value.head;
        var next := if out.verdict.invoked && !out.verdict.stalled then Some(head) else None;
        if next.Some? {
          CallLeavesWaiting(cfg, s, ins[0]);
        }
        if pending.Some? && pending.value != head {
          TickCharges(cfg, s, ins[0], pending);
        }
        MovedHeadsBound(cfg, out.disk, ins[1..], next);
      }
    }
  }

  /** Over the whole life of a PR at most 2L polish calls are followed by a moved head. */
  lemma AtMostTwiceTheLimit(cfg: Config, ins: seq<TickInput>)
    requires cfg.maxPolishCommits > 0 && !cfg.dryRun && HeadsKnown(ins)
    ensures MovedHeads(cfg, ZERO, ins, None) <= 2 * cfg.maxPolishCommits
  {
    MovedHeadsBound(cfg, ZERO, ins, None);
  }
}
