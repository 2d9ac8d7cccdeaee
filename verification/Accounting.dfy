/** What a tick adds to the record's counters, and what the counters add up to over runs (prdozer/watcher.go). */
module Accounting {
  import opened Common
  import opened PrHealth
  import opened PrState
  import opened TickSpec
  import opened TickFacts
  import DiskWrites

  // ----- one tick -----

  predicate HeadMoved(s: State, snap: Snapshot) {
    s.lastSeenHead != "" && snap.head != "" && s.lastSeenHead != snap.head
  }

  /** A run that ended with a human needed, and somebody pushed since. */
  predicate Retires(s: State, snap: Snapshot) {
    s.lastAction == NeedsHuman && HeadMoved(s, snap)
  }

  /** The head moved since an action in which an agent may have pushed. */
  predicate Pushed(s: State, snap: Snapshot) {
    s.lastAction in {Polished, Failed, Transient, Stalled, Reworked} && HeadMoved(s, snap)
  }

  /** The PR is known to have n commits: GitHub's total, or the length of a list that is not cut off. */
  predicate Counts(snap: Snapshot, n: nat) {
    n > 0 && (snap.totalCommits == n || (snap.totalCommits <= 0 && snap.commitListLen == n < 100))
  }

  /** Green beats red, then fewer threads win; anything beats nothing. */
  predicate Improves(best: Option<PRHealth>, threads: nat, red: bool) {
    || best.None?
    || (best.value.ciFailing && !red)
    || (best.value.ciFailing == red && threads < best.value.unresolvedThreads)
  }

  lemma WorkMeaning(s: State, snap: Snapshot)
    ensures PushedCommits(s, snap) > 0 <==> Pushed(s, snap)
    ensures forall n: nat :: Counts(snap, n) && Pushed(s, snap) ==>
              PushedCommits(s, snap) == if 0 < s.lastSeenCommitCount < n then n - s.lastSeenCommitCount else 1
    ensures Pushed(s, snap) && (forall n: nat :: !Counts(snap, n)) ==> PushedCommits(s, snap) == 1
  {
    assert snap.CommitCount() > 0 ==> Counts(snap, snap.CommitCount());
    var a := s.lastAction;
    assert a.Init? || a.Idle? || a.Merged? || a.Closed? || a.Armed? || a.NeedsHuman? || a.DryRun? || a.Polished?
        || a.Failed? || a.Transient? || a.Stalled? || a.Reworked?;
  }

  /**
    m has charged what happened since the record s: a polished tick counts as a round, and as one without improvement
    only if this look finds none; commits are charged when the head moved under an agent.
   */
  ghost predicate Scores(s: State, snap: Snapshot, m: State) {
    var retires, polished := Retires(s, snap), if s.lastAction == Polished then 1 else 0;
    var best, rounds := if retires then None else s.bestHealth, if retires then 0 else s.roundsSinceImprovement;
    var red := snap.rollup == RollupFailure;
    && m.polishRounds == s.polishRounds + polished
    && m.baselineAdditions == (if s.baselineAdditions > 0 then s.baselineAdditions else snap.additions)
    && (!Pushed(s, snap) ==> m.polishCommits == s.polishCommits)
    && (Pushed(s, snap) && (forall n: nat :: !Counts(snap, n)) ==> m.polishCommits == s.polishCommits + 1)
    && (forall n: nat :: Pushed(s, snap) && Counts(snap, n) ==>
          m.polishCommits == s.polishCommits + if 0 < s.lastSeenCommitCount < n then n - s.lastSeenCommitCount else 1)
    && if snap.unresolved < 0 then m.bestHealth == best && m.roundsSinceImprovement == rounds
       else if Improves(best, snap.unresolved, red) then
         m.bestHealth == Some(PRHealth(snap.unresolved, red)) && m.roundsSinceImprovement == 0
       else m.bestHealth == best && m.roundsSinceImprovement == rounds + polished
  }

  lemma ScoreMeaning(s: State, snap: Snapshot)
    ensures Scores(s, snap, Account(s, snap).0)
    ensures Account(s, snap).0.invocationsSinceRound == if Retires(s, snap) then 0 else s.invocationsSinceRound
  {
    WorkMeaning(s, snap);
    AccountFrame(s, snap);
    hide PushedCommits, Counts, Pushed;
  }

  /** Every completed tick scores its snapshot before it decides. */
  lemma TickScores(cfg: Config, s: State, input: TickInput)
    ensures Tick(cfg, s, input).kind == Ran ==> Scores(s, input.snap.value, Tick(cfg, s, input).memory)
  {
    if Tick(cfg, s, input).kind == Ran {
      hide Tick, Account, Counts, Pushed, Improves;
      TickShape(cfg, s, input);
      TickKeepsVerdict(cfg, s, input);
      ScoreMeaning(s, input.snap.value);
    }
  }

  /** What a completed tick leaves in the fields it observed. */
  lemma TickObserves(cfg: Config, s: State, input: TickInput)
    requires Inv(s) && Tick(cfg, s, input).kind == Ran && Tick(cfg, s, input).Action() != DryRun
    ensures var out, snap := Tick(cfg, s, input), input.snap.value;
            var t := out.disk;
            && t == out.memory
            && t.lastAction == out.Action() && t.lastSeenHead == snap.head
            && t.lastSeenBase == (if snap.base != "" then snap.base else s.lastSeenBase)
            && (forall n: nat :: Counts(snap, n) ==> t.lastSeenCommitCount == n)
            && ((forall n: nat :: !Counts(snap, n)) ==> t.lastSeenCommitCount == s.lastSeenCommitCount)
            && t.lastCheckAt == (if out.wrote then Some(snap.takenAt) else s.lastCheckAt) && t.lastCheckAt.Some?
  {
    hide Tick, Inv;
    TickShape(cfg, s, input);
    TickSeen(cfg, s, input);
    TickStamps(cfg, s, input);
    DiskWrites.DiskIsMemory(cfg, s, input);
    var snap := input.snap.value;
    assert snap.CommitCount() > 0 ==> Counts(snap, snap.CommitCount());
  }

  /** Over any ticks every merge attempt is counted, and every polished tick is counted or still to be charged. */
  lemma {:induction false} CountersAddUp(cfg: Config, s: State, ins: seq<TickInput>)
    requires Inv(s)
    ensures var t := DiskWrites.OnDisk(cfg, s, ins);
            && t.mergeAttempts == s.mergeAttempts + Attempted(cfg, s, ins)
            && t.polishRounds + Due(t.lastAction)
                 == s.polishRounds + Due(s.lastAction) + multiset(Reported(cfg, s, ins))[Polished]
    decreases |ins|
  {
    hide Tick, Inv;
    if ins != [] {
      var out := Tick(cfg, s, ins[0]);
      TickAddsUp(cfg, s, ins[0]);
      TickKeepsInv(cfg, s, ins[0]);
      CountersAddUp(cfg, out.disk, ins[1..]);
    }
  }

  // ----- over runs -----

  /** Merge attempts of a run, whenever they happen. */
  function Attempted(cfg: Config, s: State, ins: seq<TickInput>): nat
    decreases |ins|
  {
    if ins == [] then 0
    else
      var out := Tick(cfg, s, ins[0]);
      (if out.verdict.attempted then 1 else 0) + Attempted(cfg, out.disk, ins[1..])
  }

  /** What the completed ticks of a run reported, in order. */
  function Reported(cfg: Config, s: State, ins: seq<TickInput>): seq<LastAction>
    decreases |ins|
  {
    if ins == [] then []
    else
      var out := Tick(cfg, s, ins[0]);
      (if out.kind == Ran then [out.Action()] else []) + Reported(cfg, out.disk, ins[1..])
  }

  function Due(action: LastAction): nat {
    if action == Polished then 1 else 0
  }

  lemma TickAddsUp(cfg: Config, s: State, input: TickInput)
    requires Inv(s)
    ensures var out := Tick(cfg, s, input);
            && out.disk.mergeAttempts == s.mergeAttempts + (if out.verdict.attempted then 1 else 0)
            && out.disk.polishRounds + Due(out.disk.lastAction)
                 == s.polishRounds + Due(s.lastAction) + (if out.kind == Ran then Due(out.Action()) else 0)
  {
    IdleTickKeepsAll(cfg, s, input);
    OnlyRanAttempts(cfg, s, input);
    if Tick(cfg, s, input).kind == Ran {
      hide Tick, Inv, Account, Decide, Diff;
      var snap := input.snap.value;
      TickShape(cfg, s, input);
      TickKeepsVerdict(cfg, s, input);
      ScoreMeaning(s, snap);
      if Tick(cfg, s, input).Action() != DryRun {
        DiskWrites.DiskIsMemory(cfg, s, input);
      } else {
        AttemptActions(cfg, Scored(s, snap), snap, s, input);
      }
    }
  }

  lemma OnlyRanAttempts(cfg: Config, s: State, input: TickInput)
    ensures Tick(cfg, s, input).kind != Ran ==> !Tick(cfg, s, input).verdict.attempted
  {
    hide Account, Decide, RecordSnapshot, Diff, ActionDirty;
  }
}
