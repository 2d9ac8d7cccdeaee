/** A once round runs to completion at most once in a PR's life (prdozer/agent.go, prdozer/watcher.go). */
module OnceRounds {
  import opened Common
  import opened PrState
  import opened TickSpec
  import opened TickFacts
  import opened PolishRounds
  import DiskWrites

  /** The once record after a decision: what the polish call completed is added, nothing else changes. */
  lemma DecideRecords(cfg: Config, s: State, snap: Snapshot, cs: Changeset, input: TickInput)
    ensures var v, call := Decide(cfg, s, snap, cs, input), PolishCall(cfg.polishSpec, s.onceRoundsDone, input.polish);
            if v.invoked then v.completed == call.completed && v.state.onceRoundsDone == s.onceRoundsDone + call.ranOnce
            else v.completed == [] && v.state.onceRoundsDone == s.onceRoundsDone
  {
    hide PolishCall, AgentFailure, Classify, Ratcheting, Diverging, NeedsSelfReview, MergeResult;
  }

  /** What a tick completed is on disk when the next tick loads the record. */
  lemma TickRecords(cfg: Config, s: State, input: TickInput)
    requires Inv(s)
    ensures var out, call := Tick(cfg, s, input), PolishCall(cfg.polishSpec, s.onceRoundsDone, input.polish);
            && s.onceRoundsDone <= out.disk.onceRoundsDone
            && (out.verdict.invoked ==>
                  out.verdict.completed == call.completed && out.disk.onceRoundsDone == s.onceRoundsDone + call.ranOnce)
            && (!out.verdict.invoked ==> out.verdict.completed == [])
  {
    var out := Tick(cfg, s, input);
    if out.kind == Ran {
      hide Tick, Account, Decide, Diff, Inv, PolishCall, Ratcheting, Diverging;
      TickShape(cfg, s, input);
      var snap := input.snap.value;
      DecideRecords(cfg, Scored(s, snap), snap, Diff(s, snap), input);
      InvokeActions(cfg, Scored(s, snap), snap, Diff(s, snap), input);
      if out.Action() != DryRun {
        DiskWrites.DiskIsMemory(cfg, s, input);
      }
    }
  }

  /** How often the once round with this key finished, over ticks that may each run under another configuration. */
  function Finishes(key: RoundKey, cfgs: seq<Config>, s: State, ins: seq<TickInput>): nat
    requires |cfgs| == |ins|
    decreases |ins|
  {
    if ins == [] then 0
    else
      var out := Tick(cfgs[0], s, ins[0]);
      Completions(key, out.verdict.completed) + Finishes(key, cfgs[1..], out.disk, ins[1..])
  }

  function Life(cfgs: seq<Config>, s: State, ins: seq<TickInput>): State
    requires |cfgs| == |ins|
    decreases |ins|
  {
    if ins == [] then s else Life(cfgs[1..], Tick(cfgs[0], s, ins[0]).disk, ins[1..])
  }

  /**
    Over any sequence of ticks, with rounds failing anywhere, a restart after any tick and validated specs that may
    be edited in between, each once round finishes at most once, and exactly when the record says so.
   */
  lemma {:induction false} OnceRoundFinishesOnce(key: RoundKey, cfgs: seq<Config>, s: State, ins: seq<TickInput>)
    requires |cfgs| == |ins| && Inv(s)
    requires forall cfg | cfg in cfgs :: ValidSpec(cfg.polishSpec)
    ensures Finishes(key, cfgs, s, ins) <= (if key in s.onceRoundsDone then 0 else 1)
    ensures key in Life(cfgs, s, ins).onceRoundsDone <==> key in s.onceRoundsDone || Finishes(key, cfgs, s, ins) == 1
    decreases |ins|
  {
    hide Tick, Inv, ValidSpec, Completions, PolishCall;
    if ins != [] {
      var out := Tick(cfgs[0], s, ins[0]);
      assert cfgs[0] in cfgs;
      TickRecords(cfgs[0], s, ins[0]);
      TickKeepsInv(cfgs[0], s, ins[0]);
      CallCompletesOnce(key, cfgs[0].polishSpec, s.onceRoundsDone, ins[0].polish);
      NoCompletionsOfNothing(key);
      if !out.verdict.invoked {
        UninvokedKeepsRecord(cfgs[0], s, ins[0]);
      }
      OnceRoundFinishesOnce(key, cfgs[1..], out.disk, ins[1..]);
    }
  }

  lemma NoCompletionsOfNothing(key: RoundKey)
    ensures Completions(key, []) == 0
  {
  }

  lemma UninvokedKeepsRecord(cfg: Config, s: State, input: TickInput)
    requires !Tick(cfg, s, input).verdict.invoked
    ensures Tick(cfg, s, input).disk.onceRoundsDone == s.onceRoundsDone
  {
    var out := Tick(cfg, s, input);
    if out.kind == Ran {
      hide Tick, Account, Decide, Diff;
      TickShape(cfg, s, input);
      var snap := input.snap.value;
      DecideRecords(cfg, Scored(s, snap), snap, Diff(s, snap), input);
    }
  }

  /** A polish call that dies at some round keeps every once round before it: the next tick will not run them again. */
  lemma ProgressSurvivesFailure(cfg: Config, s: State, input: TickInput, i: nat)
    requires Inv(s) && input.polish.FaultAt? && i < input.polish.round
    requires i < |Active(cfg.polishSpec, s.onceRoundsDone)| && Active(cfg.polishSpec, s.onceRoundsDone)[i].once
    ensures var done := Tick(cfg, s, input).disk.onceRoundsDone;
            Tick(cfg, s, input).verdict.invoked ==> forall r | r in Active(cfg.polishSpec, done) ::
              !(r.once && r.OnceKey() == Active(cfg.polishSpec, s.onceRoundsDone)[i].OnceKey())
  {
    hide Tick, Inv, PolishCall, Active;
    TickRecords(cfg, s, input);
    ProgressBeforeFaultIsKept(cfg.polishSpec, s.onceRoundsDone, input.polish, i);
    ActiveOmitsDone(cfg.polishSpec, Tick(cfg, s, input).disk.onceRoundsDone);
  }
}
