/** Polish rounds, some of them once-only (prdozer/agent.go, prdozer/registry.go). */
module PolishRounds {
  import opened Common
  import opened Positions

  /** What identifies a once round: its content. The source stores a hash of the same two strings. */
  datatype RoundKey = RoundKey(command: string, prompt: string)

  datatype RoundSpec = RoundSpec(prompt: string, command: string, once: bool) {
    function OnceKey(): RoundKey {
      RoundKey(command, prompt)
    }

    predicate WellFormed() {
      (prompt != "") != (command != "")
    }
  }

  /** A round's error, already classified: only provider and deadline errors count as transient. */
  datatype AgentError =
    | CommandError(text: string)
    | ProviderOutage(text: string)
    | GraceForced(text: string)
    | PlainError(text: string)

  /** Which round of a call fails, if any. */
  datatype Fault = NoFault | FaultAt(round: nat, err: AgentError)

  /** completed lists the rounds that finished, of every kind; ranOnce keys the once rounds among them. */
  datatype PolishResult = PolishResult(ranOnce: set<RoundKey>, completed: seq<RoundSpec>, err: Option<AgentError>)

  // ----- validation -----

  predicate ValidSpec(rounds: seq<RoundSpec>) {
    && (forall r | r in rounds :: r.WellFormed())
    && (forall i, j | 0 <= i < j < |rounds| ::
          rounds[i].once && rounds[j].once ==> rounds[i].OnceKey() != rounds[j].OnceKey())
  }

  /** The checks on rounds made when the registry is loaded; false stands for the returned error. */
  method ValidateRounds(rounds: seq<RoundSpec>) returns (ok: bool)
    ensures ok <==> ValidSpec(rounds)
  {
    var onceAt: map<RoundKey, nat> := map[];
    for i := 0 to |rounds|
      invariant forall r | r in rounds[..i] :: r.WellFormed()
      invariant forall k :: k in onceAt ==> onceAt[k] < i && rounds[onceAt[k]].once && rounds[onceAt[k]].OnceKey() == k
      invariant forall j | 0 <= j < i :: rounds[j].once ==> rounds[j].OnceKey() in onceAt
      invariant forall h, j | 0 <= h < j < i ::
          rounds[h].once && rounds[j].once ==> rounds[h].OnceKey() != rounds[j].OnceKey()
    {
      var round := rounds[i];
      assert round in rounds;
      if round.prompt != "" && round.command != "" {
        return false;
      }
      if round.prompt == "" && round.command == "" {
        return false;
      }
      if round.once {
        if round.OnceKey() in onceAt {
          return false;
        }
        onceAt := onceAt[round.OnceKey() := i];
      }
    }
    return true;
  }

  // ----- one call -----

  function Active(rounds: seq<RoundSpec>, done: set<RoundKey>): seq<RoundSpec> {
    if rounds == [] then []
    else if rounds[0].once && rounds[0].OnceKey() in done then Active(rounds[1..], done)
    else [rounds[0]] + Active(rounds[1..], done)
  }

  function OnceKeys(rounds: seq<RoundSpec>): set<RoundKey> {
    set r | r in rounds && r.once :: r.OnceKey()
  }

  /** The first `done` rounds of a call finished, and the call ended with err. */
  function Finished(rounds: seq<RoundSpec>, done: nat, err: Option<AgentError>): PolishResult
    requires done <= |rounds|
  {
    PolishResult(OnceKeys(rounds[..done]), rounds[..done], err)
  }

  function RunRoundsSpec(rounds: seq<RoundSpec>, fault: Fault): PolishResult {
    if fault.FaultAt? && fault.round < |rounds| then Finished(rounds, fault.round, Some(fault.err))
    else Finished(rounds, |rounds|, None)
  }

  /** One call of the polisher: the active rounds in order, or the default single call when there are none. */
  function PolishCall(rounds: seq<RoundSpec>, done: set<RoundKey>, fault: Fault): PolishResult {
    var active := Active(rounds, done);
    if active != [] then RunRoundsSpec(active, fault)
    else if fault.FaultAt? && fault.round == 0 then PolishResult({}, [], Some(fault.err))
    else PolishResult({}, [], None)
  }

  /** The active rounds by position: every round in its order, but for the once rounds on record. */
  lemma {:induction false} ActiveByPosition(rounds: seq<RoundSpec>, done: set<RoundKey>) returns (at: seq<nat>)
    ensures Ascending(at, |rounds|) && Lists(Active(rounds, done), rounds, at)
    ensures forall i: nat :: i in at <==> i < |rounds| && !(rounds[i].once && rounds[i].OnceKey() in done)
  {
    at := [];
    if rounds != [] {
      var keep := !(rounds[0].once && rounds[0].OnceKey() in done);
      var rest := ActiveByPosition(rounds[1..], done);
      BehindMeaning(keep, rest, |rounds| - 1);
      ListsBehind(Active(rounds[1..], done), rounds, rest, keep);
      at := Behind(keep, rest);
      hide Ascending, Lists, Behind;
      assert Active(rounds, done) == (if keep then [rounds[0]] else []) + Active(rounds[1..], done);
      forall i: nat ensures i in at <==> i < |rounds| && !(rounds[i].once && rounds[i].OnceKey() in done) {
        assert 0 < i < |rounds| ==> rounds[i] == rounds[1..][i - 1];
      }
    }
  }

  /**
    One call by position, from the rounds, the record and the fault: it works through the rounds still owed and stops
    before the one that fails; with none owed it makes the default single call, which finishes no round.
   */
  lemma CallByPosition(rounds: seq<RoundSpec>, done: set<RoundKey>, fault: Fault) returns (at: seq<nat>)
    ensures Ascending(at, |rounds|)
    ensures forall i: nat :: i in at <==> i < |rounds| && !(rounds[i].once && rounds[i].OnceKey() in done)
    ensures var res := PolishCall(rounds, done, fault);
            var fails := fault.FaultAt? && (fault.round < |at| || (at == [] && fault.round == 0));
            && res.err == (if fails then Some(fault.err) else None)
            && Lists(res.completed, rounds, if fails then at[..fault.round] else at)
            && forall key :: key in res.ranOnce <==> exists r :: r in res.completed && r.once && r.OnceKey() == key
  {
    at := ActiveByPosition(rounds, done);
    var active := Active(rounds, done);
    assert active[..|active|] == active;
  }

  method ActiveRounds(rounds: seq<RoundSpec>, done: set<RoundKey>) returns (out: seq<RoundSpec>)
    ensures out == Active(rounds, done)
  {
    out := [];
    for i := 0 to |rounds|
      invariant out + Active(rounds[i..], done) == Active(rounds, done)
    {
      if rounds[i].once && rounds[i].OnceKey() in done {
        continue;
      }
      out := out + [rounds[i]];
    }
  }

  method RunRounds(rounds: seq<RoundSpec>, fault: Fault) returns (res: PolishResult)
    ensures res == RunRoundsSpec(rounds, fault)
  {
    res := PolishResult({}, [], None);
    for i := 0 to |rounds|
      invariant fault.FaultAt? ==> i <= fault.round || |rounds| <= fault.round
      invariant res == Finished(rounds, i, None)
    {
      if fault.FaultAt? && fault.round == i {
        res := res.(err := Some(fault.err));
        return;
      }
      assert rounds[..i + 1] == rounds[..i] + [rounds[i]];
      res := res.(completed := res.completed + [rounds[i]]);
      if rounds[i].once {
        res := res.(ranOnce := res.ranOnce + {rounds[i].OnceKey()});
      }
    }
  }

  method Polish(rounds: seq<RoundSpec>, done: set<RoundKey>, fault: Fault) returns (res: PolishResult)
    ensures res == PolishCall(rounds, done, fault)
  {
    var active := ActiveRounds(rounds, done);
    if |active| > 0 {
      res := RunRounds(active, fault);
    } else if fault.FaultAt? && fault.round == 0 {
      res := PolishResult({}, [], Some(fault.err));
    } else {
      res := PolishResult({}, [], None);
    }
  }

  // ----- how often a once round completes -----

  /** How many of these rounds are the once round with this key. */
  function Completions(key: RoundKey, rounds: seq<RoundSpec>): nat {
    if rounds == [] then 0
    else (if rounds[0].once && rounds[0].OnceKey() == key then 1 else 0) + Completions(key, rounds[1..])
  }

  lemma {:induction false} ActiveOmitsDone(rounds: seq<RoundSpec>, done: set<RoundKey>)
    ensures forall r | r in Active(rounds, done) :: r in rounds && !(r.once && r.OnceKey() in done)
  {
    if rounds != [] {
      ActiveOmitsDone(rounds[1..], done);
    }
  }

  lemma {:induction false} NoneWithoutKey(key: RoundKey, rounds: seq<RoundSpec>)
    ensures Completions(key, rounds) == 0 <==> key !in OnceKeys(rounds)
  {
    if rounds != [] {
      NoneWithoutKey(key, rounds[1..]);
      assert rounds == [rounds[0]] + rounds[1..];
    }
  }

  lemma {:induction false} AtMostOneInSpec(key: RoundKey, rounds: seq<RoundSpec>, done: set<RoundKey>)
    requires ValidSpec(rounds)
    ensures Completions(key, Active(rounds, done)) <= 1
  {
    if rounds != [] {
      AtMostOneInSpec(key, rounds[1..], done);
      ActiveOmitsDone(rounds[1..], done);
      NoneWithoutKey(key, Active(rounds[1..], done));
    }
  }

  lemma {:induction false} FewerInPrefix(key: RoundKey, rounds: seq<RoundSpec>, n: nat)
    requires n <= |rounds|
    ensures Completions(key, rounds[..n]) <= Completions(key, rounds)
  {
    if n > 0 {
      FewerInPrefix(key, rounds[1..], n - 1);
      assert rounds[..n][1..] == rounds[1..][..n - 1];
    }
  }

  /** One call completes a once round at most once, never if it was recorded, and records exactly what it completed. */
  lemma CallCompletesOnce(key: RoundKey, rounds: seq<RoundSpec>, done: set<RoundKey>, fault: Fault)
    requires ValidSpec(rounds)
    ensures var res := PolishCall(rounds, done, fault);
            && Completions(key, res.completed) <= (if key in done then 0 else 1)
            && (key in res.ranOnce <==> Completions(key, res.completed) > 0)
  {
    var active, res := Active(rounds, done), PolishCall(rounds, done, fault);
    AtMostOneInSpec(key, rounds, done);
    ActiveOmitsDone(rounds, done);
    NoneWithoutKey(key, active);
    NoneWithoutKey(key, res.completed);
    FewerInPrefix(key, active, |res.completed|);
    assert active[..|res.completed|] == res.completed;
  }

  /** A call that fails at round k still records every once round before k. */
  lemma ProgressBeforeFaultIsKept(rounds: seq<RoundSpec>, done: set<RoundKey>, fault: Fault, i: nat)
    requires fault.FaultAt? && i < fault.round && i < |Active(rounds, done)| && Active(rounds, done)[i].once
    ensures Active(rounds, done)[i].OnceKey() in PolishCall(rounds, done, fault).ranOnce
  {
    var active, n := Active(rounds, done), |PolishCall(rounds, done, fault).completed|;
    assert active[..n][i] == active[i];
  }
}
