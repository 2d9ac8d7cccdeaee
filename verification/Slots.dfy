/**
  What the orchestrator and discovery keep under their locks, one operation per critical section
  (jiradozer/orchestrator.go, jiradozer/discovery.go).
 */
module Slots {
  import opened Common
  import opened Positions

  type IssueId = string

  const MAX_RUNTIME_FAILURES: nat := 3
  const MAX_START_FAILURES: nat := 3

  /** What occupies a slot: Start's reservation, or a child and its wait goroutine. */
  datatype Holder = Placeholder | Child(number: nat)

  datatype Outcome = Failed | Cancelled | Done

  /** Everything guarded by the orchestrator's lock, and the one-slot wakeup channel. */
  datatype Shared = Shared(
    active: map<IssueId, Holder>,
    runtimeFailures: map<IssueId, nat>,
    released: set<IssueId>,
    token: bool)
  {
    function Failures(id: IssueId): nat {
      if id in runtimeFailures then runtimeFailures[id] else 0
    }

    predicate AtCap(id: IssueId) {
      Failures(id) >= MAX_RUNTIME_FAILURES
    }

    function Count(): nat {
      |active.Keys|
    }

    /** ActiveIssueIDs: what discovery must keep suppressed. */
    function Suppressed(): set<IssueId> {
      active.Keys + set id | id in runtimeFailures && runtimeFailures[id] >= MAX_RUNTIME_FAILURES
    }

    function Put(id: IssueId, holder: Holder): Shared {
      this.(active := active[id := holder])
    }

    function Delete(id: IssueId): Shared {
      this.(active := active - {id})
    }

    function Signal(): Shared {
      this.(token := true)
    }

    function Record(id: IssueId, outcome: Outcome): Shared {
      match outcome
      case Failed => this.(runtimeFailures := runtimeFailures[id := Failures(id) + 1])
      case Cancelled => this
      case Done => this.(runtimeFailures := runtimeFailures - {id}, released := released - {id})
    }

    /** The last critical section of cleanup. */
    function Free(id: IssueId, outcome: Outcome): Shared {
      this.(active := active - {id},
            released := if outcome != Done && !AtCap(id) then released + {id} else released)
    }
  }

  datatype Reservation = Reserved | LimitReached | AlreadyActive

  function Reserve(s: Shared, max: int, id: IssueId): Reservation {
    if s.Count() >= max then LimitReached else if id in s.active then AlreadyActive else Reserved
  }

  // ----- the orchestrator's methods -----

  class Orchestrator {
    const maxConcurrent: int
    var active: map<IssueId, Holder>
    var runtimeFailures: map<IssueId, nat>
    var releasedForRetry: set<IssueId>
    var slotFreed: bool // a token is in the one-slot channel

    constructor (maxConcurrent: int)
      ensures this.maxConcurrent == maxConcurrent && Val() == Shared(map[], map[], {}, false)
    {
      this.maxConcurrent := maxConcurrent;
      active, runtimeFailures, releasedForRetry, slotFreed := map[], map[], {}, false;
    }

    function Val(): Shared
      reads this
    {
      Shared(active, runtimeFailures, releasedForRetry, slotFreed)
    }

    /** The check-and-reserve section of Start. */
    method TryReserve(id: IssueId) returns (r: Reservation)
      modifies this`active
      ensures r == Reserve(old(Val()), maxConcurrent, id)
      ensures r == LimitReached <==> |old(active.Keys)| >= maxConcurrent
      ensures r == Reserved <==> |old(active.Keys)| < maxConcurrent && id !in old(active)
      ensures Val() == if r == Reserved then old(Val()).Put(id, Placeholder) else old(Val())
    {
      if |active.Keys| >= maxConcurrent {
        return LimitReached;
      }
      if id in active {
        return AlreadyActive;
      }
      active := active[id := Placeholder];
      return Reserved;
    }

    /** Start's last section: the child replaces the placeholder. */
    method Commit(id: IssueId, child: nat)
      modifies this`active
      ensures Val() == old(Val()).Put(id, Child(child))
    {
      active := active[id := Child(child)];
    }

    /** The locked half of unreserveSlot. */
    method DeleteSlot(id: IssueId)
      modifies this`active
      ensures Val() == old(Val()).Delete(id)
    {
      active := active - {id};
    }

    /** The non-blocking send that ends unreserveSlot and cleanup. */
    method Signal()
      modifies this`slotFreed
      ensures Val() == old(Val()).Signal()
    {
      if !slotFreed {
        slotFreed := true;
      }
    }

    method RecordRuntimeFailure(id: IssueId)
      modifies this`runtimeFailures
      ensures Val() == old(Val()).Record(id, Failed)
    {
      if id !in runtimeFailures {
        runtimeFailures := runtimeFailures[id := 0];
      }
      ghost var before := old(runtimeFailures);
      runtimeFailures := runtimeFailures[id := runtimeFailures[id] + 1];
      assert runtimeFailures == before[id := old(Val()).Failures(id) + 1];
    }

    method RecordSuccess(id: IssueId)
      modifies this`runtimeFailures, this`releasedForRetry
      ensures Val() == old(Val()).Record(id, Done)
    {
      runtimeFailures := runtimeFailures - {id};
      releasedForRetry := releasedForRetry - {id};
    }

    /** The locked section that ends cleanup. */
    method FreeSlot(id: IssueId, outcome: Outcome)
      modifies this`active, this`releasedForRetry
      ensures Val() == old(Val()).Free(id, outcome)
    {
      active := active - {id};
      if outcome == Failed || outcome == Cancelled {
        if (if id in runtimeFailures then runtimeFailures[id] else 0) < MAX_RUNTIME_FAILURES {
          releasedForRetry := releasedForRetry + {id};
        }
      }
    }

    method ActiveIssueIDs() returns (ids: set<IssueId>)
      ensures ids == Val().Suppressed()
    {
      ids := {};
      var left := active.Keys;
      while left != {}
        invariant left <= active.Keys && ids == active.Keys - left
        decreases |left|
      {
        var id :| id in left;
        ids := ids + {id};
        left := left - {id};
      }
      ids := AddCapped(ids);
    }

    /** The second loop: the issues at the runtime-failure cap. */
    method AddCapped(others: set<IssueId>) returns (ids: set<IssueId>)
      ensures ids == others + set id | id in runtimeFailures && runtimeFailures[id] >= MAX_RUNTIME_FAILURES
    {
      ids := others;
      var left := runtimeFailures.Keys;
      while left != {}
        invariant left <= runtimeFailures.Keys
        invariant forall id :: id in ids <==>
                    || id in others
                    || (id in runtimeFailures.Keys - left && runtimeFailures[id] >= MAX_RUNTIME_FAILURES)
        decreases |left|
      {
        var id :| id in left;
        if runtimeFailures[id] >= MAX_RUNTIME_FAILURES {
          ids := ids + {id};
        }
        left := left - {id};
      }
    }

    method DrainReleasedForRetry() returns (ids: seq<IssueId>)
      modifies this`releasedForRetry
      ensures (set id | id in ids) == old(releasedForRetry) && |ids| == |old(releasedForRetry)|
      ensures Val() == old(Val()).(released := {})
    {
      ids := [];
      if releasedForRetry == {} {
        return;
      }
      var left := releasedForRetry;
      while left != {}
        invariant left <= releasedForRetry
        invariant forall id :: id in ids <==> id in releasedForRetry - left
        invariant |ids| + |left| == |releasedForRetry|
        decreases |left|
      {
        var id :| id in left;
        ids := ids + [id];
        left := left - {id};
      }
      releasedForRetry := {};
    }
  }

  // ----- discovery -----

  /** The issues of one listing that are neither suppressed nor already seen. */
  function Fresh(list: seq<IssueId>, hidden: set<IssueId>): seq<IssueId> {
    if list == [] then []
    else (if list[0] in hidden then [] else [list[0]]) + Fresh(list[1..], hidden)
  }

  lemma {:induction false} FreshMeaning(list: seq<IssueId>, hidden: set<IssueId>, id: IssueId)
    ensures id in Fresh(list, hidden) <==> id in list && id !in hidden
  {
    if list != [] {
      FreshMeaning(list[1..], hidden, id);
      assert list == [list[0]] + list[1..];
    }
  }

  /** By position: every such entry of the listing, in its order. */
  lemma {:induction false} FreshByPosition(list: seq<IssueId>, hidden: set<IssueId>) returns (at: seq<nat>)
    ensures Ascending(at, |list|) && Lists(Fresh(list, hidden), list, at)
    ensures forall i: nat :: i in at <==> i < |list| && list[i] !in hidden
  {
    at := [];
    if list != [] {
      var keep := list[0] !in hidden;
      var rest := FreshByPosition(list[1..], hidden);
      BehindMeaning(keep, rest, |list| - 1);
      ListsBehind(Fresh(list[1..], hidden), list, rest, keep);
      at := Behind(keep, rest);
      hide Ascending, Lists, Behind;
      forall i: nat ensures i in at <==> i < |list| && list[i] !in hidden {
        assert 0 < i < |list| ==> list[i] == list[1..][i - 1];
      }
    }
  }

  class Discovery {
    var seen: set<IssueId>

    constructor ()
      ensures seen == {}
    {
      seen := {};
    }

    method ClearSeen(id: IssueId)
      modifies this
      ensures seen == old(seen) - {id}
    {
      seen := seen - {id};
    }

    /** The locked part of poll, given the listing and the two answers of the orchestrator. */
    method Reconcile(issues: seq<IssueId>, active: set<IssueId>, drained: seq<IssueId>) returns (emitted: seq<IssueId>)
      modifies this
      ensures emitted == Fresh(issues, active + (old(seen) - set id | id in drained))
      ensures seen == set id | id in issues
    {
      for i := 0 to |drained|
        invariant seen == old(seen) - set id | id in drained[..i]
      {
        assert drained[..i + 1] == drained[..i] + [drained[i]];
        seen := seen - {drained[i]};
      }
      assert drained[..|drained|] == drained;
      ghost var hidden := active + seen;
      var next: set<IssueId> := {};
      emitted := [];
      for i := 0 to |issues|
        invariant next == set id | id in issues[..i]
        invariant emitted + Fresh(issues[i..], hidden) == Fresh(issues, hidden)
      {
        assert issues[..i + 1] == issues[..i] + [issues[i]];
        var id := issues[i];
        next := next + {id};
        if id !in active && id !in seen {
          emitted := emitted + [id];
        }
      }
      assert issues[..|issues|] == issues;
      seen := next;
    }
  }
}
