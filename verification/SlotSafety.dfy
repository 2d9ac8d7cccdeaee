/** Slot safety and the absence of lost wakeups, over all interleavings (jiradozer/orchestrator.go). */
module SlotSafety {
  import opened Common
  import opened Slots
  import opened SlotProtocol

  predicate LivePc(pc: ChildPc) {
    pc.Running? || pc.Ended? || pc.Recorded?
  }

  /** Start holds a placeholder at these stages. */
  predicate HoldsPlaceholder(loop: LoopPc) {
    loop.Trying? && (loop.stage.Launching? || loop.stage.Unreserving?)
  }

  /** Every entry of active belongs to exactly one goroutine, and every live child has its entry. */
  ghost predicate Owned(children: map<nat, ChildState>, next: nat, active: map<IssueId, Holder>,
      placeholder: Option<IssueId>) {
    && (forall k | k in children :: k < next)
    && (forall k | k in children && LivePc(children[k].pc) ::
          children[k].issue in active && active[children[k].issue] == Child(k))
    && (forall id | id in active ::
          match active[id]
          case Placeholder => placeholder == Some(id)
          case Child(k) => k in children && children[k].issue == id && LivePc(children[k].pc))
    && (placeholder.Some? ==> placeholder.value in active && active[placeholder.value] == Placeholder)
  }

  function PlaceholderOf(loop: LoopPc): Option<IssueId> {
    if HoldsPlaceholder(loop) then Some(loop.issue) else None
  }

  ghost predicate SlotsOwned(s: Sys) {
    Owned(s.children, s.next, s.shared.active, PlaceholderOf(s.loop))
  }

  ghost predicate SomeoneAboutToSignal(s: Sys) {
    exists k :: k in s.children && s.children[k].pc == Freed
  }

  /** The loop has concluded that every slot is taken. */
  predicate BelievesFull(max: nat, loop: LoopPc, pending: seq<IssueId>) {
    || (loop.Waiting? && pending != [])
    || (loop.Draining? && loop.counted >= max)
  }

  ghost predicate NoLostWakeup(max: nat, s: Sys) {
    BelievesFull(max, s.loop, s.pending) && s.shared.Count() < max ==> s.shared.token || SomeoneAboutToSignal(s)
  }

  /** Issues are kept back only once the loop believes every slot is taken, and it reserves only below the limit.
      Its count is never below the true one: only the loop itself takes slots. */
  predicate LoopConsistent(max: nat, s: Sys) {
    && (s.loop.Draining? ==> s.shared.Count() <= s.loop.counted)
    && (s.loop.Draining? && s.loop.kept != [] ==> s.loop.counted >= max)
    && (s.loop.Trying? && s.loop.origin.FromPending? ==> s.loop.origin.kept == [])
    && (s.loop.Trying? && s.loop.stage.Reserving? ==> s.shared.Count() < max)
    && (s.loop.Draining? || (s.loop.Trying? && s.loop.origin.FromPending?) ==> s.pending == [])
  }

  ghost predicate Safe(max: nat, s: Sys) {
    && s.shared.Count() <= max
    && SlotsOwned(s)
    && NoLostWakeup(max, s)
    && LoopConsistent(max, s)
  }

  lemma DeletedCount(m: map<IssueId, Holder>, id: IssueId)
    ensures |(m - {id}).Keys| == (if id in m then |m.Keys| - 1 else |m.Keys|)
  {
    assert (m - {id}).Keys == m.Keys - {id};
  }

  lemma PutCount(m: map<IssueId, Holder>, id: IssueId, h: Holder)
    ensures |m[id := h].Keys| == (if id in m then |m.Keys| else |m.Keys| + 1)
  {
    assert m[id := h].Keys == m.Keys + {id};
  }

  lemma CountsAfter(s: Sys, id: IssueId, h: Holder)
    ensures s.shared.Delete(id).Count() == (if id in s.shared.active then s.shared.Count() - 1 else s.shared.Count())
    ensures s.shared.Put(id, h).Count() == (if id in s.shared.active then s.shared.Count() else s.shared.Count() + 1)
    ensures forall o :: s.shared.Free(id, o).Count() == s.shared.Delete(id).Count()
  {
    DeletedCount(s.shared.active, id);
    PutCount(s.shared.active, id, h);
  }

  // ----- one step -----

  lemma ControlKeepsSafe(max: nat, s: Sys, step: Step)
    requires Safe(max, s) && OfLoop(step) && !InStart(step) && Enabled(s, step)
    ensures Safe(max, LoopControl(max, s, step))
  {
    assert LoopControl(max, s, step).children == s.children;
  }

  lemma TakingASlot(s: Sys, id: IssueId)
    requires SlotsOwned(s) && id !in s.shared.active && PlaceholderOf(s.loop) == None
    ensures Owned(s.children, s.next, s.shared.Put(id, Placeholder).active, Some(id))
  {
  }

  lemma GivingItBack(s: Sys, id: IssueId)
    requires SlotsOwned(s) && PlaceholderOf(s.loop) == Some(id)
    ensures Owned(s.children, s.next, s.shared.Delete(id).active, None)
  {
  }

  lemma Launching(s: Sys, id: IssueId)
    requires SlotsOwned(s) && PlaceholderOf(s.loop) == Some(id)
    ensures Owned(s.children[s.next := ChildState(id, Running)], s.next + 1, s.shared.Put(id, Child(s.next)).active,
        None)
  {
  }

  lemma StartKeepsOwned(max: nat, s: Sys, step: Step)
    requires SlotsOwned(s) && InStart(step) && Enabled(s, step)
    ensures SlotsOwned(StartStep(max, s, step))
  {
    hide Owned, Answer;
    var id := s.loop.issue;
    if step.TryReserve? && Reserve(s.shared, max, id) == Reserved {
      TakingASlot(s, id);
    } else if step.LaunchOk? {
      Launching(s, id);
    } else if step.Unreserve? {
      GivingItBack(s, id);
    }
  }

  /** Inside Start the true count is below the limit until the slot is taken, and at most the limit after. */
  lemma StartKeepsCount(max: nat, s: Sys, step: Step)
    requires s.shared.Count() <= max && LoopConsistent(max, s) && InStart(step) && Enabled(s, step)
    requires HoldsPlaceholder(s.loop) ==> s.loop.issue in s.shared.active
    ensures StartStep(max, s, step).shared.Count() <= max
    ensures step.TryReserve? ==> Reserve(s.shared, max, s.loop.issue) != LimitReached
  {
    var id := s.loop.issue;
    if step.LaunchOk? {
      PutCount(s.shared.active, id, Child(s.next));
    } else {
      PutCount(s.shared.active, id, Placeholder);
      DeletedCount(s.shared.active, id);
    }
    hide Answer;
  }

  lemma StartKeepsLoop(max: nat, s: Sys, step: Step)
    requires LoopConsistent(max, s) && InStart(step) && Enabled(s, step)
    requires step.TryReserve? ==> Reserve(s.shared, max, s.loop.issue) != LimitReached
    ensures LoopConsistent(max, StartStep(max, s, step))
  {
    hide Shared.Count, Shared.Put, Shared.Delete;
  }

  /** Start never leaves the loop waiting, and after it the loop's count is the true one. */
  lemma StartKeepsWakeup(max: nat, s: Sys, step: Step)
    requires InStart(step) && Enabled(s, step)
    requires step.TryReserve? ==> Reserve(s.shared, max, s.loop.issue) != LimitReached
    ensures NoLostWakeup(max, StartStep(max, s, step))
  {
    hide Shared.Count, Shared.Put, Shared.Delete, SomeoneAboutToSignal;
  }

  lemma StartKeepsSafe(max: nat, s: Sys, step: Step)
    requires Safe(max, s) && InStart(step) && Enabled(s, step)
    ensures Safe(max, StartStep(max, s, step))
  {
    assert HoldsPlaceholder(s.loop) ==> s.loop.issue in s.shared.active;
    hide Owned, StartStep, NoLostWakeup, LoopConsistent, Shared.Count;
    StartKeepsOwned(max, s, step);
    StartKeepsCount(max, s, step);
    StartKeepsLoop(max, s, step);
    StartKeepsWakeup(max, s, step);
  }

  predicate OwnsItsSlot(s: Sys, k: nat) {
    k in s.children && LivePc(s.children[k].pc) ==> s.children[k].issue in s.shared.active
  }

  lemma ChildKeepsOwned(s: Sys, step: Step)
    requires SlotsOwned(s) && OfChild(step) && Enabled(s, step)
    ensures SlotsOwned(ChildStep(s, step))
  {
    hide Shared.AtCap;
  }

  /** A child's steps leave the loop alone, and only freeing touches the slots. */
  lemma ChildLeavesLoop(s: Sys, step: Step)
    requires OfChild(step) && Enabled(s, step) && OwnsItsSlot(s, step.child)
    ensures var t := ChildStep(s, step);
            && t.loop == s.loop && t.pending == s.pending
            && t.shared.Count() == s.shared.Count() - (if step.Free? then 1 else 0)
  {
    hide Shared.AtCap;
    CountsAfter(s, s.children[step.child].issue, Placeholder);
  }

  /** Whoever frees a slot is about to signal, and whoever was about to either still is or has done it. */
  lemma ChildKeepsSignal(s: Sys, step: Step)
    requires OfChild(step) && Enabled(s, step)
    ensures var t := ChildStep(s, step);
            step.Free? || s.shared.token || SomeoneAboutToSignal(s) ==> t.shared.token || SomeoneAboutToSignal(t)
  {
    hide Shared.AtCap;
    var t := ChildStep(s, step);
    if step.Free? {
      assert t.children[step.child].pc == Freed;
    } else if !step.Signal? && SomeoneAboutToSignal(s) {
      var j :| j in s.children && s.children[j].pc == Freed;
      assert t.children[j].pc == Freed;
    }
  }

  lemma ChildKeepsSafe(max: nat, s: Sys, step: Step)
    requires Safe(max, s) && OfChild(step) && Enabled(s, step)
    ensures Safe(max, ChildStep(s, step))
  {
    hide Shared.Count, ChildStep, Enabled, SomeoneAboutToSignal;
    ChildKeepsOwned(s, step);
    assert OwnsItsSlot(s, step.child);
    hide Owned;
    ChildLeavesLoop(s, step);
    ChildKeepsSignal(s, step);
  }

  lemma DiscoveryKeepsSafe(max: nat, s: Sys, step: Step)
    requires Safe(max, s) && !OfLoop(step) && !OfChild(step) && Enabled(s, step)
    ensures Safe(max, DiscoveryStep(s, step))
  {
    hide Fresh, Accounted;
    var t := DiscoveryStep(s, step);
    assert t.children == s.children && t.loop == s.loop && t.shared.active == s.shared.active;
  }

  /** Every atomic step of every goroutine keeps the slots safe. */
  lemma StepKeepsSafe(max: nat, s: Sys, step: Step)
    requires Safe(max, s) && Enabled(s, step)
    ensures Safe(max, Apply(max, s, step))
  {
    hide Enabled, Safe, StartStep, LoopControl, ChildStep, DiscoveryStep;
    if InStart(step) {
      StartKeepsSafe(max, s, step);
    } else if OfLoop(step) {
      ControlKeepsSafe(max, s, step);
    } else if OfChild(step) {
      ChildKeepsSafe(max, s, step);
    } else {
      DiscoveryKeepsSafe(max, s, step);
    }
  }

  lemma {:induction false} RunKeepsSafe(max: nat, s: Sys, steps: seq<Step>)
    requires Safe(max, s) && Possible(max, s, steps)
    ensures Safe(max, Run(max, s, steps))
    decreases |steps|
  {
    hide Apply, Enabled, Safe;
    if steps != [] {
      StepKeepsSafe(max, s, steps[0]);
      RunKeepsSafe(max, Apply(max, s, steps[0]), steps[1..]);
    }
  }

  function LiveChildren(s: Sys): set<nat> {
    set k | k in s.children && LivePc(s.children[k].pc)
  }

  lemma {:induction false} InjectiveIntoActive(s: Sys, ks: set<nat>)
    requires SlotsOwned(s) && ks <= LiveChildren(s)
    ensures |ks| <= |set k | k in ks :: s.children[k].issue|
    decreases |ks|
  {
    if ks != {} {
      var k :| k in ks;
      InjectiveIntoActive(s, ks - {k});
      var all, rest := (set j | j in ks :: s.children[j].issue), (set j | j in ks - {k} :: s.children[j].issue);
      assert all == rest + {s.children[k].issue};
      assert s.children[k].issue !in rest;
    }
  }

  /** Children whose goroutine has not freed its slot: at most the limit, and never two for one issue. */
  lemma ChildrenWithinLimit(max: nat, s: Sys)
    requires Safe(max, s)
    ensures |LiveChildren(s)| <= max
    ensures forall j, k :: j in LiveChildren(s) && k in LiveChildren(s) && j != k ==>
        s.children[j].issue != s.children[k].issue
  {
    var ks := LiveChildren(s);
    InjectiveIntoActive(s, ks);
    var issues := set k | k in ks :: s.children[k].issue;
    assert s.shared.active.Keys == issues + (s.shared.active.Keys - issues);
  }

  lemma SafeFromTheStart(max: nat)
    ensures Safe(max, INITIAL)
  {
  }

  /** A loop that waits with work pending and a slot free can be woken, or a goroutine is about to wake it. */
  lemma WaitingCanBeWoken(max: nat, s: Sys)
    requires NoLostWakeup(max, s) && s.loop.Waiting? && s.pending != [] && s.shared.Count() < max
    ensures Enabled(s, Wake) || exists k :: k in s.children && Enabled(s, Signal(k))
  {
    if !s.shared.token {
      var k :| k in s.children && s.children[k].pc == Freed;
      assert Enabled(s, Signal(k));
    }
  }

  /**
    Over all interleavings from start-up: the limit holds, no issue holds two slots, and whenever the loop waits with
    work pending and a slot free, the wakeup is in the channel or a goroutine that freed its slot is about to send it.
   */
  lemma NoWakeupIsLost(max: nat, steps: seq<Step>)
    requires Possible(max, INITIAL, steps)
    ensures var s := Run(max, INITIAL, steps);
            && s.shared.Count() <= max
            && |LiveChildren(s)| <= max
            && (forall j, k :: j in LiveChildren(s) && k in LiveChildren(s) && j != k ==>
                s.children[j].issue != s.children[k].issue)
            && (s.loop.Waiting? && s.pending != [] && s.shared.Count() < max ==>
                  Enabled(s, Wake) || exists k :: k in s.children && Enabled(s, Signal(k)))
  {
    hide Apply, Enabled, Possible, Run, Owned, LoopConsistent, LiveChildren, NoLostWakeup;
    SafeFromTheStart(max);
    RunKeepsSafe(max, INITIAL, steps);
    var s := Run(max, INITIAL, steps);
    ChildrenWithinLimit(max, s);
    if s.loop.Waiting? && s.pending != [] && s.shared.Count() < max {
      WaitingCanBeWoken(max, s);
    }
  }
}
