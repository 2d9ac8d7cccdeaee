/** A tick consumes the events it reacted to (prdozer/changeset.go against prdozer/watcher.go, recordSnapshot). */
module Triggers {
  import opened Common
  import opened PrState
  import opened TickSpec
  import opened TickFacts
  import opened SeenSet
  import DiskWrites

  lemma CommentIdsAreTheComments(snap: Snapshot, id: string)
    ensures id in snap.CommentIds() <==> exists c :: c in snap.comments && c.id == id
  {
    if c :| c in snap.comments && c.id == id {
      var i :| 0 <= i < |snap.comments| && snap.comments[i] == c;
      assert snap.CommentIds()[i] == id;
    }
  }

  /** Old and new ids together exceed the cap, and id is below all 500 that were kept. */
  ghost predicate PushedOut<T>(lt: (T, T) -> bool, existing: seq<T>, incoming: seq<T>, kept: seq<T>, id: T) {
    && |Elements(existing) + Elements(incoming)| > MAX_SEEN_IDS
    && |kept| == MAX_SEEN_IDS
    && forall y :: y in kept ==> lt(id, y)
  }

  /** A merged-in id is absent from the stored list exactly when the cap pushed it out. */
  lemma AbsentIffPushedOut<T(!new)>(lt: (T, T) -> bool, existing: seq<T>, incoming: seq<T>, id: T)
    requires StrictTotal(lt) && StrictlySorted(lt, existing) && |existing| <= MAX_SEEN_IDS && id in incoming
    ensures var out := MergeCapped(lt, existing, incoming).0;
            id !in out <==> PushedOut(lt, existing, incoming, out, id)
  {
    var (out, changed) := MergeCapped(lt, existing, incoming);
    var all := Elements(existing) + Elements(incoming);
    MergeCappedIsTop(lt, existing, incoming);
    if id !in out {
      assert changed && id in all;
      SortedCardinality(lt, out);
      if |all| <= MAX_SEEN_IDS {
        SubsetCardinality(Elements(out), all);
      }
    }
  }

  /**
    Diffing the same snapshot against the record a live tick saved shows no moved head and no moved base; the only
    comments or runs that look new again are those the 500-id cap pushed out.
   */
  lemma OnlyCappedIdsFireAgain(cfg: Config, s: State, input: TickInput)
    requires Inv(s) && input.snap.Some? && !InCooldown(s, input.clock.start)
    ensures var out := Tick(cfg, s, input);
            out.Action() != DryRun ==> OnlyCappedIdsNew(s, input.snap.value, out.disk)
  {
    hide Tick, OnlyCappedIdsNew, Inv;
    ReadySnapshotIsTaken(cfg, s, input);
    if Tick(cfg, s, input).Action() != DryRun {
      RecordedIdsAreOld(cfg, s, input);
    }
  }

  lemma ReadySnapshotIsTaken(cfg: Config, s: State, input: TickInput)
    requires input.snap.Some? && !InCooldown(s, input.clock.start)
    ensures Tick(cfg, s, input).kind == Ran
  {
    hide Account, Decide, RecordSnapshot, Diff, ActionDirty;
  }

  /** Against the record after, the snapshot moves nothing, and an id is new exactly when the cap pushed it out. */
  ghost predicate OnlyCappedIdsNew(s: State, snap: Snapshot, after: State) {
    var again := Diff(after, snap);
    && !again.headMoved && !again.baseMoved
    && (snap.status == Open ==>
          && (forall id :: id in again.newCommentIds <==>
                && (exists c :: c in snap.comments && !c.isSelf && c.id == id)
                && PushedOut(StringLess, s.seenComments, snap.CommentIds(), after.seenComments, id))
          && (forall id :: id in again.newFailedRuns <==>
                id in snap.failedRuns && PushedOut(IntLess, s.seenRuns, snap.failedRuns, after.seenRuns, id)))
    && (again.newCommentIds != [] ==> |Elements(s.seenComments) + Elements(snap.CommentIds())| > MAX_SEEN_IDS)
    && (again.newFailedRuns != [] ==> |Elements(s.seenRuns) + Elements(snap.failedRuns)| > MAX_SEEN_IDS)
  }

  lemma CommentsStayOld(s: State, snap: Snapshot, after: State)
    requires SeenInv(s) && snap.status == Open
    requires after.seenComments == MergeCapped(StringLess, s.seenComments, snap.CommentIds()).0
    ensures var unseen := Diff(after, snap).newCommentIds;
            && (forall id :: id in unseen <==>
                  && (exists c :: c in snap.comments && !c.isSelf && c.id == id)
                  && PushedOut(StringLess, s.seenComments, snap.CommentIds(), after.seenComments, id))
            && (unseen != [] ==> |Elements(s.seenComments) + Elements(snap.CommentIds())| > MAX_SEEN_IDS)
  {
    hide MergeCapped, StrictlySorted;
    OrdersAreTotal();
    var ids := Diff(after, snap).newCommentIds;
    forall id
      ensures id in ids <==>
              && (exists c :: c in snap.comments && !c.isSelf && c.id == id)
              && PushedOut(StringLess, s.seenComments, snap.CommentIds(), after.seenComments, id)
    {
      UnseenCommentsMeaning(snap.comments, after.seenComments, id);
      CommentIdsAreTheComments(snap, id);
      if id in snap.CommentIds() {
        AbsentIffPushedOut(StringLess, s.seenComments, snap.CommentIds(), id);
      }
    }
    if ids != [] {
      var id := ids[0];
      assert id in ids;
    }
  }

  lemma RunsStayOld(s: State, snap: Snapshot, after: State)
    requires SeenInv(s) && snap.status == Open
    requires after.seenRuns == MergeCapped(IntLess, s.seenRuns, snap.failedRuns).0
    ensures var unseen := Diff(after, snap).newFailedRuns;
            && (forall id :: id in unseen <==>
                  id in snap.failedRuns && PushedOut(IntLess, s.seenRuns, snap.failedRuns, after.seenRuns, id))
            && (unseen != [] ==> |Elements(s.seenRuns) + Elements(snap.failedRuns)| > MAX_SEEN_IDS)
  {
    hide MergeCapped, StrictlySorted;
    OrdersAreTotal();
    var ids := Diff(after, snap).newFailedRuns;
    forall id
      ensures id in ids <==>
              id in snap.failedRuns && PushedOut(IntLess, s.seenRuns, snap.failedRuns, after.seenRuns, id)
    {
      UnseenRunsMeaning(snap.failedRuns, after.seenRuns, id);
      if id in snap.failedRuns {
        AbsentIffPushedOut(IntLess, s.seenRuns, snap.failedRuns, id);
      }
    }
    if ids != [] {
      var id := ids[0];
      assert id in ids;
    }
  }

  lemma RecordedIdsAreOld(cfg: Config, s: State, input: TickInput)
    requires Inv(s) && Tick(cfg, s, input).kind == Ran && Tick(cfg, s, input).Action() != DryRun && input.snap.Some?
    ensures OnlyCappedIdsNew(s, input.snap.value, Tick(cfg, s, input).disk)
  {
    hide Tick, Account, Decide, MergeCapped, StrictlySorted, UnseenComments, UnseenRuns, PushedOut;
    var snap, after := input.snap.value, Tick(cfg, s, input).disk;
    TickSeen(cfg, s, input);
    DiskWrites.DiskIsMemory(cfg, s, input);
    if snap.status == Open {
      CommentsStayOld(s, snap, after);
      RunsStayOld(s, snap, after);
    }
  }

  /** Within the cap, a tick leaves only standing conditions: the same snapshot triggers no event again. */
  lemma TickConsumesItsTriggers(cfg: Config, s: State, input: TickInput)
    requires Inv(s) && input.snap.Some? && !InCooldown(s, input.clock.start)
    requires |Elements(s.seenComments) + Elements(input.snap.value.CommentIds())| <= MAX_SEEN_IDS
    requires |Elements(s.seenRuns) + Elements(input.snap.value.failedRuns)| <= MAX_SEEN_IDS
    ensures var snap, out := input.snap.value, Tick(cfg, s, input);
            var again := Diff(out.disk, snap);
            out.Action() != DryRun ==>
              && !again.headMoved && !again.baseMoved && !again.newComments
              && again.newCommentIds == [] && again.newFailedRuns == []
              && (again.ciFailed ==> snap.rollup == RollupFailure)
              && (again.NeedsPolish() ==>
                    snap.review == ChangesWanted || snap.rollup == RollupFailure || snap.mergeable == HasConflicts)
  {
    hide Tick, Diff, Inv;
    OnlyCappedIdsFireAgain(cfg, s, input);
    if Tick(cfg, s, input).Action() != DryRun {
      NoEventNoTrigger(Tick(cfg, s, input).disk, input.snap.value);
    }
  }

  /** Without new ids or a moved base, only standing conditions of the PR can ask for polish. */
  lemma NoEventNoTrigger(prev: State, snap: Snapshot)
    requires var cs := Diff(prev, snap); !cs.baseMoved && cs.newCommentIds == [] && cs.newFailedRuns == []
    ensures var cs := Diff(prev, snap);
            && !cs.newComments
            && (cs.ciFailed ==> snap.rollup == RollupFailure)
            && (cs.NeedsPolish() ==>
                  snap.review == ChangesWanted || snap.rollup == RollupFailure || snap.mergeable == HasConflicts)
  {
  }
}
