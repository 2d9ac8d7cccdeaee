/** The per-PR record, the snapshot it is compared with, and the diff (prdozer/state.go, snapshot.go, changeset.go). */
module PrState {
  import opened Common
  import opened PrHealth
  import opened SeenSet
  import opened Positions
  import PolishRounds

  datatype LastAction =
    | Init | Idle | Polished | Merged | Closed | Failed | DryRun
    | Transient | Stalled | Armed | NeedsHuman | Reworked

  /** Why the current cooldown was armed; NoCause is the empty string of the source. */
  datatype Cause =
    | NoCause
    | StalledRound(stage: string, err: string)
    | StalledUnknown
    | ReworkingAfter(err: string)
    | RepeatedRework
    | FailureText(err: string)
    | AttemptsWithoutLanding(attempts: nat, err: string)

  /** Times are nanoseconds; None is Go's zero time. */
  datatype State = State(
    onceRoundsDone: set<PolishRounds.RoundKey>,
    lastCheckAt: Option<int>,
    cooldownUntil: Option<int>,
    lastCooldownCause: Cause,
    lastSeenHead: string,
    selfReviewed: string,
    lastSeenBase: string,
    lastAction: LastAction,
    lastMergeError: string,
    bestHealth: Option<PRHealth>,
    seenComments: seq<string>,
    seenRuns: seq<int>,
    consecutiveFailures: nat,
    mergeAttempts: nat,
    cooldownFromAttempt: nat,
    polishRounds: nat,
    roundsSinceImprovement: nat,
    polishCommits: nat,
    lastSeenCommitCount: nat,
    baselineAdditions: nat,
    invocationsSinceRound: nat)

  /** What LoadState returns when no file exists. */
  const ZERO: State := State({}, None, None, NoCause, "", "", "", Init, "", None, [], [], 0, 0, 0, 0, 0, 0, 0, 0, 0)

  datatype PRStatus = Open | ClosedPR | MergedPR
  datatype Rollup = RollupUnknown | RollupPending | RollupSuccess | RollupFailure
  /** NoDecision is GitHub's empty reviewDecision; OtherDecision anything unrecognised. */
  datatype ReviewDecision = NoDecision | Approved | ReviewRequired | ChangesWanted | OtherDecision
  datatype Mergeability = CanMerge | HasConflicts | MergeUnknown

  datatype CommentRef = CommentRef(id: string, isSelf: bool)

  function Ids(comments: seq<CommentRef>): seq<string> {
    seq(|comments|, i requires 0 <= i < |comments| => comments[i].id)
  }

  const COMMIT_LIST_CAP: nat := 100

  /** unresolved is -1 when the thread count could not be read; totalCommits is 0 when its query failed. */
  datatype Snapshot = Snapshot(
    takenAt: int,
    status: PRStatus,
    head: string,
    base: string,
    rollup: Rollup,
    review: ReviewDecision,
    mergeable: Mergeability,
    comments: seq<CommentRef>,
    failedRuns: seq<int>,
    unresolved: int,
    totalCommits: int,
    commitListLen: nat,
    additions: nat)
  {
    function Health(): Option<PRHealth> {
      if unresolved < 0 then None else Some(PRHealth(unresolved, rollup == RollupFailure))
    }

    function CommitCount(): nat {
      if totalCommits > 0 then totalCommits
      else if commitListLen >= COMMIT_LIST_CAP then 0
      else commitListLen
    }

    function CommentIds(): seq<string> {
      Ids(comments)
    }
  }

  // ----- the diff -----

  datatype Changeset = Changeset(
    newCommentIds: seq<string>,
    newFailedRuns: seq<int>,
    baseMoved: bool,
    headMoved: bool,
    ciFailed: bool,
    newComments: bool,
    mergeable: bool,
    prClosed: bool,
    needsReview: bool,
    conflicting: bool,
    changesRequested: bool)
  {
    predicate NeedsPolish() {
      if prClosed then false
      else if newComments || changesRequested then true
      else if mergeable then false
      else baseMoved || ciFailed || conflicting
    }
  }

  const EMPTY_CHANGESET: Changeset := Changeset([], [], false, false, false, false, false, false, false, false, false)

  predicate ReviewSatisfied(decision: ReviewDecision) {
    decision == Approved || decision == NoDecision
  }

  function UnseenComments(comments: seq<CommentRef>, seen: seq<string>): seq<string> {
    if comments == [] then []
    else (if comments[0].isSelf
        || comments[0].id in seen then [] else [comments[0].id]) + UnseenComments(comments[1..], seen)
  }

  function UnseenRuns(runs: seq<int>, seen: seq<int>): seq<int> {
    if runs == [] then []
    else (if runs[0] in seen then [] else [runs[0]]) + UnseenRuns(runs[1..], seen)
  }

  function Diff(prev: State, snap: Snapshot): Changeset {
    if snap.status != Open then EMPTY_CHANGESET.(prClosed := true)
    else
      var firstRun := prev.lastCheckAt == None;
      var unseenComments := UnseenComments(snap.comments, prev.seenComments);
      var unseenRuns := UnseenRuns(snap.failedRuns, prev.seenRuns);
      var baseMoved := !firstRun && snap.base != "" && prev.lastSeenBase != snap.base;
      var newComments := !firstRun && unseenComments != [];
      var ciFailed := snap.rollup == RollupFailure || (!firstRun && unseenRuns != []);
      var green := snap.rollup == RollupSuccess && snap.mergeable == CanMerge && !baseMoved && !ciFailed;
      Changeset(
        newCommentIds := unseenComments,
        newFailedRuns := unseenRuns,
        baseMoved := baseMoved,
        headMoved := !firstRun && prev.lastSeenHead != "" && prev.lastSeenHead != snap.head,
        ciFailed := ciFailed,
        newComments := newComments,
        mergeable := green && ReviewSatisfied(snap.review),
        prClosed := false,
        needsReview := !firstRun && green && snap.review == ReviewRequired && !newComments,
        conflicting := snap.mergeable == HasConflicts,
        changesRequested := snap.review == ChangesWanted)
  }

  lemma UnseenCommentsFrom(comments: seq<CommentRef>, seen: seq<string>, i: nat)
    requires i < |comments|
    ensures var c := comments[i];
            UnseenComments(comments[i..], seen) ==
            (if c.isSelf || c.id in seen then [] else [c.id]) + UnseenComments(comments[i + 1..], seen)
  {
    assert comments[i..][0] == comments[i] && comments[i..][1..] == comments[i + 1..];
  }

  lemma UnseenRunsFrom(runs: seq<int>, seen: seq<int>, i: nat)
    requires i < |runs|
    ensures UnseenRuns(runs[i..], seen) == (if runs[i] in seen then [] else [runs[i]]) + UnseenRuns(runs[i + 1..], seen)
  {
    assert runs[i..][0] == runs[i] && runs[i..][1..] == runs[i + 1..];
  }

  lemma NothingUnseenOfNothing(comments: seq<string>, runs: seq<int>)
    ensures UnseenComments([], comments) == [] && UnseenRuns([], runs) == []
  {
  }

  method CollectComments(comments: seq<CommentRef>, seen: seq<string>) returns (ids: seq<string>)
    ensures ids == UnseenComments(comments, seen)
  {
    hide UnseenComments;
    ids := [];
    assert comments[0..] == comments;
    for i := 0 to |comments|
      invariant ids + UnseenComments(comments[i..], seen) == UnseenComments(comments, seen)
    {
      UnseenCommentsFrom(comments, seen, i);
      var c := comments[i];
      if c.isSelf {
        continue;
      }
      if c.id !in seen {
        ids := ids + [c.id];
      }
    }
    assert comments[|comments|..] == [];
    NothingUnseenOfNothing(seen, []);
  }

  method CollectRuns(runs: seq<int>, seen: seq<int>) returns (ids: seq<int>)
    ensures ids == UnseenRuns(runs, seen)
  {
    hide UnseenRuns;
    ids := [];
    assert runs[0..] == runs;
    for i := 0 to |runs|
      invariant ids + UnseenRuns(runs[i..], seen) == UnseenRuns(runs, seen)
    {
      UnseenRunsFrom(runs, seen, i);
      if runs[i] !in seen {
        ids := ids + [runs[i]];
      }
    }
    assert runs[|runs|..] == [];
    NothingUnseenOfNothing([], seen);
  }

  /** The standing conditions of an open PR, set on what moved since last time. */
  method JudgeSnapshot(moved: Changeset, snap: Snapshot, firstRun: bool) returns (cs: Changeset)
    requires !moved.conflicting && !moved.mergeable && !moved.changesRequested && !moved.needsReview
    ensures var green := snap.rollup == RollupSuccess && snap.mergeable == CanMerge && !moved.baseMoved
        && !moved.ciFailed;
            cs == moved.(
              conflicting := snap.mergeable == HasConflicts,
              mergeable := green && ReviewSatisfied(snap.review),
              changesRequested := snap.review == ChangesWanted,
              needsReview := !firstRun && green && snap.review == ReviewRequired && !moved.newComments)
  {
    hide ReviewSatisfied;
    cs := moved;
    if snap.mergeable == HasConflicts {
      cs := cs.(conflicting := true);
    }
    if ReviewSatisfied(snap.review) && snap.rollup == RollupSuccess && snap.mergeable == CanMerge
       && !cs.baseMoved && !cs.ciFailed {
      cs := cs.(mergeable := true);
    }
    if snap.review == ChangesWanted {
      cs := cs.(changesRequested := true);
    }
    if !firstRun && snap.review == ReviewRequired && snap.rollup == RollupSuccess && snap.mergeable == CanMerge
       && !cs.baseMoved && !cs.ciFailed && !cs.newComments {
      cs := cs.(needsReview := true);
    }
  }

  /** The source's diff: it fills the sets and sets the fields one by one. */
  method ComputeChangeset(prev: State, snap: Snapshot) returns (cs: Changeset)
    ensures cs == Diff(prev, snap)
  {
    hide UnseenComments, UnseenRuns, ReviewSatisfied;
    cs := EMPTY_CHANGESET;
    if snap.status == ClosedPR || snap.status == MergedPR {
      cs := cs.(prClosed := true);
      return;
    }
    var firstRun := prev.lastCheckAt == None;
    if !firstRun && prev.lastSeenHead != "" && prev.lastSeenHead != snap.head {
      cs := cs.(headMoved := true);
    }
    if !firstRun && snap.base != "" && prev.lastSeenBase != snap.base {
      cs := cs.(baseMoved := true);
    }
    var ids := CollectComments(snap.comments, prev.seenComments);
    var runs := CollectRuns(snap.failedRuns, prev.seenRuns);
    cs := cs.(newCommentIds := ids, newFailedRuns := runs);
    if !firstRun && |cs.newCommentIds| > 0 {
      cs := cs.(newComments := true);
    }
    if snap.rollup == RollupFailure || (!firstRun && |cs.newFailedRuns| > 0) {
      cs := cs.(ciFailed := true);
    }
    cs := JudgeSnapshot(cs, snap, firstRun);
  }

  // ----- what the diff means -----

  lemma {:induction false} UnseenCommentsMeaning(comments: seq<CommentRef>, seen: seq<string>, id: string)
    ensures id in UnseenComments(comments, seen) <==>
        id !in seen && exists c :: c in comments && !c.isSelf && c.id == id
  {
    if comments != [] {
      UnseenCommentsMeaning(comments[1..], seen, id);
      assert comments == [comments[0]] + comments[1..];
    }
  }

  lemma {:induction false} UnseenRunsMeaning(runs: seq<int>, seen: seq<int>, id: int)
    ensures id in UnseenRuns(runs, seen) <==> id !in seen && id in runs
  {
    if runs != [] {
      UnseenRunsMeaning(runs[1..], seen, id);
      assert runs == [runs[0]] + runs[1..];
    }
  }

  /** By position: the ids of every such comment, in order. */
  lemma {:induction false} UnseenByPosition(comments: seq<CommentRef>, seen: seq<string>) returns (at: seq<nat>)
    ensures Ascending(at, |comments|) && Lists(UnseenComments(comments, seen), Ids(comments), at)
    ensures forall i: nat :: i in at <==> i < |comments| && !comments[i].isSelf && comments[i].id !in seen
  {
    at := [];
    if comments != [] {
      var keep := !comments[0].isSelf && comments[0].id !in seen;
      var rest := UnseenByPosition(comments[1..], seen);
      BehindMeaning(keep, rest, |comments| - 1);
      assert Ids(comments)[1..] == Ids(comments[1..]);
      ListsBehind(UnseenComments(comments[1..], seen), Ids(comments), rest, keep);
      at := Behind(keep, rest);
      hide Ascending, Lists, Behind;
      forall i: nat ensures i in at <==> i < |comments| && !comments[i].isSelf && comments[i].id !in seen {
        assert 0 < i < |comments| ==> comments[i] == comments[1..][i - 1];
      }
    }
  }

  lemma {:induction false} UnseenRunsByPosition(runs: seq<int>, seen: seq<int>) returns (at: seq<nat>)
    ensures Ascending(at, |runs|) && Lists(UnseenRuns(runs, seen), runs, at)
    ensures forall i: nat :: i in at <==> i < |runs| && runs[i] !in seen
  {
    at := [];
    if runs != [] {
      var keep := runs[0] !in seen;
      var rest := UnseenRunsByPosition(runs[1..], seen);
      BehindMeaning(keep, rest, |runs| - 1);
      ListsBehind(UnseenRuns(runs[1..], seen), runs, rest, keep);
      at := Behind(keep, rest);
      hide Ascending, Lists, Behind;
      forall i: nat ensures i in at <==> i < |runs| && runs[i] !in seen {
        assert 0 < i < |runs| ==> runs[i] == runs[1..][i - 1];
      }
    }
  }
}
