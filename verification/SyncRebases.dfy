/** The rebase loop of a full Sync, and how far a failed rebase is contained (wt/worktree.go). */
module SyncRebases {
  import opened Common
  import opened DependencyOrder
  import opened Positions

  /** One rebase that was started, and whether it succeeded. */
  datatype Attempt = Attempt(branch: Branch, ok: bool)

  /** What git rebase would come to for each branch. */
  type Outcome = Branch -> bool

  datatype Visit = Detached | Skipped | Tried(ok: bool)

  function Visited(w: Worktree, parentOf: ParentOf, outcome: Outcome, failed: set<Branch>): Visit {
    if w.detached then Detached
    else if parentOf(w.branch) != "" && parentOf(w.branch) in failed then Skipped
    else Tried(outcome(w.branch))
  }

  function FailedAfter(w: Worktree, visit: Visit, failed: set<Branch>): set<Branch> {
    if visit == Skipped || visit == Tried(false) then failed + {w.branch} else failed
  }

  /** The failed branches after the first worktrees of the order. */
  function FailedBy(ws: seq<Worktree>, parentOf: ParentOf, outcome: Outcome): set<Branch> {
    if ws == [] then {}
    else
      var failed := FailedBy(ws[..|ws| - 1], parentOf, outcome);
      var w := ws[|ws| - 1];
      FailedAfter(w, Visited(w, parentOf, outcome, failed), failed)
  }

  /** What the loop does with the i-th worktree. */
  function VisitAt(ws: seq<Worktree>, parentOf: ParentOf, outcome: Outcome, i: nat): Visit
    requires i < |ws|
  {
    Visited(ws[i], parentOf, outcome, FailedBy(ws[..i], parentOf, outcome))
  }

  function Attempts(ws: seq<Worktree>, parentOf: ParentOf, outcome: Outcome): seq<Attempt> {
    if ws == [] then []
    else
      var i := |ws| - 1;
      var before := Attempts(ws[..i], parentOf, outcome);
      var visit := VisitAt(ws, parentOf, outcome, i);
      if visit.Tried? then before + [Attempt(ws[i].branch, visit.ok)] else before
  }

  method RebaseAll(ws: seq<Worktree>, parentOf: ParentOf, outcome: Outcome) returns (attempts: seq<Attempt>)
    ensures attempts == Attempts(ws, parentOf, outcome)
  {
    var failedBranches: set<Branch> := {};
    attempts := [];
    for i := 0 to |ws|
      invariant failedBranches == FailedBy(ws[..i], parentOf, outcome)
      invariant attempts == Attempts(ws[..i], parentOf, outcome)
    {
      var w := ws[i];
      assert ws[..i + 1][..i] == ws[..i];
      if w.detached {
        continue;
      }
      var parent := parentOf(w.branch);
      if parent != "" && parent in failedBranches {
        failedBranches := failedBranches + {w.branch};
        continue;
      }
      var ok := outcome(w.branch);
      attempts := attempts + [Attempt(w.branch, ok)];
      if !ok {
        failedBranches := failedBranches + {w.branch};
      }
    }
    assert ws[..|ws|] == ws;
  }

  // ----- what the loop does with each worktree -----

  /** A branch has failed when some visit of it was a skip or a failed rebase. */
  lemma {:induction false} FailedByMeaning(ws: seq<Worktree>, parentOf: ParentOf, outcome: Outcome, b: Branch)
    ensures b in FailedBy(ws, parentOf, outcome) <==>
              exists j :: 0 <= j < |ws| && ws[j].branch == b && FailsAt(ws, parentOf, outcome, j)
  {
    if ws != [] {
      var n := |ws| - 1;
      FailedByMeaning(ws[..n], parentOf, outcome, b);
      forall j | 0 <= j < n
        ensures FailsAt(ws[..n], parentOf, outcome, j) == FailsAt(ws, parentOf, outcome, j) && ws[..n][j] == ws[j]
      {
        SameVisit(ws, parentOf, outcome, n, j);
      }
      hide Visited;
      assert FailsAt(ws, parentOf, outcome, n) <==>
          VisitAt(ws, parentOf, outcome, n) == Skipped || VisitAt(ws, parentOf, outcome, n) == Tried(false);
    }
  }

  predicate FailsAt(ws: seq<Worktree>, parentOf: ParentOf, outcome: Outcome, j: nat)
    requires j < |ws|
  {
    VisitAt(ws, parentOf, outcome, j) == Skipped || VisitAt(ws, parentOf, outcome, j) == Tried(false)
  }

  /**
    A worktree is left alone if its head is detached, skipped if its parent was skipped or failed before, and otherwise
    rebased.
   */
  lemma VisitMeaning(ws: seq<Worktree>, parentOf: ParentOf, outcome: Outcome, i: nat)
    requires i < |ws|
    ensures var parent := parentOf(ws[i].branch);
            VisitAt(ws, parentOf, outcome, i) ==
              if ws[i].detached then Detached
              else if && parent != ""
                      && exists j :: 0 <= j < i && ws[j].branch == parent && FailsAt(ws, parentOf, outcome, j)
              then Skipped
              else Tried(outcome(ws[i].branch))
  {
    FailedByMeaning(ws[..i], parentOf, outcome, parentOf(ws[i].branch));
    forall j | 0 <= j < i
      ensures FailsAt(ws[..i], parentOf, outcome, j) == FailsAt(ws, parentOf, outcome, j) && ws[..i][j] == ws[j]
    {
      SameVisit(ws, parentOf, outcome, i, j);
    }
    hide FailsAt, FailedBy;
  }

  /** The log by position: one attempt for each worktree that was rebased, in order. */
  lemma {:induction false} AttemptsByPosition(ws: seq<Worktree>, parentOf: ParentOf, outcome: Outcome)
    returns (at: seq<nat>)
    ensures Ascending(at, |ws|)
    ensures forall i: nat :: i in at <==> i < |ws| && VisitAt(ws, parentOf, outcome, i).Tried?
    ensures Logs(Attempts(ws, parentOf, outcome), ws, outcome, at)
  {
    at := [];
    if ws != [] {
      var n := |ws| - 1;
      var front := AttemptsByPosition(ws[..n], parentOf, outcome);
      var keep := VisitAt(ws, parentOf, outcome, n).Tried?;
      BeforeMeaning(front, keep, n);
      at := Before(front, keep, n);
      LogsOneMore(Attempts(ws[..n], parentOf, outcome), ws[..n], outcome, ws[n], front);
      assert ws == ws[..n] + [ws[n]];
      hide Ascending, Logs;
      forall i: nat ensures i in at <==> i < |ws| && VisitAt(ws, parentOf, outcome, i).Tried? {
        if i < n {
          SameVisit(ws, parentOf, outcome, n, i);
        }
      }
    }
  }

  ghost predicate Logs(log: seq<Attempt>, ws: seq<Worktree>, outcome: Outcome, at: seq<nat>) {
    |log| == |at| && forall j :: 0 <= j < |at| ==>
      at[j] < |ws| && log[j] == Attempt(ws[at[j]].branch, outcome(ws[at[j]].branch))
  }

  lemma LogsOneMore(log: seq<Attempt>, front: seq<Worktree>, outcome: Outcome, w: Worktree, at: seq<nat>)
    requires Logs(log, front, outcome, at)
    ensures Logs(log, front + [w], outcome, at)
    ensures Logs(log + [Attempt(w.branch, outcome(w.branch))], front + [w], outcome, at + [|front|])
  {
  }

  // ----- what the log says -----

  /** The log of the first worktrees is part of the log. */
  lemma SameVisit(ws: seq<Worktree>, parentOf: ParentOf, outcome: Outcome, n: nat, i: nat)
    requires i < n <= |ws|
    ensures VisitAt(ws[..n], parentOf, outcome, i) == VisitAt(ws, parentOf, outcome, i)
  {
    assert ws[..n][..i] == ws[..i];
  }

  lemma {:induction false} TriedIsLogged(ws: seq<Worktree>, parentOf: ParentOf, outcome: Outcome, i: nat, ok: bool)
    requires i < |ws| && VisitAt(ws, parentOf, outcome, i) == Tried(ok)
    ensures Attempt(ws[i].branch, ok) in Attempts(ws, parentOf, outcome)
    decreases |ws|
  {
    hide VisitAt;
    var n := |ws| - 1;
    if i < n {
      SameVisit(ws, parentOf, outcome, n, i);
      TriedIsLogged(ws[..n], parentOf, outcome, i, ok);
    }
  }

  lemma {:induction false} LoggedWasTried(ws: seq<Worktree>, parentOf: ParentOf, outcome: Outcome, a: Attempt)
    returns (i: nat)
    requires a in Attempts(ws, parentOf, outcome)
    ensures i < |ws| && ws[i].branch == a.branch && VisitAt(ws, parentOf, outcome, i) == Tried(a.ok)
    decreases |ws|
  {
    hide VisitAt;
    var n := |ws| - 1;
    if a in Attempts(ws[..n], parentOf, outcome) {
      i := LoggedWasTried(ws[..n], parentOf, outcome, a);
      SameVisit(ws, parentOf, outcome, n, i);
    } else {
      i := n;
    }
  }

  lemma AttemptsMeaning(ws: seq<Worktree>, parentOf: ParentOf, outcome: Outcome, a: Attempt)
    ensures a in Attempts(ws, parentOf, outcome) <==>
              exists i :: 0 <= i < |ws| && ws[i].branch == a.branch && VisitAt(ws, parentOf, outcome, i) == Tried(a.ok)
  {
    hide VisitAt, Attempts;
    if a in Attempts(ws, parentOf, outcome) {
      var i := LoggedWasTried(ws, parentOf, outcome, a);
      assert ws[i].branch == a.branch;
    }
    if i :| 0 <= i < |ws| && ws[i].branch == a.branch && VisitAt(ws, parentOf, outcome, i) == Tried(a.ok) {
      TriedIsLogged(ws, parentOf, outcome, i, a.ok);
    }
  }

  /** A visited branch has failed exactly when its visit was a skip or a failed rebase. */
  lemma {:induction false} FailedMeaning(ws: seq<Worktree>, parentOf: ParentOf, outcome: Outcome, i: nat, k: nat)
    requires Distinct(ws) && i < k <= |ws|
    ensures ws[i].branch in FailedBy(ws[..k], parentOf, outcome) <==>
              (VisitAt(ws, parentOf, outcome, i) == Skipped || VisitAt(ws, parentOf, outcome, i) == Tried(false))
    decreases k
  {
    assert ws[..k][..k - 1] == ws[..k - 1];
    if i < k - 1 {
      FailedMeaning(ws, parentOf, outcome, i, k - 1);
    } else {
      NotYetFailed(ws, parentOf, outcome, i, i);
    }
  }

  lemma {:induction false} NotYetFailed(ws: seq<Worktree>, parentOf: ParentOf, outcome: Outcome, i: nat, k: nat)
    requires Distinct(ws) && k <= i < |ws|
    ensures ws[i].branch !in FailedBy(ws[..k], parentOf, outcome)
    decreases k
  {
    if k > 0 {
      assert ws[..k][..k - 1] == ws[..k - 1];
      NotYetFailed(ws, parentOf, outcome, i, k - 1);
    }
  }

  // ----- containment -----

  /** a is reached from b by following one or more parent links. */
  predicate Ancestor(links: map<Branch, Branch>, a: Branch, b: Branch, n: nat)
    decreases n
  {
    b in links && n > 0 && (links[b] == a || Ancestor(links, a, links[b], n - 1))
  }

  lemma PositionOf(ws: seq<Worktree>, b: Branch) returns (i: nat)
    requires b in Branches(ws)
    ensures i < |ws| && ws[i].branch == b
  {
    var w :| w in ws && w.branch == b;
    i :| 0 <= i < |ws| && ws[i] == w;
  }

  /** A rooted worktree whose ancestor's rebase failed is not rebased: every link in between is skipped. */
  lemma {:induction false} FailureReaches(all: seq<Worktree>, ws: seq<Worktree>, parentOf: ParentOf, outcome: Outcome,
                                          a: Branch, i: nat, n: nat)
    requires Distinct(ws) && ParentsFirst(ws, Links(all, parentOf)) && multiset(ws) == multiset(all)
    requires i < |ws| && EndsWithin(Links(all, parentOf), ws[i].branch, n)
    requires exists m: nat :: Ancestor(Links(all, parentOf), a, ws[i].branch, m)
    requires exists j :: 0 <= j < |ws| && ws[j].branch == a && VisitAt(ws, parentOf, outcome, j) == Tried(false)
    ensures VisitAt(ws, parentOf, outcome, i) == Skipped
    decreases n
  {
    var links := Links(all, parentOf);
    var m: nat :| Ancestor(links, a, ws[i].branch, m);
    var j :| 0 <= j < |ws| && ws[j].branch == a && VisitAt(ws, parentOf, outcome, j) == Tried(false);
    var parent := links[ws[i].branch];
    assert Rooted(links, ws[i].branch);
    LinkOf(all, ws, parentOf, i);
    hide Links, Attempts, FailedBy, Rooted;
    var p := PositionOf(ws[..i], parent);
    assert ws[p].branch == parent;
    if parent == a {
      assert p == j;
    } else {
      assert Ancestor(links, a, parent, m - 1);
      FailureReaches(all, ws, parentOf, outcome, a, p, n - 1);
    }
    FailedMeaning(ws, parentOf, outcome, p, i);
  }

  /** The link of a worktree is its parent, and the worktree is not detached. */
  lemma LinkOf(all: seq<Worktree>, ws: seq<Worktree>, parentOf: ParentOf, i: nat)
    requires Distinct(ws) && multiset(ws) == multiset(all) && i < |ws| && ws[i].branch in Links(all, parentOf)
    ensures !ws[i].detached && parentOf(ws[i].branch) == Links(all, parentOf)[ws[i].branch] != ""
  {
    var w :| w in all && !w.detached && w.branch == ws[i].branch && parentOf(w.branch) != "";
    assert w in multiset(all);
    assert w in ws;
  }

  /**
    A full Sync over the order buildDependencyOrder gives never rebases a worktree that is not on or below a cycle of
    parents when the rebase of one of its ancestors failed.
   */
  lemma FailuresAreContained(ws: seq<Worktree>, ordered: seq<Worktree>, parentOf: ParentOf, outcome: Outcome,
      a: Branch, b: Branch)
    requires Distinct(ordered) && ParentsFirst(ordered, Links(ws, parentOf)) && multiset(ordered) == multiset(ws)
    requires Rooted(Links(ws, parentOf), b) && exists m: nat :: Ancestor(Links(ws, parentOf), a, b, m)
    requires Attempt(a, false) in Attempts(ordered, parentOf, outcome)
    ensures Attempt(b, true) !in Attempts(ordered, parentOf, outcome)
        && Attempt(b, false) !in Attempts(ordered, parentOf, outcome)
  {
    var n: nat :| EndsWithin(Links(ws, parentOf), b, n);
    AttemptsMeaning(ordered, parentOf, outcome, Attempt(a, false));
    forall ok | Attempt(b, ok) in Attempts(ordered, parentOf, outcome) ensures false {
      AttemptsMeaning(ordered, parentOf, outcome, Attempt(b, ok));
      var i :| 0 <= i < |ordered| && ordered[i].branch == b && VisitAt(ordered, parentOf, outcome, i) == Tried(ok);
      FailureReaches(ws, ordered, parentOf, outcome, a, i, n);
    }
  }

  // ----- exactly when a failure is contained -----

  ghost predicate IsAncestor(links: map<Branch, Branch>, a: Branch, b: Branch) {
    exists n: nat :: Ancestor(links, a, b, n)
  }

  /** Following parent links from the i-th worktree leads to a, each parent visited before its child. */
  predicate Descends(ws: seq<Worktree>, links: map<Branch, Branch>, i: nat, a: Branch)
    requires i < |ws|
    decreases i
  {
    && ws[i].branch in links
    && exists p :: 0 <= p < i && ws[p].branch == links[ws[i].branch] && (ws[p].branch == a || Descends(ws, links, p, a))
  }

  /** Every ancestor visited before the i-th worktree is reached by parents visited ever earlier. */
  ghost predicate InOrder(ws: seq<Worktree>, links: map<Branch, Branch>, i: nat)
    requires i < |ws|
  {
    forall j :: 0 <= j < i && !ws[j].detached && IsAncestor(links, ws[j].branch, ws[i].branch) ==>
      Descends(ws, links, i, ws[j].branch)
  }

  /** The i-th worktree is not rebased once an ancestor's rebase has failed. */
  ghost predicate Contained(ws: seq<Worktree>, parentOf: ParentOf, outcome: Outcome, i: nat)
    requires i < |ws|
  {
    forall j :: 0 <= j < i && IsAncestor(Links(ws, parentOf), ws[j].branch, ws[i].branch)
                && VisitAt(ws, parentOf, outcome, j) == Tried(false) ==>
      !VisitAt(ws, parentOf, outcome, i).Tried?
  }

  lemma {:induction false} DescendingFails(ws: seq<Worktree>, parentOf: ParentOf, outcome: Outcome, i: nat, j: nat)
    requires Distinct(ws) && i < |ws| && j < |ws| && Descends(ws, Links(ws, parentOf), i, ws[j].branch)
    requires VisitAt(ws, parentOf, outcome, j) == Tried(false)
    ensures VisitAt(ws, parentOf, outcome, i) == Skipped
    decreases i
  {
    var links, a := Links(ws, parentOf), ws[j].branch;
    var p :| 0 <= p < i && ws[p].branch == links[ws[i].branch] && (ws[p].branch == a || Descends(ws, links, p, a));
    LinkOf(ws, ws, parentOf, i);
    if ws[p].branch == a {
      assert p == j;
    } else {
      DescendingFails(ws, parentOf, outcome, p, j);
    }
    FailedMeaning(ws, parentOf, outcome, p, i);
  }

  function OnlyFails(a: Branch): Outcome {
    b => b != a
  }

  /** When only a fails, what is skipped descends to a. */
  lemma {:induction false} SkippedDescends(ws: seq<Worktree>, parentOf: ParentOf, i: nat, a: Branch)
    requires Distinct(ws) && i < |ws|
    ensures VisitAt(ws, parentOf, OnlyFails(a), i) == Skipped ==> Descends(ws, Links(ws, parentOf), i, a)
    decreases i
  {
    var outcome, links := OnlyFails(a), Links(ws, parentOf);
    if VisitAt(ws, parentOf, outcome, i) == Skipped {
      var parent := parentOf(ws[i].branch);
      var p := FailedAt(ws, parentOf, outcome, i, parent);
      SkippedDescends(ws, parentOf, p, a);
      LinkedTo(ws, parentOf, i, p);
      assert ws[p].branch == links[ws[i].branch];
    }
  }

  /** A failed branch was visited. */
  lemma {:induction false} FailedAt(ws: seq<Worktree>, parentOf: ParentOf, outcome: Outcome, k: nat, b: Branch)
    returns (p: nat)
    requires Distinct(ws) && k <= |ws| && b in FailedBy(ws[..k], parentOf, outcome)
    ensures p < k && ws[p].branch == b
    ensures VisitAt(ws, parentOf, outcome, p) == Skipped || VisitAt(ws, parentOf, outcome, p) == Tried(false)
    decreases k
  {
    assert k > 0 && ws[..k][..k - 1] == ws[..k - 1];
    if b in FailedBy(ws[..k - 1], parentOf, outcome) {
      p := FailedAt(ws, parentOf, outcome, k - 1, b);
    } else {
      p := k - 1;
    }
  }

  lemma LinkedTo(ws: seq<Worktree>, parentOf: ParentOf, i: nat, p: nat)
    requires i < |ws| && p < |ws| && !ws[i].detached && parentOf(ws[i].branch) == ws[p].branch != ""
    ensures ws[i].branch in Links(ws, parentOf) && Links(ws, parentOf)[ws[i].branch] == ws[p].branch
  {
    assert ws[i] in ws && ws[p] in ws;
  }

  /** When only a fails and a is visited first, a is tried. */
  lemma {:induction false} NothingFailsBefore(ws: seq<Worktree>, parentOf: ParentOf, k: nat, j: nat)
    requires Distinct(ws) && k <= j < |ws|
    ensures FailedBy(ws[..k], parentOf, OnlyFails(ws[j].branch)) == {}
    decreases k
  {
    if k > 0 {
      assert ws[..k][..k - 1] == ws[..k - 1];
      NothingFailsBefore(ws, parentOf, k - 1, j);
    }
  }

  /**
    Whatever the rebases come to, the i-th worktree is not rebased after the failure of one of its ancestors, if and
    only if every ancestor visited before it is reached by parents visited ever earlier: cycle or not.
   */
  lemma ContainedIffInOrder(ws: seq<Worktree>, parentOf: ParentOf, i: nat)
    requires Distinct(ws) && i < |ws|
    ensures (forall outcome: Outcome :: Contained(ws, parentOf, outcome, i)) <==> InOrder(ws, Links(ws, parentOf), i)
  {
    var links := Links(ws, parentOf);
    hide Links, FailedBy, Attempts;
    if InOrder(ws, links, i) {
      forall outcome: Outcome ensures Contained(ws, parentOf, outcome, i) {
        InOrderContains(ws, parentOf, outcome, i);
      }
    }
    if forall outcome: Outcome :: Contained(ws, parentOf, outcome, i) {
      forall j | 0 <= j < i && !ws[j].detached && IsAncestor(links, ws[j].branch, ws[i].branch)
        ensures Descends(ws, links, i, ws[j].branch)
      {
        assert Contained(ws, parentOf, OnlyFails(ws[j].branch), i);
        ContainedDescends(ws, parentOf, i, j);
      }
    }
  }

  lemma InOrderContains(ws: seq<Worktree>, parentOf: ParentOf, outcome: Outcome, i: nat)
    requires Distinct(ws) && i < |ws| && InOrder(ws, Links(ws, parentOf), i)
    ensures Contained(ws, parentOf, outcome, i)
  {
    hide Links, FailedBy, IsAncestor, Descends;
    forall j | 0 <= j < i && IsAncestor(Links(ws, parentOf), ws[j].branch, ws[i].branch)
               && VisitAt(ws, parentOf, outcome, j) == Tried(false)
      ensures !VisitAt(ws, parentOf, outcome, i).Tried?
    {
      DescendingFails(ws, parentOf, outcome, i, j);
    }
  }

  lemma ContainedDescends(ws: seq<Worktree>, parentOf: ParentOf, i: nat, j: nat)
    requires Distinct(ws) && j < i < |ws| && !ws[j].detached
    requires IsAncestor(Links(ws, parentOf), ws[j].branch, ws[i].branch)
    requires Contained(ws, parentOf, OnlyFails(ws[j].branch), i)
    ensures Descends(ws, Links(ws, parentOf), i, ws[j].branch)
  {
    var a := ws[j].branch;
    NothingFailsBefore(ws, parentOf, j, j);
    assert VisitAt(ws, parentOf, OnlyFails(a), j) == Tried(false);
    assert ws[i].branch in Links(ws, parentOf);
    LinkOf(ws, ws, parentOf, i);
    hide Links, FailedBy, IsAncestor, Descends;
    SkippedDescends(ws, parentOf, i, a);
  }

  // ----- cycles -----

  lemma {:induction false} TwoCycleAncestors(links: map<Branch, Branch>, a: Branch, b: Branch, n: nat)
    requires b in links && links[b] in links && links[links[b]] == b && Ancestor(links, a, b, n)
    ensures a == b || a == links[b]
    decreases n
  {
    if links[b] != a {
      TwoCycleAncestors(links, a, links[b], n - 1);
    }
  }

  /** A branch that is its own parent, or that has its child as its parent, is still contained. */
  lemma ShortCyclesAreContained(ws: seq<Worktree>, parentOf: ParentOf, i: nat)
    requires Distinct(ws) && i < |ws|
    requires var links, b := Links(ws, parentOf), ws[i].branch; b in links && links[b] in links && links[links[b]] == b
    ensures forall outcome: Outcome :: Contained(ws, parentOf, outcome, i)
  {
    var links, b := Links(ws, parentOf), ws[i].branch;
    hide Links;
    forall j | 0 <= j < i && IsAncestor(links, ws[j].branch, b) ensures Descends(ws, links, i, ws[j].branch) {
      var n: nat :| Ancestor(links, ws[j].branch, b, n);
      TwoCycleAncestors(links, ws[j].branch, b, n);
      assert ws[j].branch == links[b];
    }
    ContainedIffInOrder(ws, parentOf, i);
  }

  const RING: seq<Worktree> := [Worktree("a", false), Worktree("b", false), Worktree("c", false)]

  function RingParent(b: Branch): Branch {
    if b == "a" then "b" else if b == "b" then "c" else if b == "c" then "a" else ""
  }

  const RING_LINKS: map<Branch, Branch> := map["a" := "b", "b" := "c", "c" := "a"]

  lemma RingLinks()
    ensures Links(RING, RingParent) == RING_LINKS
  {
    RingBranches();
    hide Branches;
    assert RING[0] in RING && RING[1] in RING && RING[2] in RING;
  }

  lemma RingBranches()
    ensures Branches(RING) == {"a", "b", "c"}
  {
    assert RING[0] in RING && RING[1] in RING && RING[2] in RING;
  }

  lemma {:induction false} RingNeverEnds(b: Branch, n: nat)
    requires b in RING_LINKS
    ensures !EndsWithin(RING_LINKS, b, n)
    decreases n
  {
    if n > 0 {
      RingNeverEnds(RING_LINKS[b], n - 1);
    }
  }

  lemma RingAttempts()
    ensures Attempts(RING, RingParent, b => b != "a") == [Attempt("a", false), Attempt("b", true)]
  {
    var outcome := b => b != "a";
    var one, two := [RING[0]], [RING[0], RING[1]];
    assert one[..0] == [] && two[..1] == one && RING[..2] == two && RING[..1] == one && RING[..0] == [];
    assert FailedBy(one, RingParent, outcome) == {"a"};
    assert FailedBy(two, RingParent, outcome) == {"a"};
    assert VisitAt(one, RingParent, outcome, 0) == Tried(false);
    assert VisitAt(two, RingParent, outcome, 1) == Tried(true);
    assert VisitAt(RING, RingParent, outcome, 2) == Skipped;
    assert Attempts(one, RingParent, outcome) == [Attempt("a", false)];
    assert Attempts(two, RingParent, outcome) == [Attempt("a", false), Attempt("b", true)];
  }

  /** On a cycle the containment fails: a's rebase fails, and b, which has a among its ancestors, is still rebased. */
  lemma CyclesAreNotContained()
    ensures Distinct(RING) && ParentsFirst(RING, Links(RING, RingParent))
    ensures Ancestor(Links(RING, RingParent), "a", "b", 2)
    ensures Attempts(RING, RingParent, b => b != "a") == [Attempt("a", false), Attempt("b", true)]
  {
    hide Links, Attempts, EndsWithin, Branches;
    RingLinks();
    RingAttempts();
    assert Ancestor(RING_LINKS, "a", "c", 1);
    forall b | b in RING_LINKS ensures !Rooted(RING_LINKS, b) {
      forall n: nat ensures !EndsWithin(RING_LINKS, b, n) {
        RingNeverEnds(b, n);
      }
    }
  }
}
