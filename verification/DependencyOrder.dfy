/** The order in which Sync visits worktrees, and which of them it rebases (wt/worktree.go). */
module DependencyOrder {
  import opened Common

  type Branch = string

  datatype Worktree = Worktree(branch: Branch, detached: bool)

  /** GetParentBranch, "" when there is none; fixed during the pass. */
  type ParentOf = Branch -> Branch

  function Branches(ws: seq<Worktree>): set<Branch> {
    set w | w in ws :: w.branch
  }

  predicate Distinct(ws: seq<Worktree>) {
    forall i, j :: 0 <= i < j < |ws| ==> ws[i].branch != ws[j].branch
  }

  /** The parent links that stay inside the worktree set. */
  function Links(ws: seq<Worktree>, parentOf: ParentOf): map<Branch, Branch> {
    map w | w in ws && !w.detached && parentOf(w.branch) != "" && parentOf(w.branch) in Branches(ws) ::
      w.branch := parentOf(w.branch)
  }

  /** A branch is linked to its recorded parent when both have a worktree and its own is not detached. */
  lemma LinksMeaning(ws: seq<Worktree>, parentOf: ParentOf, b: Branch)
    ensures b in Links(ws, parentOf) <==>
              && parentOf(b) != ""
              && (exists i :: 0 <= i < |ws| && ws[i].branch == b && !ws[i].detached)
              && exists j :: 0 <= j < |ws| && ws[j].branch == parentOf(b)
    ensures b in Links(ws, parentOf) ==> Links(ws, parentOf)[b] == parentOf(b)
  {
    if i :| 0 <= i < |ws| && ws[i].branch == b && !ws[i].detached {
      assert ws[i] in ws;
    }
    if j :| 0 <= j < |ws| && ws[j].branch == parentOf(b) {
      assert ws[j] in ws;
    }
    if b in Links(ws, parentOf) {
      var v :| v in ws && v.branch == parentOf(b);
    }
  }

  /** The chain of parents from b ends within n links. */
  predicate EndsWithin(links: map<Branch, Branch>, b: Branch, n: nat)
    decreases n
  {
    b !in links || (n > 0 && EndsWithin(links, links[b], n - 1))
  }

  /** b is neither on nor below a cycle of parents. */
  ghost predicate Rooted(links: map<Branch, Branch>, b: Branch) {
    exists n: nat :: EndsWithin(links, b, n)
  }

  /** Each worktree on no cycle and below none comes after its parent. */
  ghost predicate ParentsFirst(ws: seq<Worktree>, links: map<Branch, Branch>) {
    forall i :: 0 <= i < |ws| && ws[i].branch in links && Rooted(links, ws[i].branch) ==>
      links[ws[i].branch] in Branches(ws[..i])
  }

  // ----- the order -----

  /** What the queue loop keeps: result holds what is processed, in an order that respects the links. */
  ghost predicate Ordered(result: seq<Worktree>, processed: set<Branch>, links: map<Branch, Branch>) {
    && Branches(result) == processed
    && Distinct(result)
    && (forall i :: 0 <= i < |result| && result[i].branch in links ==> links[result[i].branch] in Branches(result[..i]))
  }

  /** What is queued is known and ready; everything ready is processed or queued. */
  ghost predicate Frontier(ws: seq<Worktree>, queue: seq<Worktree>, processed: set<Branch>,
                           links: map<Branch, Branch>) {
    && (forall w :: w in queue ==> w in ws && (w.branch in links ==> links[w.branch] in processed))
    && (forall w :: w in ws && (w.branch in links ==> links[w.branch] in processed) ==>
          w.branch in processed || w.branch in Branches(queue))
  }

  lemma BranchesAppend(s: seq<Worktree>, w: Worktree)
    ensures Branches(s + [w]) == Branches(s) + {w.branch}
  {
    assert w in s + [w];
    forall x | x in s ensures x in s + [w] {
    }
  }

  lemma OrderedAppend(result: seq<Worktree>, processed: set<Branch>, links: map<Branch, Branch>, w: Worktree)
    requires Ordered(result, processed, links) && w.branch !in processed
    requires w.branch in links ==> links[w.branch] in processed
    ensures Ordered(result + [w], processed + {w.branch}, links)
  {
    var longer := result + [w];
    BranchesAppend(result, w);
    forall i | 0 <= i < |longer| && longer[i].branch in links ensures links[longer[i].branch] in Branches(longer[..i]) {
      assert longer[..i] == result[..i];
      assert i == |result| ==> longer[..i] == result;
    }
    forall i | 0 <= i < |result| ensures result[i].branch != w.branch {
      assert result[i] in result;
    }
  }

  /** With an empty queue every rooted worktree has been processed. */
  lemma {:induction false} RootedProcessed(ws: seq<Worktree>, parentOf: ParentOf, processed: set<Branch>, b: Branch,
      n: nat)
    requires Frontier(ws, [], processed, Links(ws, parentOf)) && b in Branches(ws)
        && EndsWithin(Links(ws, parentOf), b, n)
    ensures b in processed
    decreases n
  {
    var links := Links(ws, parentOf);
    var w :| w in ws && w.branch == b;
    if b in links {
      RootedProcessed(ws, parentOf, processed, links[b], n - 1);
    }
  }

  lemma RestKeepsParentsFirst(ws: seq<Worktree>, parentOf: ParentOf, result: seq<Worktree>, processed: set<Branch>,
                              all: seq<Worktree>)
    requires Ordered(result, processed, Links(ws, parentOf)) && Frontier(ws, [], processed, Links(ws, parentOf))
    requires result <= all && forall i :: |result| <= i < |all| ==> all[i] in ws && all[i].branch !in processed
    ensures ParentsFirst(all, Links(ws, parentOf))
  {
    var links := Links(ws, parentOf);
    forall i | 0 <= i < |all| && all[i].branch in links && Rooted(links, all[i].branch)
      ensures links[all[i].branch] in Branches(all[..i])
    {
      var n: nat :| EndsWithin(links, all[i].branch, n);
      if i < |result| {
        assert all[..i] == result[..i];
      } else {
        RootedProcessed(ws, parentOf, processed, all[i].branch, n);
        assert false;
      }
    }
  }

  lemma {:induction false} SameElementsSameMultiset(s: seq<Worktree>, t: seq<Worktree>)
    requires Distinct(s) && Distinct(t) && forall w :: w in s <==> w in t
    ensures multiset(s) == multiset(t)
  {
    forall w ensures multiset(s)[w] == multiset(t)[w] {
      OnceEach(s, w);
      OnceEach(t, w);
    }
  }

  lemma {:induction false} OnceEach(s: seq<Worktree>, w: Worktree)
    requires Distinct(s)
    ensures multiset(s)[w] == if w in s then 1 else 0
  {
    if s != [] {
      OnceEach(s[1..], w);
      assert s == [s[0]] + s[1..];
      assert w == s[0] ==> w !in s[1..];
    }
  }

  /** Which links the counting pass finds: the branches whose parent is in the set. */
  method LinkedBranches(parentMap: map<Branch, Branch>, wtMap: map<Branch, Worktree>)
    returns (childCount: map<Branch, int>)
    ensures forall b :: (b in childCount && childCount[b] != 0) <==> (b in parentMap && parentMap[b] in wtMap)
  {
    childCount := map[];
    var left := parentMap.Keys;
    while left != {}
      invariant left <= parentMap.Keys
      invariant forall b :: b in childCount <==> b in parentMap.Keys - left && parentMap[b] in wtMap
      invariant forall b :: b in childCount ==> childCount[b] == 1
      decreases |left|
    {
      var b :| b in left;
      left := left - {b};
      if parentMap[b] in wtMap {
        childCount := childCount[b := 1]; // from 0: every branch is counted once
      }
    }
  }

  /** The children of a processed branch join the queue, in whatever order the map yields them. */
  method QueueChildren(ws: seq<Worktree>, parentOf: ParentOf, parentMap: map<Branch, Branch>,
                       wtMap: map<Branch, Worktree>, b: Branch, processed: set<Branch>, queue: seq<Worktree>)
    returns (longer: seq<Worktree>)
    requires forall c :: (c in parentMap && parentMap[c] in wtMap) <==> c in Links(ws, parentOf)
    requires forall c :: c in Links(ws, parentOf) ==> parentMap[c] == Links(ws, parentOf)[c]
    requires wtMap.Keys == Branches(ws) && forall c :: c in wtMap ==> wtMap[c] in ws && wtMap[c].branch == c
    requires b in processed && b in wtMap
    requires forall w :: w in queue ==>
        w in ws && (w.branch in Links(ws, parentOf) ==> Links(ws, parentOf)[w.branch] in processed)
    ensures forall w :: w in longer ==>
        w in ws && (w.branch in Links(ws, parentOf) ==> Links(ws, parentOf)[w.branch] in processed)
    ensures Branches(queue) <= Branches(longer)
    ensures forall c :: c in Links(ws, parentOf) && Links(ws, parentOf)[c] == b && c !in processed ==>
        c in Branches(longer)
  {
    longer := queue;
    var left := parentMap.Keys;
    while left != {}
      invariant left <= parentMap.Keys
      invariant forall w :: w in longer ==>
          w in ws && (w.branch in Links(ws, parentOf) ==> Links(ws, parentOf)[w.branch] in processed)
      invariant Branches(queue) <= Branches(longer)
      invariant forall c :: c in parentMap.Keys - left && parentMap[c] == b && c in wtMap && c !in processed ==>
          c in Branches(longer)
      decreases |left|
    {
      var c :| c in left;
      left := left - {c};
      if parentMap[c] == b && c in wtMap && c !in processed {
        BranchesAppend(longer, wtMap[c]);
        longer := longer + [wtMap[c]];
      }
    }
    forall c | c in Links(ws, parentOf) && Links(ws, parentOf)[c] == b && c !in processed
      ensures c in Branches(longer) {
      LinkedIsKnown(ws, parentOf, c);
    }
  }

  lemma LinkedIsKnown(ws: seq<Worktree>, parentOf: ParentOf, c: Branch)
    requires c in Links(ws, parentOf)
    ensures c in Branches(ws) && Links(ws, parentOf)[c] in Branches(ws)
  {
    var w :| w in ws && w.branch == c;
  }

  /** The two maps the ordering works from. */
  method BuildMaps(ws: seq<Worktree>, parentOf: ParentOf)
    returns (parentMap: map<Branch, Branch>, wtMap: map<Branch, Worktree>)
    ensures wtMap.Keys == Branches(ws) && forall b :: b in wtMap ==> wtMap[b] in ws && wtMap[b].branch == b
    ensures forall b :: (b in parentMap && parentMap[b] in wtMap) <==> b in Links(ws, parentOf)
    ensures forall b :: b in Links(ws, parentOf) ==> parentMap[b] == Links(ws, parentOf)[b]
  {
    parentMap, wtMap := map[], map[];
    for i := 0 to |ws|
      invariant wtMap.Keys == Branches(ws[..i])
      invariant forall b :: b in wtMap ==> wtMap[b] in ws && wtMap[b].branch == b
      invariant forall b :: b in parentMap <==>
          exists w :: w in ws[..i] && w.branch == b && !w.detached && parentOf(b) != ""
      invariant forall b :: b in parentMap ==> parentMap[b] == parentOf(b)
    {
      var w := ws[i];
      assert ws[..i + 1] == ws[..i] + [w];
      BranchesAppend(ws[..i], w);
      wtMap := wtMap[w.branch := w];
      if !w.detached {
        var parent := parentOf(w.branch);
        if parent != "" {
          parentMap := parentMap[w.branch := parent];
        }
      }
    }
    assert ws[..|ws|] == ws;
  }

  /** The worktrees without a parent in the set, in the given order. */
  method Roots(ws: seq<Worktree>, parentOf: ParentOf, childCount: map<Branch, int>) returns (queue: seq<Worktree>)
    requires forall b :: (b in childCount && childCount[b] != 0) <==> b in Links(ws, parentOf)
    ensures Frontier(ws, queue, {}, Links(ws, parentOf))
  {
    queue := [];
    for i := 0 to |ws|
      invariant forall w :: w in queue <==> w in ws[..i] && w.branch !in Links(ws, parentOf)
    {
      assert ws[..i + 1] == ws[..i] + [ws[i]];
      if ws[i].branch !in childCount || childCount[ws[i].branch] == 0 {
        queue := queue + [ws[i]];
      }
    }
    assert ws[..|ws|] == ws;
  }

  /** Processing w: its children become ready. */
  lemma FrontierMoves(ws: seq<Worktree>, parentOf: ParentOf, queue: seq<Worktree>, longer: seq<Worktree>,
      processed: set<Branch>)
    requires queue != [] && Frontier(ws, queue, processed, Links(ws, parentOf))
    requires var more := processed + {queue[0].branch};
             && (forall w :: w in longer ==>
                 w in ws && (w.branch in Links(ws, parentOf) ==> Links(ws, parentOf)[w.branch] in more))
             && Branches(queue[1..]) <= Branches(longer)
             && (forall c :: c in Links(ws, parentOf) && Links(ws, parentOf)[c] == queue[0].branch && c !in more ==>
                 c in Branches(longer))
    ensures Frontier(ws, longer, processed + {queue[0].branch}, Links(ws, parentOf))
  {
    var links := Links(ws, parentOf);
    hide Links;
    var more := processed + {queue[0].branch};
    assert queue == [queue[0]] + queue[1..];
    forall w | w in ws && (w.branch in links ==> links[w.branch] in more)
      ensures w.branch in more || w.branch in Branches(longer) {
      if w.branch !in more && (w.branch in links ==> links[w.branch] in processed) {
        assert w.branch in Branches(queue);
        var x :| x in queue && x.branch == w.branch;
        assert x in queue[1..];
      }
    }
  }

  /** A repeated branch in the queue is dropped. */
  lemma FrontierDrops(ws: seq<Worktree>, queue: seq<Worktree>, processed: set<Branch>, links: map<Branch, Branch>)
    requires queue != [] && Frontier(ws, queue, processed, links) && queue[0].branch in processed
    ensures Frontier(ws, queue[1..], processed, links)
  {
    assert queue == [queue[0]] + queue[1..];
    forall w | w in ws && (w.branch in links ==> links[w.branch] in processed) && w.branch !in processed
      ensures w.branch in Branches(queue[1..])
    {
      var x :| x in queue && x.branch == w.branch;
      assert x in queue[1..];
    }
  }

  lemma ProcessedFewer(ws: seq<Worktree>, processed: set<Branch>, b: Branch)
    requires processed <= Branches(ws) && b in Branches(ws) && b !in processed
    ensures |Branches(ws) - (processed + {b})| < |Branches(ws) - processed|
  {
    assert Branches(ws) - (processed + {b}) == Branches(ws) - processed - {b};
  }

  /**
    buildDependencyOrder, for any order in which its maps yield their keys. The result is a permutation when the branch
    names are distinct, and a parent comes before its child for every worktree not on or below a cycle of parents.
   */
  method BuildDependencyOrder(ws: seq<Worktree>, parentOf: ParentOf) returns (result: seq<Worktree>)
    ensures ParentsFirst(result, Links(ws, parentOf))
    ensures Distinct(ws) ==> multiset(result) == multiset(ws)
    ensures Distinct(ws) ==> Distinct(result)
    ensures Branches(result) == Branches(ws) && forall w :: w in result ==> w in ws
  {
    ghost var links := Links(ws, parentOf);
    var parentMap, wtMap := BuildMaps(ws, parentOf);
    var childCount := LinkedBranches(parentMap, wtMap);
    var queue := Roots(ws, parentOf, childCount);
    var processed: set<Branch> := {};
    result := [];
    while queue != []
      invariant Ordered(result, processed, links) && Frontier(ws, queue, processed, links)
      invariant processed <= Branches(ws) && forall w :: w in result ==> w in ws
      decreases |Branches(ws) - processed|, |queue|
    {
      var w := queue[0];
      ghost var before, seen := queue, processed;
      assert w in queue;
      if w.branch in processed {
        FrontierDrops(ws, queue, processed, links);
        queue := queue[1..];
        continue;
      }
      ProcessedFewer(ws, processed, w.branch);
      OrderedAppend(result, processed, links, w);
      processed := processed + {w.branch};
      result := result + [w];
      queue := QueueChildren(ws, parentOf, parentMap, wtMap, w.branch, processed, queue[1..]);
      FrontierMoves(ws, parentOf, before, queue, seen);
    }
    ghost var ordered := result;
    result := AppendRest(ws, result, processed);
    SameBranches(ws, result, ordered);
    RestKeepsParentsFirst(ws, parentOf, ordered, processed, result);
    if Distinct(ws) {
      SameElementsSameMultiset(ws, result);
    }
  }

  lemma SameBranches(ws: seq<Worktree>, result: seq<Worktree>, ordered: seq<Worktree>)
    requires (forall w :: w in ordered ==> w in ws) && ordered <= result
    requires forall i :: |ordered| <= i < |result| ==> result[i] in ws
    requires forall w :: w in ws && w.branch !in Branches(ordered) ==> w in result
    ensures Branches(result) == Branches(ws) && forall w :: w in result ==> w in ws
  {
    forall w | w in result ensures w in ws {
      var i :| 0 <= i < |result| && result[i] == w;
      assert i < |ordered| ==> ordered[i] in ordered;
    }
    forall w | w in ws ensures w.branch in Branches(result) {
      if w.branch in Branches(ordered) {
        var x :| x in ordered && x.branch == w.branch;
        assert x in result;
      }
    }
  }

  /** Cycles and what hangs below them go last, in the given order. */
  method AppendRest(ws: seq<Worktree>, ordered: seq<Worktree>, processed: set<Branch>) returns (result: seq<Worktree>)
    requires Branches(ordered) == processed && Distinct(ordered) && forall w :: w in ordered ==> w in ws
    ensures ordered <= result
    ensures forall i :: |ordered| <= i < |result| ==> result[i] in ws && result[i].branch !in processed
    ensures Distinct(ws) ==> Distinct(result) && forall w :: w in result <==> w in ws
    ensures forall w :: w in ws && w.branch !in processed ==> w in result
  {
    result := ordered;
    for i := 0 to |ws|
      invariant ordered <= result
      invariant forall k :: |ordered| <= k < |result| ==> result[k] in ws[..i] && result[k].branch !in processed
      invariant Distinct(ws) ==> Distinct(result)
      invariant forall w :: w in ws[..i] && w.branch !in processed ==> w in result
    {
      assert ws[..i + 1] == ws[..i] + [ws[i]];
      if ws[i].branch !in processed {
        AppendKeepsDistinct(ws, ordered, processed, result, i);
        result := result + [ws[i]];
      }
    }
    assert ws[..|ws|] == ws;
    if Distinct(ws) {
      forall w ensures w in result <==> w in ws {
        KnownBranch(ws, ordered, processed, w);
      }
    }
  }

  lemma AppendKeepsDistinct(ws: seq<Worktree>, ordered: seq<Worktree>, processed: set<Branch>, result: seq<Worktree>,
      i: nat)
    requires i < |ws| && ordered <= result && Branches(ordered) == processed && ws[i].branch !in processed
    requires forall k :: |ordered| <= k < |result| ==> result[k] in ws[..i]
    ensures Distinct(ws) && Distinct(result) ==> Distinct(result + [ws[i]])
  {
    if Distinct(ws) && Distinct(result) {
      forall k | 0 <= k < |result| ensures result[k].branch != ws[i].branch {
        if k < |ordered| {
          assert ordered[k] in ordered;
        }
      }
    }
  }

  lemma KnownBranch(ws: seq<Worktree>, ordered: seq<Worktree>, processed: set<Branch>, w: Worktree)
    requires Distinct(ws) && Branches(ordered) == processed && forall x :: x in ordered ==> x in ws
    ensures w in ws && w.branch in processed ==> w in ordered
  {
    if w in ws && w.branch in processed {
      var x :| x in ordered && x.branch == w.branch;
      assert x in ws && x == w;
    }
  }

  // ----- rooted means: not on or below a cycle -----

  /** The n-th ancestor. */
  function Follow(links: map<Branch, Branch>, b: Branch, n: nat): Option<Branch>
    decreases n
  {
    if n == 0 then Some(b) else if b in links then Follow(links, links[b], n - 1) else None
  }

  lemma {:induction false} FollowOn(links: map<Branch, Branch>, b: Branch, i: nat, k: nat)
    requires Follow(links, b, i).Some?
    ensures Follow(links, b, i + k) == Follow(links, Follow(links, b, i).value, k)
    decreases i
  {
    if i > 0 {
      FollowOn(links, links[b], i - 1, k);
    }
  }

  /** A chain that ends has a last ancestor. */
  lemma {:induction false} LastAncestor(links: map<Branch, Branch>, b: Branch, n: nat) returns (last: nat)
    requires EndsWithin(links, b, n)
    ensures Follow(links, b, last).Some? && forall k :: k > last ==> Follow(links, b, k).None?
    decreases n
  {
    if b in links {
      last := LastAncestor(links, links[b], n - 1);
      last := last + 1;
    } else {
      last := 0;
    }
  }

  lemma {:induction false} EndlessFollows(links: map<Branch, Branch>, b: Branch, n: nat)
    requires !Rooted(links, b)
    ensures Follow(links, b, n).Some? && Follow(links, b, n).value in links
    decreases n
  {
    assert !EndsWithin(links, b, 0);
    if n > 0 {
      forall m: nat ensures !EndsWithin(links, links[b], m) {
        assert !EndsWithin(links, b, m + 1);
      }
      EndlessFollows(links, links[b], n - 1);
    }
  }

  /** n + 1 ancestors from a set of n names repeat one. */
  lemma {:induction false} SomeNameRepeats(links: map<Branch, Branch>, b: Branch, n: nat, names: set<Branch>)
    returns (i: nat, j: nat)
    requires |names| <= n && forall k :: 0 <= k <= n ==> Follow(links, b, k).Some? && Follow(links, b, k).value in names
    ensures i < j <= n && Follow(links, b, i) == Follow(links, b, j)
    decreases n
  {
    var last := Follow(links, b, n).value;
    if k :| 0 <= k < n && Follow(links, b, k) == Follow(links, b, n) {
      return k, n;
    }
    assert |names - {last}| < |names|;
    i, j := SomeNameRepeats(links, b, n - 1, names - {last});
  }

  /** A repeated ancestor makes a longer chain out of any. */
  lemma LongerChain(links: map<Branch, Branch>, b: Branch, i: nat, j: nat, last: nat)
    requires i <= last && Follow(links, b, i).Some? && Follow(links, b, i) == Follow(links, b, j)
        && Follow(links, b, last).Some?
    ensures Follow(links, b, j + (last - i)).Some?
  {
    FollowOn(links, b, i, last - i);
    FollowOn(links, b, j, last - i);
  }

  lemma RootedIffNoCycle(links: map<Branch, Branch>, b: Branch)
    ensures Rooted(links, b) <==>
              !exists i: nat, j: nat :: i < j && Follow(links, b, i).Some? && Follow(links, b, i) == Follow(links, b, j)
  {
    if Rooted(links, b) {
      var n: nat :| EndsWithin(links, b, n);
      var last := LastAncestor(links, b, n);
      forall i: nat, j: nat | i < j && Follow(links, b, i).Some? ensures Follow(links, b, i) != Follow(links, b, j) {
        if i <= last && Follow(links, b, j) == Follow(links, b, i) {
          LongerChain(links, b, i, j, last);
        }
      }
    } else {
      forall k | 0 <= k <= |links.Keys| ensures Follow(links, b, k).Some? && Follow(links, b, k).value in links.Keys {
        EndlessFollows(links, b, k);
      }
      var i, j := SomeNameRepeats(links, b, |links.Keys|, links.Keys);
    }
  }
}
