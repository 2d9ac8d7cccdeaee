/** The capped, sorted record of ids already seen (prdozer/state.go, mergeSortedCapped). */
module SeenSet {

  const MAX_SEEN_IDS: nat := 500

  /** lt is a strict total order on T: what cmp.Ordered gives the generic code. */
  ghost predicate StrictTotal<T(!new)>(lt: (T, T) -> bool) {
    && (forall x :: !lt(x, x))
    && (forall x, y, z :: lt(x, y) && lt(y, z) ==> lt(x, z))
    && (forall x, y :: x != y ==> lt(x, y) || lt(y, x))
  }

  ghost predicate StrictlySorted<T>(lt: (T, T) -> bool, s: seq<T>) {
    forall i, j :: 0 <= i < j < |s| ==> lt(s[i], s[j])
  }

  function Elements<T>(s: seq<T>): set<T> {
    set x | x in s
  }

  function Min(a: nat, b: nat): nat {
    if a < b then a else b
  }

  /** out lists, in increasing order, the cap largest members of S. */
  ghost predicate IsTop<T>(lt: (T, T) -> bool, cap: nat, out: seq<T>, S: set<T>) {
    && StrictlySorted(lt, out)
    && Elements(out) <= S
    && |out| == Min(cap, |S|)
    && forall x, y :: x in S && x !in out && y in out ==> lt(x, y)
  }

  // ----- sorting -----

  /** Insert x into a sorted list, keeping one copy of each value. */
  function Insert<T(==)>(lt: (T, T) -> bool, x: T, s: seq<T>): seq<T> {
    if s == [] then [x]
    else if lt(x, s[0]) then [x] + s
    else if x == s[0] then s
    else [s[0]] + Insert(lt, x, s[1..])
  }

  function SortDistinct<T(==)>(lt: (T, T) -> bool, s: seq<T>): seq<T> {
    if s == [] then [] else Insert(lt, s[0], SortDistinct(lt, s[1..]))
  }

  function LastN<T>(n: nat, s: seq<T>): seq<T> {
    if |s| > n then s[|s| - n..] else s
  }

  /** The stored list and the "something was new" flag after one merge. */
  function MergeCapped<T(==)>(lt: (T, T) -> bool, existing: seq<T>, incoming: seq<T>): (seq<T>, bool) {
    if forall v | v in incoming :: v in existing then (existing, false)
    else (LastN(MAX_SEEN_IDS, SortDistinct(lt, existing + incoming)), true)
  }

  lemma {:induction false} InsertSorted<T(!new)>(lt: (T, T) -> bool, x: T, s: seq<T>)
    requires StrictTotal(lt) && StrictlySorted(lt, s)
    ensures StrictlySorted(lt, Insert(lt, x, s))
    ensures Elements(Insert(lt, x, s)) == Elements(s) + {x}
  {
    if s == [] {
    } else if lt(x, s[0]) {
      assert Elements([x] + s) == Elements(s) + {x};
    } else if x == s[0] {
      assert x in s;
    } else {
      var rest := Insert(lt, x, s[1..]);
      InsertSorted(lt, x, s[1..]);
      ConsElements(s[0], rest);
      ConsElements(s[0], s[1..]);
      assert s == [s[0]] + s[1..];
      ConsSorted(lt, s[0], rest);
    }
  }

  lemma ConsElements<T>(x: T, s: seq<T>)
    ensures Elements([x] + s) == {x} + Elements(s)
  {
  }

  lemma ConsSorted<T(!new)>(lt: (T, T) -> bool, x: T, s: seq<T>)
    requires StrictlySorted(lt, s) && forall y :: y in Elements(s) ==> lt(x, y)
    ensures StrictlySorted(lt, [x] + s)
  {
    var out := [x] + s;
    forall i, j | 0 <= i < j < |out| ensures lt(out[i], out[j]) {
      assert out[j] == s[j - 1] && s[j - 1] in Elements(s);
    }
  }

  lemma {:induction false} SortDistinctSorted<T(!new)>(lt: (T, T) -> bool, s: seq<T>)
    requires StrictTotal(lt)
    ensures StrictlySorted(lt, SortDistinct(lt, s))
    ensures Elements(SortDistinct(lt, s)) == Elements(s)
  {
    if s != [] {
      SortDistinctSorted(lt, s[1..]);
      InsertSorted(lt, s[0], SortDistinct(lt, s[1..]));
      assert Elements(s) == {s[0]} + Elements(s[1..]);
    }
  }

  /** A strictly sorted list has as many members as positions. */
  lemma {:induction false} SortedCardinality<T(!new)>(lt: (T, T) -> bool, s: seq<T>)
    requires StrictTotal(lt) && StrictlySorted(lt, s)
    ensures |Elements(s)| == |s|
  {
    if s != [] {
      SortedCardinality(lt, s[1..]);
      assert Elements(s) == {s[0]} + Elements(s[1..]);
      assert s[0] !in s[1..];
    }
  }

  lemma SubsetCardinality<T>(a: set<T>, b: set<T>)
    requires a <= b
    ensures |a| <= |b|
    ensures |a| == |b| ==> a == b
  {
    assert b == a + (b - a);
  }

  lemma LastNIsTop<T(!new)>(lt: (T, T) -> bool, cap: nat, s: seq<T>)
    requires StrictTotal(lt) && StrictlySorted(lt, s)
    ensures IsTop(lt, cap, LastN(cap, s), Elements(s))
  {
    SortedCardinality(lt, s);
    var out := LastN(cap, s);
    forall k | |s| > cap && |s| - cap <= k < |s|
      ensures s[k] in out
    {
      assert out[k - (|s| - cap)] == s[k];
    }
    forall x, y | x in Elements(s) && x !in out && y in out
      ensures lt(x, y)
    {
      var i :| 0 <= i < |s| && s[i] == x;
      var j :| 0 <= j < |out| && out[j] == y;
    }
  }

  /** A merge that saw something new stores the largest ids of old and new together; otherwise nothing was new. */
  lemma MergeCappedIsTop<T(!new)>(lt: (T, T) -> bool, existing: seq<T>, incoming: seq<T>)
    requires StrictTotal(lt)
    ensures MergeCapped(lt, existing, incoming).1 ==>
              IsTop(lt, MAX_SEEN_IDS, MergeCapped(lt, existing, incoming).0, Elements(existing) + Elements(incoming))
    ensures !MergeCapped(lt, existing, incoming).1 ==>
              MergeCapped(lt, existing, incoming).0 == existing && Elements(incoming) <= Elements(existing)
  {
    SortDistinctSorted(lt, existing + incoming);
    LastNIsTop(lt, MAX_SEEN_IDS, SortDistinct(lt, existing + incoming));
    assert Elements(existing + incoming) == Elements(existing) + Elements(incoming);
  }

  // ----- the top list is unique, and merging in pieces loses nothing -----

  lemma {:induction false} SortedUnique<T(!new)>(lt: (T, T) -> bool, a: seq<T>, b: seq<T>)
    requires StrictTotal(lt) && StrictlySorted(lt, a) && StrictlySorted(lt, b)
    requires Elements(a) == Elements(b)
    ensures a == b
  {
    SortedCardinality(lt, a);
    SortedCardinality(lt, b);
    if a != [] {
      assert a[0] in Elements(a) && b[0] in Elements(b);
      assert a[0] in b && b[0] in a;
      assert a[0] == b[0];
      assert Elements(a[1..]) == Elements(a) - {a[0]};
      assert Elements(b[1..]) == Elements(b) - {b[0]};
      SortedUnique(lt, a[1..], b[1..]);
    }
  }

  /** A member of a that b dropped is below all of b, so a could not have dropped any of b. */
  lemma TopsAreNested<T(!new)>(lt: (T, T) -> bool, cap: nat, a: seq<T>, b: seq<T>, S: set<T>)
    requires StrictTotal(lt) && IsTop(lt, cap, a, S) && IsTop(lt, cap, b, S)
    ensures Elements(a) <= Elements(b) || Elements(b) <= Elements(a)
  {
    if x :| x in a && x !in b {
      forall y | y in b
        ensures y in a
      {
        assert lt(x, y);
      }
    }
  }

  /** At most one list is the top of a given set. */
  lemma TopUnique<T(!new)>(lt: (T, T) -> bool, cap: nat, a: seq<T>, b: seq<T>, S: set<T>)
    requires StrictTotal(lt) && IsTop(lt, cap, a, S) && IsTop(lt, cap, b, S)
    ensures a == b
  {
    SortedCardinality(lt, a);
    SortedCardinality(lt, b);
    TopsAreNested(lt, cap, a, b, S);
    if Elements(a) <= Elements(b) {
      SubsetCardinality(Elements(a), Elements(b));
    } else {
      SubsetCardinality(Elements(b), Elements(a));
    }
    SortedUnique(lt, a, b);
  }

  /** x was dropped, so it is below all of a; were y below x, all of a would have to be kept beside y. */
  lemma DroppedStaysBelow<T(!new)>(lt: (T, T) -> bool, cap: nat, a: seq<T>, A: set<T>, b: seq<T>, B: set<T>, x: T, y: T)
    requires StrictTotal(lt) && IsTop(lt, cap, a, A) && IsTop(lt, cap, b, Elements(a) + B)
    requires |A| > cap && x in A && x !in a && x !in b && y in b
    ensures lt(x, y)
  {
    SortedCardinality(lt, a);
    SortedCardinality(lt, b);
    assert forall z :: z in Elements(a) ==> lt(x, z);
    if !lt(x, y) {
      assert forall z :: z in Elements(a) ==> lt(y, z);
      assert Elements(a) <= Elements(b);
      SubsetCardinality(Elements(a) + {y}, Elements(b));
    }
  }

  /** Capping early is harmless: the top of (top of A) with B is the top of A with B. */
  lemma TopOfTop<T(!new)>(lt: (T, T) -> bool, cap: nat, a: seq<T>, A: set<T>, b: seq<T>, B: set<T>)
    requires StrictTotal(lt) && IsTop(lt, cap, a, A) && IsTop(lt, cap, b, Elements(a) + B)
    ensures IsTop(lt, cap, b, A + B)
  {
    SortedCardinality(lt, a);
    SortedCardinality(lt, b);
    SubsetCardinality(A, A + B);
    SubsetCardinality(Elements(a), Elements(a) + B);
    if |A| <= cap {
      SubsetCardinality(Elements(a), A);
    } else {
      forall x, y | x in A + B && x !in b && y in b
        ensures lt(x, y)
      {
        if x !in Elements(a) + B {
          DroppedStaysBelow(lt, cap, a, A, b, B, x, y);
        }
      }
    }
  }

  // ----- runs -----

  /** The stored list after merging a sequence of observations, starting empty. */
  function Stored<T(==)>(lt: (T, T) -> bool, batches: seq<seq<T>>): seq<T> {
    if batches == [] then []
    else MergeCapped(lt, Stored(lt, batches[..|batches| - 1]), batches[|batches| - 1]).0
  }

  function Observed<T>(batches: seq<seq<T>>): set<T> {
    if batches == [] then {}
    else Observed(batches[..|batches| - 1]) + Elements(batches[|batches| - 1])
  }

  /** After any sequence of merges the record is the 500 largest of everything ever observed. */
  lemma {:induction false} StoredIsTopOfObserved<T(!new)>(lt: (T, T) -> bool, batches: seq<seq<T>>)
    requires StrictTotal(lt)
    ensures IsTop(lt, MAX_SEEN_IDS, Stored(lt, batches), Observed(batches))
  {
    if batches != [] {
      var before, batch := batches[..|batches| - 1], batches[|batches| - 1];
      StoredIsTopOfObserved(lt, before);
      MergeKeepsTop(lt, Stored(lt, before), Observed(before), batch);
    }
  }

  /** One merge carries the top of what was observed to the top of what is observed now. */
  lemma MergeKeepsTop<T(!new)>(lt: (T, T) -> bool, stored: seq<T>, S: set<T>, batch: seq<T>)
    requires StrictTotal(lt) && IsTop(lt, MAX_SEEN_IDS, stored, S)
    ensures IsTop(lt, MAX_SEEN_IDS, MergeCapped(lt, stored, batch).0, S + Elements(batch))
  {
    if MergeCapped(lt, stored, batch).1 {
      MergeCappedIsTop(lt, stored, batch);
      TopOfTop(lt, MAX_SEEN_IDS, stored, S, MergeCapped(lt, stored, batch).0, Elements(batch));
    } else {
      assert S + Elements(batch) == S;
    }
  }

  /** How ids were split across ticks does not matter. */
  lemma SplitIndependent<T(!new)>(lt: (T, T) -> bool, xs: seq<seq<T>>, ys: seq<seq<T>>)
    requires StrictTotal(lt) && Observed(xs) == Observed(ys)
    ensures Stored(lt, xs) == Stored(lt, ys)
  {
    StoredIsTopOfObserved(lt, xs);
    StoredIsTopOfObserved(lt, ys);
    TopUnique(lt, MAX_SEEN_IDS, Stored(lt, xs), Stored(lt, ys), Observed(xs));
  }

  lemma FlagMeansNewId<T(!new)>(lt: (T, T) -> bool, existing: seq<T>, incoming: seq<T>)
    ensures MergeCapped(lt, existing, incoming).1 <==> exists v :: v in incoming && v !in existing
  {
  }

  /** A new value above the smallest of a full list, or any new value for a list with room, gets in. */
  lemma SurvivorChangesTheList<T(!new)>(lt: (T, T) -> bool, existing: seq<T>, out: seq<T>, S: set<T>, v: T)
    requires StrictTotal(lt) && IsTop(lt, MAX_SEEN_IDS, out, S) && v in S && v !in existing
    requires |existing| < |S| && |existing| <= MAX_SEEN_IDS
    requires |existing| < MAX_SEEN_IDS || lt(existing[0], v)
    ensures out != existing
  {
    if |existing| == MAX_SEEN_IDS {
      assert existing[0] in existing;
      assert v in out || existing[0] !in out;
    }
  }

  /**
    The flag is documented as "true iff the merge added at least one ID". It reports a new incoming id, and the
    cap may drop that very id again: the list changes exactly when some new id is among the 500 largest.
   */
  lemma ListChangesIffSomeNewIdSurvives<T(!new)>(lt: (T, T) -> bool, existing: seq<T>, incoming: seq<T>)
    requires StrictTotal(lt) && StrictlySorted(lt, existing) && |existing| <= MAX_SEEN_IDS
    ensures var (out, changed) := MergeCapped(lt, existing, incoming);
            && (changed <==> exists v :: v in incoming && v !in existing)
            && (out != existing <==>
                exists v :: v in incoming && v !in existing && (|existing| < MAX_SEEN_IDS || lt(existing[0], v)))
  {
    hide MergeCapped;
    var (out, changed) := MergeCapped(lt, existing, incoming);
    var S := Elements(existing) + Elements(incoming);
    FlagMeansNewId(lt, existing, incoming);
    MergeCappedIsTop(lt, existing, incoming);
    SortedCardinality(lt, existing);
    SubsetCardinality(Elements(existing), S);
    if changed {
      var w :| w in incoming && w !in existing;
      assert w in S;
      SubsetCardinality(Elements(existing) + {w}, S);
      if v :| v in incoming && v !in existing && (|existing| < MAX_SEEN_IDS || lt(existing[0], v)) {
        assert v in S;
        SurvivorChangesTheList(lt, existing, out, S, v);
      } else {
        forall x, y | x in S && x !in existing && y in existing
          ensures lt(x, y)
        {
          assert !lt(existing[0], x);
          assert x != existing[0];
          var j :| 0 <= j < |existing| && existing[j] == y;
        }
        TopUnique(lt, MAX_SEEN_IDS, out, existing, S);
      }
    }
  }

  // ----- the imperative merge -----

  /** The library sort that the source calls on the collected keys. */
  method Sort<T(==)>(lt: (T, T) -> bool, s: seq<T>) returns (out: seq<T>)
    ensures out == SortDistinct(lt, s)
  {
    out := [];
    var i := |s|;
    while i > 0
      invariant 0 <= i <= |s|
      invariant out == SortDistinct(lt, s[i..])
    {
      i := i - 1;
      assert s[i..] == [s[i]] + s[i + 1..];
      out := Insert(lt, s[i], out);
    }
    assert s[0..] == s;
  }

  lemma ElementsUpTo<T>(s: seq<T>, i: nat)
    requires i < |s|
    ensures Elements(s[..i + 1]) == Elements(s[..i]) + {s[i]}
  {
    assert s[..i + 1] == s[..i] + [s[i]];
  }

  /** The two loops that fill the source's map and notice a new key. */
  method MarkSeen<T(==)>(existing: seq<T>, incoming: seq<T>) returns (seen: set<T>, changed: bool)
    ensures seen == Elements(existing) + Elements(incoming)
    ensures changed <==> exists v :: v in incoming && v !in existing
  {
    seen := {};
    for i := 0 to |existing|
      invariant seen == Elements(existing[..i])
    {
      ElementsUpTo(existing, i);
      seen := seen + {existing[i]};
    }
    assert existing[..|existing|] == existing;
    changed := false;
    for i := 0 to |incoming|
      invariant seen == Elements(existing) + Elements(incoming[..i])
      invariant changed <==> exists v :: v in Elements(incoming[..i]) && v !in Elements(existing)
    {
      ElementsUpTo(incoming, i);
      if incoming[i] !in seen {
        seen := seen + {incoming[i]};
        changed := true;
      }
    }
    assert incoming[..|incoming|] == incoming;
    assert forall v :: v in Elements(incoming) <==> v in incoming;
    assert forall v :: v in Elements(existing) <==> v in existing;
  }

  /** The keys of a map, which Go hands out in an arbitrary order. */
  method Keys<T(==)>(S: set<T>) returns (keys: seq<T>)
    ensures Elements(keys) == S
  {
    keys := [];
    var left := S;
    while left != {}
      invariant left <= S && Elements(keys) == S - left
      decreases |left|
    {
      var v :| v in left;
      var longer := keys + [v];
      ElementsUpTo(longer, |keys|);
      assert longer[..|keys|] == keys && longer[..|keys| + 1] == longer;
      keys := longer;
      left := left - {v};
    }
  }

  method MergeSortedCapped<T(==, !new)>(lt: (T, T) -> bool, existing: seq<T>, incoming: seq<T>)
    returns (out: seq<T>, changed: bool)
    requires StrictTotal(lt)
    ensures (out, changed) == MergeCapped(lt, existing, incoming)
  {
    if |incoming| == 0 {
      return existing, false;
    }
    var seen;
    seen, changed := MarkSeen(existing, incoming);
    if !changed {
      return existing, false;
    }
    var keys := Keys(seen);
    out := Sort(lt, keys);
    SortDistinctSorted(lt, keys);
    SortDistinctSorted(lt, existing + incoming);
    assert Elements(existing + incoming) == Elements(existing) + Elements(incoming);
    SortedUnique(lt, out, SortDistinct(lt, existing + incoming));
    if |out| > MAX_SEEN_IDS {
      out := out[|out| - MAX_SEEN_IDS..];
    }
  }

  // ----- the two orders in use -----

  predicate IntLess(a: int, b: int) {
    a < b
  }

  /** Go's string order, which is lexicographic by code point. */
  predicate StringLess(a: string, b: string) {
    if b == "" then false
    else if a == "" then true
    else if a[0] != b[0] then a[0] < b[0]
    else StringLess(a[1..], b[1..])
  }

  /** 500 stored runs and an older one: the flag is set, and the stored list stays as it was. */
  lemma FlagWithoutChange()
    ensures var stored: seq<int> := seq(MAX_SEEN_IDS, i => i + 1);
            StrictlySorted(IntLess, stored) && MergeCapped(IntLess, stored, [0]) == (stored, true)
  {
    var stored: seq<int> := seq(MAX_SEEN_IDS, i => i + 1);
    OrdersAreTotal();
    ListChangesIffSomeNewIdSurvives(IntLess, stored, [0]);
    hide MergeCapped;
    assert 0 in [0] && 0 !in stored;
  }

  lemma {:induction false} StringLessLaws(a: string, b: string, c: string)
    ensures !StringLess(a, a)
    ensures StringLess(a, b) && StringLess(b, c) ==> StringLess(a, c)
    ensures a != b ==> StringLess(a, b) || StringLess(b, a)
    decreases |a| + |b| + |c|
  {
    if a != "" {
      StringLessLaws(a[1..], if b == "" then b else b[1..], if c == "" then c else c[1..]);
      if b != "" && a[0] == b[0] && a != b {
        assert a == [a[0]] + a[1..] && b == [b[0]] + b[1..];
      }
    }
  }

  lemma OrdersAreTotal()
    ensures StrictTotal(IntLess)
    ensures StrictTotal(StringLess)
  {
    forall a: string, b: string, c: string
      ensures !StringLess(a, a)
      ensures StringLess(a, b) && StringLess(b, c) ==> StringLess(a, c)
      ensures a != b ==> StringLess(a, b) || StringLess(b, a)
    {
      StringLessLaws(a, b, c);
    }
  }
}
