/** Which positions of a sequence a filter kept. */
module Positions {

  /** Positions of a sequence of length n, in order. */
  ghost predicate Ascending(at: seq<nat>, n: nat) {
    && (forall j, k :: 0 <= j < k < |at| ==> at[j] < at[k])
    && (forall j :: 0 <= j < |at| ==> at[j] < n)
  }

  function Moved(at: seq<nat>): (r: seq<nat>)
    ensures |r| == |at| && forall j :: 0 <= j < |at| ==> r[j] == at[j] + 1
  {
    seq(|at|, j requires 0 <= j < |at| => at[j] + 1)
  }

  lemma MovedHas(at: seq<nat>, i: nat)
    ensures i in Moved(at) <==> i > 0 && i - 1 in at
  {
    if i > 0 && i - 1 in at {
      var j :| 0 <= j < |at| && at[j] == i - 1;
      assert Moved(at)[j] == i;
    }
  }

  /** The positions kept of a tail, seen from the whole sequence, behind the first position if that is kept. */
  function Behind(keepFirst: bool, rest: seq<nat>): seq<nat> {
    (if keepFirst then [0] else []) + Moved(rest)
  }

  lemma BehindMeaning(keepFirst: bool, rest: seq<nat>, n: nat)
    requires Ascending(rest, n)
    ensures Ascending(Behind(keepFirst, rest), n + 1)
    ensures forall i: nat :: i in Behind(keepFirst, rest) <==> if i == 0 then keepFirst else i - 1 in rest
  {
    forall i: nat
      ensures i in Behind(keepFirst, rest) <==> if i == 0 then keepFirst else i - 1 in rest
    {
      MovedHas(rest, i);
      hide Moved;
    }
    hide Moved;
  }

  /** The positions kept of a front, and the last one if that is kept. */
  function Before(front: seq<nat>, keepLast: bool, last: nat): seq<nat> {
    if keepLast then front + [last] else front
  }

  lemma BeforeMeaning(front: seq<nat>, keepLast: bool, last: nat)
    requires Ascending(front, last)
    ensures Ascending(Before(front, keepLast, last), last + 1)
    ensures forall i: nat :: i in Before(front, keepLast, last) <==> if i == last then keepLast else i in front
  {
  }

  /** out lists the elements of s at these positions. */
  ghost predicate Lists<T>(out: seq<T>, s: seq<T>, at: seq<nat>) {
    |out| == |at| && forall j :: 0 <= j < |at| ==> at[j] < |s| && out[j] == s[at[j]]
  }

  lemma ListsBehind<T>(out: seq<T>, s: seq<T>, at: seq<nat>, keepFirst: bool)
    requires s != [] && Lists(out, s[1..], at)
    ensures Lists((if keepFirst then [s[0]] else []) + out, s, Behind(keepFirst, at))
  {
    forall j | 0 <= j < |at| ensures Moved(at)[j] < |s| && out[j] == s[Moved(at)[j]] {
      assert s[1..][at[j]] == s[at[j] + 1];
    }
    hide Moved;
  }
}
