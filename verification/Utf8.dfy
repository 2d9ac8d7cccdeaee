/** Well-formed UTF-8, after RFC 3629 section 4. */
module Utf8 {
  type Byte = b: int | 0 <= b < 256

  predicate Tail(b: Byte) {
    0x80 <= b <= 0xBF
  }

  /** utf8.RuneStart. */
  predicate RuneStart(b: Byte) {
    !Tail(b)
  }

  /** The length of the character s begins with, 0 if it begins with none. */
  function First(s: seq<Byte>): (n: nat)
    ensures n <= |s| && n <= 4
    ensures forall i :: 0 < i < n ==> Tail(s[i])
  {
    if |s| >= 1 && s[0] <= 0x7F then 1
    else if |s| >= 2 && 0xC2 <= s[0] <= 0xDF && Tail(s[1]) then 2
    else if |s| >= 3 && Tail(s[1]) && Tail(s[2])
            && (|| (s[0] == 0xE0 && s[1] >= 0xA0) || 0xE1 <= s[0] <= 0xEC
                || (s[0] == 0xED && s[1] <= 0x9F) || 0xEE <= s[0] <= 0xEF) then 3
    else if |s| >= 4 && Tail(s[1]) && Tail(s[2]) && Tail(s[3])
            && (|| (s[0] == 0xF0 && s[1] >= 0x90) || 0xF1 <= s[0] <= 0xF3 || (s[0] == 0xF4 && s[1] <= 0x8F)) then 4
    else 0
  }

  predicate Valid(s: seq<Byte>)
    decreases |s|
  {
    s == [] || (First(s) > 0 && Valid(s[First(s)..]))
  }

  /** A cut before the start of a character keeps what is left of it well formed. */
  lemma {:induction false} CutValid(s: seq<Byte>, cut: nat)
    requires Valid(s) && cut < |s| && RuneStart(s[cut])
    ensures Valid(s[..cut])
    decreases |s|
  {
    var n := First(s);
    if cut > 0 {
      assert n <= cut;
      CutValid(s[n..], cut - n);
      assert s[..cut][n..] == s[n..][..cut - n];
      FirstOfPrefix(s, cut);
    }
  }

  lemma FirstOfPrefix(s: seq<Byte>, k: nat)
    requires 0 < First(s) <= k <= |s|
    ensures First(s[..k]) == First(s)
  {
  }

  lemma {:induction false} ConcatValid(s: seq<Byte>, t: seq<Byte>)
    requires Valid(s) && Valid(t)
    ensures Valid(s + t)
    decreases |s|
  {
    if s == [] {
      assert s + t == t;
    } else {
      var n := First(s);
      FirstOfLonger(s, t);
      assert (s + t)[n..] == s[n..] + t;
      ConcatValid(s[n..], t);
    }
  }

  lemma FirstOfLonger(s: seq<Byte>, t: seq<Byte>)
    requires First(s) > 0
    ensures First(s + t) == First(s)
  {
  }

  /** A character has at most three bytes after its first. */
  lemma {:induction false} StartNearby(s: seq<Byte>, k: nat) returns (start: nat)
    requires Valid(s) && k < |s|
    ensures start <= k < start + 4 && RuneStart(s[start]) && forall i :: start < i <= k ==> Tail(s[i])
    decreases |s|
  {
    var n := First(s);
    if k < n {
      start := 0;
    } else {
      start := StartNearby(s[n..], k - n);
      start := start + n;
      forall i | start < i <= k ensures Tail(s[i]) {
        assert s[i] == s[n..][i - n];
      }
    }
  }
}
