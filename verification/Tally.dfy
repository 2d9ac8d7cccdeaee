/** A counter that some events raise and others clear, told from the events alone. */
module Tally {

  datatype Mark = Up | Clear | Keep

  /** The raises after the last clearing. */
  function Since(marks: seq<Mark>): nat {
    if marks == [] then 0 else (if marks[0] == Up && Clear !in marks[1..] then 1 else 0) + Since(marks[1..])
  }

  /** Where a counter that began at start stands. */
  function Count(start: nat, marks: seq<Mark>): nat {
    Since(marks) + if Clear in marks then 0 else start
  }

  function Step(count: nat, mark: Mark): nat {
    match mark
    case Up => count + 1
    case Clear => 0
    case Keep => count
  }

  lemma CountFirst(start: nat, mark: Mark, rest: seq<Mark>)
    ensures Count(start, [mark] + rest) == Count(Step(start, mark), rest)
    ensures Count(start, []) == start
  {
    assert ([mark] + rest)[1..] == rest;
  }

  /** Whether a count is positive depends on no more of its start. */
  lemma CountSign(a: nat, b: nat, marks: seq<Mark>)
    requires a > 0 <==> b > 0
    ensures Count(a, marks) > 0 <==> Count(b, marks) > 0
  {
  }
}
