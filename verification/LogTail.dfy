/**
  Following a child's log file, and the lines kept of it (jiradozer/orchestrator_logtail.go,
  jiradozer/orchestrator.go).
 */
module LogTail {
  import opened Common
  import opened Utf8
  import opened Positions

  const TAIL_RING_MAX: nat := 20
  const TAIL_LINE_MAX: nat := 2000
  const MAX_REOPEN_ATTEMPTS: nat := 3
  const NEWLINE: Byte := 10
  const ELLIPSIS: seq<Byte> := [0xE2, 0x80, 0xA6]

  // ----- the kept lines -----

  function TrimRight(line: seq<Byte>): seq<Byte> {
    if line != [] && line[|line| - 1] == NEWLINE then TrimRight(line[..|line| - 1]) else line
  }

  /** Back up from the byte cap to the start of the character it lands in. */
  function CutPoint(line: seq<Byte>, cut: nat): (r: nat)
    requires cut < |line|
    ensures r <= cut
  {
    if cut > 0 && !RuneStart(line[cut]) then CutPoint(line, cut - 1) else cut
  }

  function Capped(line: seq<Byte>): seq<Byte> {
    var t := TrimRight(line);
    if |t| > TAIL_LINE_MAX then t[..CutPoint(t, TAIL_LINE_MAX)] + ELLIPSIS else t
  }

  method CapTailLine(line: seq<Byte>) returns (capped: seq<Byte>)
    ensures capped == Capped(line)
  {
    var end := |line|;
    assert line[..end] == line;
    while end > 0 && line[end - 1] == NEWLINE
      invariant 0 <= end <= |line| && TrimRight(line[..end]) == TrimRight(line)
    {
      assert line[..end][..end - 1] == line[..end - 1];
      end := end - 1;
    }
    capped := line[..end];
    if capped == [] {
      return;
    }
    if |capped| > TAIL_LINE_MAX {
      var cut := TAIL_LINE_MAX;
      while cut > 0 && !RuneStart(capped[cut])
        invariant 0 <= cut <= TAIL_LINE_MAX && CutPoint(capped, cut) == CutPoint(capped, TAIL_LINE_MAX)
      {
        cut := cut - 1;
      }
      capped := capped[..cut] + ELLIPSIS;
    }
  }

  /**
    What is kept of any line: all of it but trailing newlines, or, past the cap, the part before the last character
    start at or below the cap, and an ellipsis.
   */
  lemma CappedMeaning(line: seq<Byte>) returns (n: nat, cut: nat)
    ensures n <= |line| && (forall i :: n <= i < |line| ==> line[i] == NEWLINE) && (n > 0 ==> line[n - 1] != NEWLINE)
    ensures n <= 2000 ==> Capped(line) == line[..n]
    ensures n > 2000 ==>
              && cut <= 2000 && Capped(line) == line[..cut] + ELLIPSIS
              && (cut > 0 ==> RuneStart(line[cut])) && forall i :: cut < i <= 2000 ==> !RuneStart(line[i])
  {
    n := TrimMeaning(line);
    if n > 2000 {
      cut := CutPoint(line[..n], 2000);
      CutMeaning(line[..n], 2000);
      assert line[..n][..cut] == line[..cut];
    } else {
      cut := 0;
    }
  }

  lemma {:induction false} TrimMeaning(line: seq<Byte>) returns (n: nat)
    ensures n <= |line| && TrimRight(line) == line[..n]
    ensures (forall i :: n <= i < |line| ==> line[i] == NEWLINE) && (n > 0 ==> line[n - 1] != NEWLINE)
    decreases |line|
  {
    n := |line|;
    if line != [] && line[|line| - 1] == NEWLINE {
      n := TrimMeaning(line[..|line| - 1]);
      assert line[..|line| - 1][..n] == line[..n];
    } else {
      assert line[..n] == line;
    }
  }

  lemma {:induction false} CutMeaning(line: seq<Byte>, cut: nat)
    requires cut < |line|
    ensures var r := CutPoint(line, cut);
            (r > 0 ==> RuneStart(line[r])) && forall i :: r < i <= cut ==> !RuneStart(line[i])
    decreases cut
  {
    if cut > 0 && !RuneStart(line[cut]) {
      CutMeaning(line, cut - 1);
    }
  }

  lemma {:induction false} TrimValid(line: seq<Byte>)
    requires Valid(line)
    ensures Valid(TrimRight(line))
    decreases |line|
  {
    if line != [] && line[|line| - 1] == NEWLINE {
      CutValid(line, |line| - 1);
      TrimValid(line[..|line| - 1]);
    }
  }

  lemma {:induction false} CutPointNearby(line: seq<Byte>, cut: nat, start: nat)
    requires start <= cut < |line| && RuneStart(line[start]) && forall i :: start < i <= cut ==> Tail(line[i])
    ensures CutPoint(line, cut) == start
    decreases cut
  {
    if start < cut {
      CutPointNearby(line, cut - 1, start);
    }
  }

  /** A well-formed line stays well formed; at most three bytes short of the cap are given up, and an ellipsis added. */
  lemma CappedStaysValid(line: seq<Byte>)
    requires Valid(line)
    ensures Valid(Capped(line))
    ensures |TrimRight(line)| <= TAIL_LINE_MAX ==> Capped(line) == TrimRight(line)
    ensures |TrimRight(line)| > TAIL_LINE_MAX ==>
              exists cut :: TAIL_LINE_MAX - 3 <= cut <= TAIL_LINE_MAX
                  && Capped(line) == TrimRight(line)[..cut] + ELLIPSIS
  {
    TrimValid(line);
    var t := TrimRight(line);
    if |t| > TAIL_LINE_MAX {
      var start := StartNearby(t, TAIL_LINE_MAX);
      CutPointNearby(t, TAIL_LINE_MAX, start);
      CutValid(t, start);
      EllipsisValid();
      ConcatValid(t[..start], ELLIPSIS);
    }
  }

  lemma EllipsisValid()
    ensures Valid(ELLIPSIS)
  {
    assert First(ELLIPSIS) == 3 && ELLIPSIS[3..] == [];
  }

  /** The fragments worth keeping, capped. */
  function Kept(fragments: seq<seq<Byte>>): seq<seq<Byte>> {
    if fragments == [] then []
    else
      var before := Kept(fragments[..|fragments| - 1]);
      var line := Capped(fragments[|fragments| - 1]);
      if line == [] then before else before + [line]
  }

  /** The kept lines are the capped fragments that are not blank, each well formed when its fragment is. */
  lemma {:induction false} KeptMeaning(fragments: seq<seq<Byte>>, line: seq<Byte>)
    ensures line in Kept(fragments) <==> line != [] && exists f :: f in fragments && line == Capped(f)
    ensures forall f :: f in fragments && Valid(f) ==> Valid(Capped(f))
  {
    if fragments != [] {
      var front, f := fragments[..|fragments| - 1], fragments[|fragments| - 1];
      KeptMeaning(front, line);
      assert fragments == front + [f];
      if Valid(f) {
        CappedStaysValid(f);
      }
      hide Valid, Capped;
    }
  }

  /** The kept lines by position: one for each fragment that is not blank, in order. */
  lemma {:induction false} KeptByPosition(fragments: seq<seq<Byte>>) returns (at: seq<nat>)
    ensures Ascending(at, |fragments|)
    ensures forall i: nat :: i in at <==> i < |fragments| && Capped(fragments[i]) != []
    ensures Holds(Kept(fragments), fragments, at)
  {
    hide Capped;
    at := [];
    if fragments != [] {
      var n := |fragments| - 1;
      var front := KeptByPosition(fragments[..n]);
      var keep := Capped(fragments[n]) != [];
      BeforeMeaning(front, keep, n);
      at := Before(front, keep, n);
      HoldsOneMore(Kept(fragments[..n]), fragments[..n], fragments[n], front);
      assert fragments == fragments[..n] + [fragments[n]];
      hide Ascending, Holds;
    }
  }

  /** out is what is kept of the fragments at these positions, in order. */
  ghost predicate Holds(out: seq<seq<Byte>>, fragments: seq<seq<Byte>>, at: seq<nat>) {
    |out| == |at| && forall j :: 0 <= j < |at| ==> at[j] < |fragments| && out[j] == Capped(fragments[at[j]])
  }

  lemma HoldsOneMore(out: seq<seq<Byte>>, front: seq<seq<Byte>>, f: seq<Byte>, at: seq<nat>)
    requires Holds(out, front, at)
    ensures Holds(out, front + [f], at) && Holds(out + [Capped(f)], front + [f], at + [|front|])
  {
    hide Capped;
  }

  function LastOf(lines: seq<seq<Byte>>, n: nat): seq<seq<Byte>> {
    if |lines| <= n then lines else lines[|lines| - n..]
  }

  lemma HoldsLast(out: seq<seq<Byte>>, fragments: seq<seq<Byte>>, at: seq<nat>, n: nat)
    requires Holds(out, fragments, at)
    ensures |LastOf(out, n)| == if |at| < n then |at| else n
    ensures Holds(LastOf(out, n), fragments, at[|at| - |LastOf(out, n)|..])
  {
    hide Capped;
    var k := |at| - |LastOf(out, n)|;
    assert LastOf(out, n) == out[k..];
  }

  function Concat(fragments: seq<seq<Byte>>): seq<Byte> {
    if fragments == [] then [] else Concat(fragments[..|fragments| - 1]) + fragments[|fragments| - 1]
  }

  // ----- reading -----

  datatype ReadError = NoError | EndOfFile | Broken

  /**
    What happens around one read: bytes the child has written since, how far into the file a fill would get, the error
    it would end with, and the answers to a stop request, a reopen and a seek.
   */
  datatype Reply = Reply(grown: seq<Byte>, reach: nat, broken: bool, stop: bool, stopWhileWaiting: bool, opens: bool,
      seeks: bool)

  /** A buffered reader on the log: the bytes of the file from next to filled are in its buffer. */
  class Reader {
    var next: nat
    var filled: nat

    constructor (position: nat)
      ensures next == filled == position
    {
      next, filled := position, position;
    }

    /** ReadString('\\n'): a whole line if one can be buffered, otherwise everything buffered and the error. */
    method ReadLine(file: seq<Byte>, r: Reply) returns (line: seq<Byte>, err: ReadError)
      requires next <= filled <= |file|
      modifies this
      ensures old(next) <= next <= filled <= |file| && line == file[old(next)..next]
      ensures err == NoError ==> line != [] && line[|line| - 1] == NEWLINE && NEWLINE !in line[..|line| - 1]
      ensures err != NoError ==> r.reach <= next || next == |file|
      ensures err != NoError ==> next == filled && NEWLINE !in line && err == if r.broken then Broken else EndOfFile
    {
      var buffered := file[next..filled];
      var at := IndexOfNewline(buffered);
      if at.None? {
        if filled < r.reach {
          filled := if r.reach <= |file| then r.reach else |file|;
        }
        buffered := file[next..filled];
        at := IndexOfNewline(buffered);
      }
      if at.Some? {
        line := buffered[..at.value + 1];
        assert line[..at.value] == buffered[..at.value];
        next := next + at.value + 1;
        err := NoError;
      } else {
        line := buffered;
        next := filled;
        err := if r.broken then Broken else EndOfFile;
      }
    }
  }

  method IndexOfNewline(s: seq<Byte>) returns (at: Option<nat>)
    ensures at.Some? ==> at.value < |s| && s[at.value] == NEWLINE && NEWLINE !in s[..at.value]
    ensures at.None? ==> NEWLINE !in s
  {
    for i := 0 to |s|
      invariant NEWLINE !in s[..i]
    {
      if s[i] == NEWLINE {
        return Some(i);
      }
    }
    return None;
  }

  datatype Ending = OpenFailed | Stopped | GaveUp | ReopenFailed | SeekFailed

  /** The file after the first replies. */
  function FileAfter(file: seq<Byte>, replies: seq<Reply>): seq<Byte> {
    if replies == [] then file else FileAfter(file, replies[..|replies| - 1]) + replies[|replies| - 1].grown
  }

  function LastMark(marks: seq<nat>): nat {
    if marks == [] then 0 else marks[|marks| - 1]
  }

  /**
    A read from one mark to the next hands on one line, or everything it can reach and an error; only its last byte can
    be a newline.
   */
  ghost predicate ReadAt(file: seq<Byte>, from: nat, to: nat, err: ReadError, r: Reply) {
    && from <= to <= |file|
    && (forall i :: from <= i < to - 1 ==> file[i] != NEWLINE)
    && (err == NoError <==> from < to && file[to - 1] == NEWLINE)
    && (err != NoError ==> (r.reach <= to || to == |file|) && err == if r.broken then Broken else EndOfFile)
  }

  ghost predicate ReadsOn(start: seq<Byte>, replies: seq<Reply>, marks: seq<nat>, errors: seq<ReadError>) {
    && |marks| == |errors| <= |replies|
    && forall k :: 0 <= k < |marks| ==>
         ReadAt(FileAfter(start, replies[..k + 1]), LastMark(marks[..k]), marks[k], errors[k], replies[k])
  }

  /** What the reads handed on, one piece for each that moved. */
  function Pieces(start: seq<Byte>, replies: seq<Reply>, marks: seq<nat>): seq<seq<Byte>> {
    if marks == [] || |replies| < |marks| then []
    else
      var n := |marks| - 1;
      var file, from, to := FileAfter(start, replies[..n + 1]), LastMark(marks[..n]), marks[n];
      Pieces(start, replies, marks[..n]) + (if from < to <= |file| then [file[from..to]] else [])
  }

  lemma NothingRead(start: seq<Byte>, replies: seq<Reply>)
    ensures ReadsOn(start, replies, [], []) && LastMark([]) == 0 && Pieces(start, replies, []) == []
    ensures FileAfter(start, replies[..0]) == start
  {
  }

  lemma Marked(marks: seq<nat>, offset: nat)
    ensures LastMark(marks + [offset]) == offset
  {
  }

  lemma FileGrows(start: seq<Byte>, replies: seq<Reply>, k: nat)
    requires k < |replies|
    ensures FileAfter(start, replies[..k + 1]) == FileAfter(start, replies[..k]) + replies[k].grown
  {
    assert replies[..k + 1][..k] == replies[..k];
  }

  lemma ReadMore(start: seq<Byte>, replies: seq<Reply>, marks: seq<nat>, errors: seq<ReadError>, to: nat,
                 err: ReadError)
    requires ReadsOn(start, replies, marks, errors) && |marks| < |replies|
    requires ReadAt(FileAfter(start, replies[..|marks| + 1]), LastMark(marks), to, err, replies[|marks|])
    ensures ReadsOn(start, replies, marks + [to], errors + [err])
    ensures Pieces(start, replies, marks + [to]) == Pieces(start, replies, marks)
              + if LastMark(marks) < to then [FileAfter(start, replies[..|marks| + 1])[LastMark(marks)..to]] else []
  {
    hide ReadAt;
    var longer := marks + [to];
    forall k | 0 <= k < |longer| ensures longer[..k] == marks[..k] {
    }
    assert marks[..|marks|] == marks;
    assert ReadAt(FileAfter(start, replies[..|marks| + 1]), LastMark(marks), to, err, replies[|marks|]);
    ReadWithin(FileAfter(start, replies[..|marks| + 1]), LastMark(marks), to, err, replies[|marks|]);
  }

  lemma ReadWithin(file: seq<Byte>, from: nat, to: nat, err: ReadError, r: Reply)
    requires ReadAt(file, from, to, err, r)
    ensures from <= to <= |file|
  {
  }

  /** The tailing goes on after a read: it gave a line, or waiting and reopening went through. */
  predicate GoesOn(r: Reply, err: ReadError) {
    err == NoError || (!r.stopWhileWaiting && (err == Broken ==> r.opens && r.seeks))
  }

  /** How the tailing ended after reading so often: not before it had to, and for the reason it gives. */
  ghost predicate Ends(replies: seq<Reply>, errors: seq<ReadError>, ending: Ending) {
    var n, breaks := |errors|, multiset(errors)[Broken];
    && n <= |replies| && breaks <= MAX_REOPEN_ATTEMPTS + 1
    && (forall k :: 0 <= k < n ==> !replies[k].stop)
    && (forall k :: 0 <= k < n - 1 ==> GoesOn(replies[k], errors[k]))
    && if breaks == MAX_REOPEN_ATTEMPTS + 1 then ending == GaveUp && errors[n - 1] == Broken
       else if n == 0 || GoesOn(replies[n - 1], errors[n - 1])
       then ending == Stopped && (n == |replies| || replies[n].stop)
       else if replies[n - 1].stopWhileWaiting then ending == Stopped
       else ending == if replies[n - 1].opens then SeekFailed else ReopenFailed
  }

  /** So far nothing ended the tailing. */
  ghost predicate Underway(replies: seq<Reply>, errors: seq<ReadError>) {
    && |errors| <= |replies| && multiset(errors)[Broken] <= MAX_REOPEN_ATTEMPTS
    && forall k :: 0 <= k < |errors| ==> !replies[k].stop && GoesOn(replies[k], errors[k])
  }

  lemma StopsBetween(replies: seq<Reply>, errors: seq<ReadError>)
    requires Underway(replies, errors) && (|errors| == |replies| || replies[|errors|].stop)
    ensures Ends(replies, errors, Stopped)
  {
  }

  /** How the next read can end the tailing. */
  lemma AfterRead(replies: seq<Reply>, before: seq<ReadError>, err: ReadError)
    requires Underway(replies, before) && |before| < |replies| && !replies[|before|].stop
    ensures var errors, r := before + [err], replies[|before|];
            var breaks := multiset(errors)[Broken];
            && breaks == multiset(before)[Broken] + (if err == Broken then 1 else 0)
            && (breaks <= MAX_REOPEN_ATTEMPTS && GoesOn(r, err) ==> Underway(replies, errors))
            && (breaks > MAX_REOPEN_ATTEMPTS ==> Ends(replies, errors, GaveUp))
            && (breaks <= MAX_REOPEN_ATTEMPTS && !GoesOn(r, err) ==>
                  Ends(replies, errors, if r.stopWhileWaiting then Stopped
                                        else if r.opens then SeekFailed else ReopenFailed))
  {
    var errors := before + [err];
    assert forall k :: 0 <= k < |before| ==> errors[k] == before[k];
    hide GoesOn;
  }

  class Tailer {
    var tailRing: seq<seq<Byte>>
    /** What was handed on, in order. */
    ghost var fragments: seq<seq<Byte>>
    ghost var offset: nat
    /** The offset after each read, and the error it ended with. */
    ghost var marks: seq<nat>
    ghost var errors: seq<ReadError>

    constructor ()
      ensures Untouched()
    {
      tailRing, fragments, offset, marks, errors := [], [], 0, [], [];
    }

    ghost predicate Untouched()
      reads this
    {
      tailRing == [] && fragments == [] && offset == 0 && marks == [] && errors == []
    }

    ghost predicate RingRight()
      reads this`tailRing, this`fragments
    {
      tailRing == LastOf(Kept(fragments), TAIL_RING_MAX)
    }

    /**
      The ring by position: at lists the fragments that are not blank, and the ring holds what is kept of the last 20 of
      them, oldest first.
     */
    lemma RingByPosition() returns (at: seq<nat>)
      requires RingRight()
      ensures Ascending(at, |fragments|)
      ensures forall i: nat :: i in at <==> i < |fragments| && Capped(fragments[i]) != []
      ensures |tailRing| == if |at| < 20 then |at| else 20
      ensures Holds(tailRing, fragments, at[|at| - |tailRing|..])
    {
      hide Capped, Kept, Holds, Ascending;
      at := KeptByPosition(fragments);
      HoldsLast(Kept(fragments), fragments, at, 20);
    }

    lemma InitiallyEmpty()
      requires tailRing == [] && fragments == []
      ensures RingRight() && Concat(fragments) == []
    {
    }

    method AppendTail(fragment: seq<Byte>)
      requires RingRight()
      modifies this`tailRing, this`fragments
      ensures fragments == old(fragments) + [fragment] && RingRight()
      ensures Concat(fragments) == old(Concat(fragments)) + fragment
    {
      ghost var before := fragments;
      fragments := fragments + [fragment];
      assert fragments[..|fragments| - 1] == before;
      var line := CapTailLine(fragment);
      if line == [] {
        return;
      }
      tailRing := tailRing + [line];
      if |tailRing| > TAIL_RING_MAX {
        tailRing := tailRing[|tailRing| - TAIL_RING_MAX..];
      }
    }

    /** One read, handed on. */
    method ReadOnce(reader: Reader, file: seq<Byte>, r: Reply, position: nat) returns (moved: nat, err: ReadError)
      requires reader.next == position == offset && offset <= reader.filled <= |file|
      requires Concat(fragments) == file[..offset] && [] !in fragments && RingRight()
      modifies reader, this`tailRing, this`fragments, this`offset
      ensures reader.next == moved == offset && offset <= reader.filled <= |file|
      ensures Concat(fragments) == file[..offset] && [] !in fragments && RingRight()
      ensures ReadAt(file, old(offset), offset, err, r)
      ensures fragments == old(fragments) + if old(offset) < offset then [file[old(offset)..offset]] else []
    {
      hide Kept, LastOf, Concat, RingRight;
      var line;
      line, err := reader.ReadLine(file, r);
      moved := position;
      if line != [] {
        AppendTail(line);
        assert file[..position + |line|] == file[..position] + line;
        moved := moved + |line|;
        offset := moved;
      }
      assert forall i :: 0 <= i < |line| ==> line[i] == file[position + i];
    }

    /**
      After reads that ended at marks with errors, the fragments handed on are what the reads gave, one line or rest at
      a time, and together exactly the first offset bytes of the file.
     */
    ghost predicate Tailed(start: seq<Byte>, replies: seq<Reply>)
      reads this
    {
      && |marks| == |errors| <= |replies| && offset == LastMark(marks) && ReadsOn(start, replies, marks, errors)
      && fragments == Pieces(start, replies, marks) && [] !in fragments && RingRight()
      && offset <= |FileAfter(start, replies[..|marks|])|
      && Concat(fragments) == FileAfter(start, replies[..|marks|])[..offset]
    }

    /** The next read of the file as it is by then. */
    method ReadNext(reader: Reader, start: seq<Byte>, replies: seq<Reply>, n: nat, file: seq<Byte>, position: nat)
      returns (moved: nat, err: ReadError)
      requires Tailed(start, replies) && |errors| == n < |replies| && file == FileAfter(start, replies[..n + 1])
      requires reader.next == position == offset && offset <= reader.filled <= |file|
      modifies reader, this
      ensures Tailed(start, replies) && errors == old(errors) + [err]
      ensures reader.next == moved == offset && offset <= reader.filled <= |file|
    {
      hide Kept, LastOf, Concat, RingRight, ReadsOn, ReadAt, Pieces, FileAfter, LastMark;
      FileGrows(start, replies, n);
      assert file[..offset] == FileAfter(start, replies[..n])[..offset];
      moved, err := ReadOnce(reader, file, replies[n], position);
      ReadMore(start, replies, marks, errors, offset, err);
      Marked(marks, offset);
      marks, errors := marks + [offset], errors + [err];
    }

    /**
      The tailing loop. Whatever is appended, however reads fail and whenever it stops, nothing is replayed or skipped
      across reopens, and it ends when and why it has to.
     */
    method TailSubprocessLog(opens: bool, start: seq<Byte>, replies: seq<Reply>) returns (ending: Ending)
      requires Untouched()
      modifies this
      ensures Tailed(start, replies)
      ensures if opens then Ends(replies, errors, ending) else ending == OpenFailed && errors == []
    {
      hide Tailed, FileAfter, Ends, Underway;
      StartsTailed(start, replies);
      if !opens {
        return OpenFailed;
      }
      var seen, file := 0, start;
      var position, reopens := 0, 0;
      var reader := new Reader(0);
      while seen < |replies|
        invariant Tailed(start, replies) && |errors| == seen <= |replies| && file == FileAfter(start, replies[..seen])
        invariant fresh(reader) && reader.next == position == offset <= reader.filled <= |file|
        invariant reopens == multiset(errors)[Broken] <= MAX_REOPEN_ATTEMPTS && Underway(replies, errors)
      {
        var r := replies[seen];
        if r.stop {
          StopsBetween(replies, errors);
          return Stopped;
        }
        FileGrows(start, replies, seen);
        file := file + r.grown;
        ghost var before := errors;
        var err: ReadError;
        position, err := ReadNext(reader, start, replies, seen, file, position);
        seen := seen + 1;
        AfterRead(replies, before, err);
        if err == Broken {
          reopens := reopens + 1;
          if reopens > MAX_REOPEN_ATTEMPTS {
            return GaveUp;
          }
          if r.stopWhileWaiting {
            return Stopped;
          }
          if !r.opens {
            return ReopenFailed;
          }
          if !r.seeks {
            return SeekFailed;
          }
          reader := new Reader(position);
        } else if err == EndOfFile && r.stopWhileWaiting {
          return Stopped;
        }
      }
      StopsBetween(replies, errors);
      return Stopped;
    }

    lemma StartsTailed(start: seq<Byte>, replies: seq<Reply>)
      requires Untouched()
      ensures Tailed(start, replies) && FileAfter(start, replies[..0]) == start && Underway(replies, errors)
    {
      NothingRead(start, replies);
    }
  }
}
