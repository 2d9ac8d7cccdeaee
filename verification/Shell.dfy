/**
  How a shell splits a command line into commands and words: single quotes, backslashes, blanks and semicolons, after
  the Shell Command Language of IEEE Std 1003.1-2017, sections 2.2.1, 2.2.2 and 2.3. Anything else that is special to a
  shell makes the line unsupported here.
 */
module Shell {
  import opened Common

  datatype Mode = Gap | InWord(word: string) | Quoted(word: string)

  function Current(mode: Mode): string {
    match mode
    case Gap => ""
    case InWord(w) => w
    case Quoted(w) => w
  }

  predicate Blank(c: char) {
    c == ' ' || c == '\t'
  }

  /** Characters that stand for themselves outside quotes. */
  predicate Literal(c: char) {
    'a' <= c <= 'z' || 'A' <= c <= 'Z' || '0' <= c <= '9' || c in "_-/.:,+@%="
  }

  function Close(mode: Mode, command: seq<string>): seq<string> {
    if mode.Gap? then command else command + [mode.word]
  }

  /** The commands of a line, each as its words; command and mode are what has been read so far. */
  function Lex(s: string, mode: Mode, command: seq<string>): Option<seq<seq<string>>>
    decreases |s|
  {
    if s == "" then
      if mode.Quoted? then None
      else if Close(mode, command) == [] then Some([])
      else Some([Close(mode, command)])
    else
      var c, rest := s[0], s[1..];
      if mode.Quoted? then Lex(rest, if c == '\'' then InWord(mode.word) else Quoted(mode.word + [c]), command)
      else if Blank(c) then Lex(rest, Gap, Close(mode, command))
      else if c == '\'' then Lex(rest, Quoted(Current(mode)), command)
      else if c == '\\' then
        if rest == "" then None
        else if rest[0] == '\n' then Lex(rest[1..], mode, command)
        else Lex(rest[1..], InWord(Current(mode) + [rest[0]]), command)
      else if c == ';' then
        match (if Close(mode, command) == [] then None else Lex(rest, Gap, []))
        case None => None
        case Some(cs) => Some([Close(mode, command)] + cs)
      else if Literal(c) then Lex(rest, InWord(Current(mode) + [c]), command)
      else None
  }

  function Commands(s: string): Option<seq<seq<string>>> {
    Lex(s, Gap, [])
  }

  /** The words of a line that holds one command. */
  function Words(s: string): Option<seq<string>> {
    match Commands(s)
    case Some(cs) => if |cs| == 1 then Some(cs[0]) else None
    case None => None
  }

  predicate Plain(s: string) {
    s != "" && forall i :: 0 <= i < |s| ==> Literal(s[i])
  }

  lemma LexLiteral(c: char, tail: string, mode: Mode, command: seq<string>)
    requires !mode.Quoted? && Literal(c)
    ensures Lex([c] + tail, mode, command) == Lex(tail, InWord(Current(mode) + [c]), command)
  {
    assert ([c] + tail)[1..] == tail;
    assert !Blank(c) && c != '\'' && c != '\\' && c != ';';
  }

  /** Outside quotes, plain text joins the current word. */
  lemma {:induction false} LexPlain(p: string, tail: string, mode: Mode, command: seq<string>)
    requires !mode.Quoted? && Plain(p)
    ensures Lex(p + tail, mode, command) == Lex(tail, InWord(Current(mode) + p), command)
    decreases |p|
  {
    hide Lex, Literal;
    LexLiteral(p[0], p[1..] + tail, mode, command);
    assert p + tail == [p[0]] + (p[1..] + tail);
    if |p| == 1 {
      assert p == [p[0]] && p[1..] + tail == tail;
    } else {
      LexPlain(p[1..], tail, InWord(Current(mode) + [p[0]]), command);
      assert Current(mode) + [p[0]] + p[1..] == Current(mode) + p;
    }
  }

  /** A plain word and the blank after it. */
  lemma LexWord(p: string, tail: string, command: seq<string>)
    requires Plain(p)
    ensures Lex(p + (" " + tail), Gap, command) == Lex(tail, Gap, command + [p])
  {
    LexPlain(p, " " + tail, Gap, command);
    LexBlank(tail, InWord(p), command);
    hide Lex;
    assert "" + p == p;
  }

  /** Words, each with a blank after it. */
  function Spaced(words: seq<string>): string {
    if words == [] then "" else words[0] + (" " + Spaced(words[1..]))
  }

  lemma {:induction false} LexSpaced(words: seq<string>, tail: string, command: seq<string>)
    requires forall i :: 0 <= i < |words| ==> Plain(words[i])
    ensures Lex(Spaced(words) + tail, Gap, command) == Lex(tail, Gap, command + words)
  {
    hide Lex, Plain;
    if words == [] {
      assert Spaced(words) + tail == tail && command + words == command;
    } else {
      LexWord(words[0], Spaced(words[1..]) + tail, command);
      assert Spaced(words) + tail == words[0] + (" " + (Spaced(words[1..]) + tail));
      LexSpaced(words[1..], tail, command + [words[0]]);
      assert command + [words[0]] + words[1..] == command + words;
    }
  }

  lemma LexBlank(tail: string, mode: Mode, command: seq<string>)
    requires !mode.Quoted?
    ensures Lex(" " + tail, mode, command) == Lex(tail, Gap, Close(mode, command))
  {
    assert (" " + tail)[1..] == tail;
  }
}
