/**
  The command line that hands a run to another machine, and what the shells on its way make of it (fleet/dispatch.go).
 */
module Dispatch {
  import opened Common
  import opened Shell

  /** pathEnv is what remotePathEnv derived, empty when nothing could be. */
  datatype Request = Request(sessionName: string, args: seq<string>, binaryPath: string, pathEnv: string,
      target: string)

  /** strings.ReplaceAll(s, "'", `'\''`). */
  function Escape(s: string): string {
    if s == "" then "" else (if s[0] == '\'' then "'\\''" else [s[0]]) + Escape(s[1..])
  }

  function ShellQuote(s: string): string {
    "'" + Escape(s) + "'"
  }

  function Quoted(args: seq<string>): string {
    if args == [] then "" else " " + ShellQuote(args[0]) + Quoted(args[1..])
  }

  /** The fixed words of the three commands. */
  const SSH_WORDS: seq<string> :=
    ["ssh", "-o", "BatchMode=yes", "-o", "ConnectTimeout=8", "-o", "StrictHostKeyChecking=accept-new"]
  const TMUX_WORDS: seq<string> := ["tmux", "new-session", "-d", "-s"]
  const SH_WORDS: seq<string> := ["sh", "-c"]

  /** The command that sh -c gets. */
  function Inner(r: Request): string {
    var cmd := r.binaryPath + Quoted(r.args);
    if r.pathEnv == "" then cmd else "export PATH=" + ShellQuote(r.pathEnv) + "; exec " + cmd
  }

  function Remote(r: Request): string {
    Spaced(TMUX_WORDS) + ShellQuote(r.sessionName) + " " + ShellQuote(Spaced(SH_WORDS) + ShellQuote(Inner(r)))
  }

  function Ssh(r: Request): string {
    Spaced(SSH_WORDS) + r.target + " " + ShellQuote(Remote(r))
  }

  function Join(parts: seq<string>, sep: string): string {
    if parts == [] then "" else if |parts| == 1 then parts[0] else parts[0] + sep + Join(parts[1..], sep)
  }

  lemma {:induction false} JoinAppends(parts: seq<string>, part: string)
    requires parts != []
    ensures Join(parts + [part], " ") == Join(parts, " ") + " " + part
  {
    assert (parts + [part])[1..] == parts[1..] + [part];
    if |parts| > 1 {
      JoinAppends(parts[1..], part);
    }
  }

  lemma {:induction false} QuotedAppends(args: seq<string>, arg: string)
    ensures Quoted(args + [arg]) == Quoted(args) + " " + ShellQuote(arg)
  {
    if args == [] {
      assert [arg][1..] == [];
    } else {
      assert (args + [arg])[1..] == args[1..] + [arg];
      QuotedAppends(args[1..], arg);
    }
  }

  method RemoteCommand(r: Request) returns (s: string)
    ensures s == Remote(r)
  {
    var inner := [r.binaryPath];
    for i := 0 to |r.args|
      invariant inner != [] && Join(inner, " ") == r.binaryPath + Quoted(r.args[..i])
    {
      assert r.args[..i + 1] == r.args[..i] + [r.args[i]];
      JoinAppends(inner, ShellQuote(r.args[i]));
      QuotedAppends(r.args[..i], r.args[i]);
      inner := inner + [ShellQuote(r.args[i])];
    }
    assert r.args[..|r.args|] == r.args;
    var cmd := Join(inner, " ");
    if r.pathEnv != "" {
      cmd := "export PATH=" + ShellQuote(r.pathEnv) + "; exec " + cmd;
    }
    s := Spaced(TMUX_WORDS) + ShellQuote(r.sessionName) + " " + ShellQuote(Spaced(SH_WORDS) + ShellQuote(cmd));
  }

  method SSHCommand(r: Request) returns (s: string)
    ensures s == Ssh(r)
  {
    var remote := RemoteCommand(r);
    s := Spaced(SSH_WORDS) + r.target + " " + ShellQuote(remote);
  }

  // ----- quoting is undone by the shell -----

  lemma {:induction false} LexEscaped(s: string, tail: string, w: string, command: seq<string>)
    ensures Lex(Escape(s) + "'" + tail, Mode.Quoted(w), command) == Lex(tail, InWord(w + s), command)
    decreases |s|
  {
    if s == "" {
      assert ("" + "'" + tail)[1..] == tail && w + s == w;
    } else {
      var rest := Escape(s[1..]) + "'" + tail;
      assert w + [s[0]] + s[1..] == w + s;
      LexEscaped(s[1..], tail, w + [s[0]], command);
      if s[0] == '\'' {
        LexQuoteMark(rest, w, command);
        assert Escape(s) + "'" + tail == "'\\''" + rest;
      } else {
        assert Escape(s) + "'" + tail == [s[0]] + rest;
        assert ([s[0]] + rest)[1..] == rest;
      }
    }
  }

  /** Leave the quotes, an escaped quote mark, and back into quotes. */
  lemma LexQuoteMark(rest: string, w: string, command: seq<string>)
    ensures Lex("'\\''" + rest, Mode.Quoted(w), command) == Lex(rest, Mode.Quoted(w + "'"), command)
  {
    var s := "'\\''" + rest;
    assert s[1..] == "\\''" + rest;
    assert ("\\''" + rest)[1..] == "''" + rest && ("''" + rest)[1..] == "'" + rest && ("'" + rest)[1..] == rest;
    assert Lex(s, Mode.Quoted(w), command) == Lex("\\''" + rest, InWord(w), command);
    assert Lex("\\''" + rest, InWord(w), command) == Lex("'" + rest, InWord(w + "'"), command);
  }

  /** A quoted value is read back as itself, joined to whatever word it stands in. */
  lemma LexQuoted(s: string, tail: string, mode: Mode, command: seq<string>)
    requires !mode.Quoted?
    ensures Lex(ShellQuote(s) + tail, mode, command) == Lex(tail, InWord(Current(mode) + s), command)
  {
    assert ShellQuote(s) + tail == "'" + (Escape(s) + "'" + tail);
    assert ("'" + (Escape(s) + "'" + tail))[1..] == Escape(s) + "'" + tail;
    LexEscaped(s, tail, Current(mode), command);
  }

  /** The end of a word and a quoted word after it. */
  lemma {:induction false} LexArgs(args: seq<string>, w: string, command: seq<string>)
    ensures Lex(Quoted(args), InWord(w), command) == Some([command + [w] + args])
    decreases |args|
  {
    if args == [] {
      assert command + [w] + args == command + [w];
    } else {
      var rest := Quoted(args[1..]);
      assert Quoted(args) == " " + (ShellQuote(args[0]) + rest);
      LexBlank(ShellQuote(args[0]) + rest, InWord(w), command);
      LexQuoted(args[0], rest, Gap, command + [w]);
      assert "" + args[0] == args[0];
      LexArgs(args[1..], args[0], command + [w]);
      assert command + [w] + [args[0]] + args[1..] == command + [w] + args;
    }
  }

  /** shellQuote and a shell are inverse on every string. */
  lemma QuoteRoundTrip(s: string)
    ensures Words(ShellQuote(s)) == Some([s])
  {
    QuotedEnds(s, []);
    assert [] + [s] == [s];
  }

  lemma QuotedEnds(s: string, command: seq<string>)
    ensures Lex(ShellQuote(s), Gap, command) == Some([command + [s]])
  {
    LexQuoted(s, "", Gap, command);
    assert ShellQuote(s) + "" == ShellQuote(s) && "" + s == s;
  }

  lemma FixedWordsPlain()
    ensures forall i :: 0 <= i < |SSH_WORDS| ==> Plain(SSH_WORDS[i])
    ensures forall i :: 0 <= i < |TMUX_WORDS| ==> Plain(TMUX_WORDS[i])
    ensures forall i :: 0 <= i < |SH_WORDS| ==> Plain(SH_WORDS[i])
  {
  }

  /** A line of fixed words and one quoted word. */
  lemma LineWithQuoted(words: seq<string>, s: string)
    requires forall i :: 0 <= i < |words| ==> Plain(words[i])
    ensures Words(Spaced(words) + ShellQuote(s)) == Some(words + [s])
  {
    hide Lex, Plain, ShellQuote;
    LexSpaced(words, ShellQuote(s), []);
    QuotedEnds(s, [] + words);
    assert [] + words == words;
  }

  // ----- what each program makes of its words -----

  datatype SshCall = SshCall(options: seq<string>, target: string, command: string)

  /** ssh: options with a value, the destination, and the remote command, whose words ssh joins with blanks. */
  function SshParts(words: seq<string>): Option<SshCall> {
    if |words| >= 2 && words[0] == "-o" then
      match SshParts(words[2..])
      case None => None
      case Some(call) => Some(call.(options := [words[1]] + call.options))
    else if |words| >= 2 && words[0] != "" && words[0][0] != '-' then Some(SshCall([], words[0], Join(words[1..], " ")))
    else None
  }

  /** tmux new-session -d -s NAME COMMAND runs COMMAND with a shell. */
  function TmuxParts(words: seq<string>): Option<(string, string)> {
    if |words| == 6 && words[..4] == ["tmux", "new-session", "-d", "-s"] then Some((words[4], words[5])) else None
  }

  function ShScript(words: seq<string>): Option<string> {
    if |words| == 3 && words[..2] == ["sh", "-c"] then Some(words[2]) else None
  }

  /** A program started with some PATH of its own or the inherited one. */
  datatype Launch = Launch(path: Option<string>, argv: seq<string>)

  /** Names a shell may take for itself: reserved words, special builtins and the utilities shells build in. */
  const SPECIAL: set<string> :=
    {"case", "do", "done", "elif", "else", "esac", "fi", "for", "if", "in", "then", "until", "while",
     ".", ":", "break", "continue", "eval", "exec", "exit", "export", "readonly", "return", "set", "shift", "times",
         "trap",
     "unset", "alias", "bg", "cd", "command", "echo", "false", "fc", "fg", "getopts", "hash", "jobs", "kill", "newgrp",
     "printf", "pwd", "read", "test", "true", "type", "ulimit", "umask", "unalias", "wait"}

  /** A command name a shell runs as a program: no assignment, no option of exec, and a path or no name of its own. */
  predicate Program(name: string) {
    name != "" && name[0] != '-' && '=' !in name && ('/' in name || name !in SPECIAL)
  }

  function Interpret(commands: seq<seq<string>>): Option<Launch> {
    if |commands| == 1 && |commands[0]| > 0 && Program(commands[0][0]) then Some(Launch(None, commands[0]))
    else if && |commands| == 2 && |commands[0]| == 2 && commands[0][0] == "export" && "PATH=" <= commands[0][1]
            && |commands[1]| > 1 && commands[1][0] == "exec" && Program(commands[1][1])
    then Some(Launch(Some(commands[0][1][5..]), commands[1][1..]))
    else None
  }

  datatype Delivery = Delivery(options: seq<string>, target: string, session: string, launch: Launch)

  /** What the remote machine's login shell, tmux, its shell and sh -c run for a remote command line. */
  function RunRemote(s: string): Option<(string, Launch)> {
    match Words(s)
    case None => None
    case Some(words) =>
      match TmuxParts(words)
      case None => None
      case Some(parts) =>
        match Words(parts.1)
        case None => None
        case Some(inner) =>
          match ShScript(inner)
          case None => None
          case Some(script) =>
            match Commands(script)
            case None => None
            case Some(commands) =>
              match Interpret(commands)
              case None => None
              case Some(launch) => Some((parts.0, launch))
  }

  function RunLocal(s: string): Option<Delivery> {
    match Words(s)
    case None => None
    case Some(words) =>
      match (if |words| > 0 && words[0] == "ssh" then SshParts(words[1..]) else None)
      case None => None
      case Some(parts) =>
        match RunRemote(parts.command)
        case None => None
        case Some(run) => Some(Delivery(parts.options, parts.target, run.0, run.1))
  }

  // ----- the layers, innermost first -----

  /** The destination and the binary need no quotes; a PATH is only derived from an absolute path. */
  predicate Dispatchable(r: Request) {
    && Plain(r.binaryPath) && (r.pathEnv != "" ==> r.binaryPath[0] == '/')
    && Plain(r.target) && r.target[0] != '-'
  }

  function Wanted(r: Request): Launch {
    Launch(if r.pathEnv == "" then None else Some(r.pathEnv), [r.binaryPath] + r.args)
  }

  lemma BinaryAndArgs(r: Request, command: seq<string>)
    requires Plain(r.binaryPath)
    ensures Lex(r.binaryPath + Quoted(r.args), Gap, command) == Some([command + [r.binaryPath] + r.args])
  {
    LexPlain(r.binaryPath, Quoted(r.args), Gap, command);
    LexArgs(r.args, r.binaryPath, command);
    assert "" + r.binaryPath == r.binaryPath;
  }

  lemma PathPrefix(path: string, tail: string)
    ensures Lex("export PATH=" + ShellQuote(path) + "; exec " + tail, Gap, []) ==
            match Lex(tail, Gap, ["exec"])
            case None => None
            case Some(cs) => Some([["export", "PATH=" + path]] + cs)
  {
    var afterPath := "; exec " + tail;
    var quoted := ShellQuote(path) + afterPath;
    assert Plain("export") && Plain("PATH=") && Plain("exec");
    assert "export PATH=" + ShellQuote(path) + "; exec " + tail == "export" + (" " + ("PATH=" + quoted));
    assert "; exec " + tail == ";" + (" " + ("exec" + (" " + tail)));
    hide Lex, Plain, ShellQuote;
    LexWord("export", "PATH=" + quoted, []);
    LexPlain("PATH=", quoted, Gap, ["export"]);
    assert "" + "PATH=" == "PATH=" && [] + ["export"] == ["export"];
    LexQuoted(path, afterPath, InWord("PATH="), ["export"]);
    LexSemicolon(" " + ("exec" + (" " + tail)), "PATH=" + path, ["export"]);
    LexBlank("exec" + (" " + tail), Gap, []);
    LexWord("exec", tail, []);
    assert ["export"] + ["PATH=" + path] == ["export", "PATH=" + path] && [] + ["exec"] == ["exec"];
  }

  lemma LexSemicolon(rest: string, w: string, command: seq<string>)
    ensures Lex(";" + rest, InWord(w), command) ==
            match Lex(rest, Gap, [])
            case None => None
            case Some(cs) => Some([command + [w]] + cs)
  {
    assert (";" + rest)[1..] == rest;
  }

  lemma InnerRuns(r: Request)
    requires Dispatchable(r)
    ensures Commands(Inner(r)).Some?
    ensures Interpret(Commands(Inner(r)).value) == if Program(r.binaryPath) then Some(Wanted(r)) else None
  {
    var cmd := r.binaryPath + Quoted(r.args);
    hide Lex, Plain, ShellQuote, Quoted, Program;
    if r.pathEnv == "" {
      BinaryAndArgs(r, []);
      assert [] + [r.binaryPath] + r.args == [r.binaryPath] + r.args;
    } else {
      PathPrefix(r.pathEnv, cmd);
      BinaryAndArgs(r, ["exec"]);
      ExportThenExec(r.pathEnv, ["exec"] + [r.binaryPath] + r.args);
      assert (["exec"] + [r.binaryPath] + r.args)[1..] == [r.binaryPath] + r.args;
    }
  }

  lemma ExportThenExec(path: string, command: seq<string>)
    requires |command| > 1 && command[0] == "exec"
    ensures Interpret([["export", "PATH=" + path]] + [command]) ==
            if Program(command[1]) then Some(Launch(Some(path), command[1..])) else None
  {
    var commands := [["export", "PATH=" + path]] + [command];
    assert commands[0] == ["export", "PATH=" + path] && commands[1] == command;
    assert ("PATH=" + path)[5..] == path;
    hide Program;
  }

  /**
    The remote command line starts exactly the binary with exactly the arguments, in the named session, exactly when a
    shell runs a command of the binary's name as a program.
   */
  lemma RemoteCommandRuns(r: Request)
    requires Dispatchable(r)
    ensures RunRemote(Remote(r)) == if Program(r.binaryPath) then Some((r.sessionName, Wanted(r))) else None
  {
    hide Program, Interpret;
    var inner := Spaced(SH_WORDS) + ShellQuote(Inner(r));
    FixedWordsPlain();
    TmuxLine(r.sessionName, inner);
    LineWithQuoted(SH_WORDS, Inner(r));
    InnerRuns(r);
    hide Lex, Spaced, Inner, Wanted, Commands, ShellQuote;
    var words := TMUX_WORDS + [r.sessionName] + [inner];
    assert words[..4] == TMUX_WORDS && (SH_WORDS + [Inner(r)])[..2] == SH_WORDS;
  }

  lemma TmuxLine(name: string, inner: string)
    ensures Words(Spaced(TMUX_WORDS) + ShellQuote(name) + " " + ShellQuote(inner))
        == Some(TMUX_WORDS + [name] + [inner])
  {
    var tail := ShellQuote(name) + (" " + ShellQuote(inner));
    assert Spaced(TMUX_WORDS) + ShellQuote(name) + " " + ShellQuote(inner) == Spaced(TMUX_WORDS) + tail;
    FixedWordsPlain();
    hide Lex, Spaced, ShellQuote, Plain;
    LexSpaced(TMUX_WORDS, tail, []);
    assert [] + TMUX_WORDS == TMUX_WORDS;
    LexQuoted(name, " " + ShellQuote(inner), Gap, TMUX_WORDS);
    assert "" + name == name;
    LexBlank(ShellQuote(inner), InWord(name), TMUX_WORDS);
    QuotedEnds(inner, TMUX_WORDS + [name]);
  }

  lemma SshLine(target: string, remote: string)
    requires Plain(target)
    ensures Words(Spaced(SSH_WORDS) + target + " " + ShellQuote(remote)) == Some(SSH_WORDS + [target] + [remote])
  {
    var tail := target + (" " + ShellQuote(remote));
    assert Spaced(SSH_WORDS) + target + " " + ShellQuote(remote) == Spaced(SSH_WORDS) + tail;
    FixedWordsPlain();
    hide Lex, Spaced, ShellQuote, Plain;
    LexSpaced(SSH_WORDS, tail, []);
    assert [] + SSH_WORDS == SSH_WORDS;
    LexWord(target, ShellQuote(remote), SSH_WORDS);
    QuotedEnds(remote, SSH_WORDS + [target]);
  }

  const SSH_OPTIONS: seq<string> := ["BatchMode=yes", "ConnectTimeout=8", "StrictHostKeyChecking=accept-new"]

  lemma SshPartsOf(target: string, remote: string)
    requires target != "" && target[0] != '-'
    ensures SshParts((SSH_WORDS + [target] + [remote])[1..]) == Some(SshCall(SSH_OPTIONS, target, remote))
  {
    var end := [target, remote];
    assert (SSH_WORDS + [target] + [remote])[1..] == SSH_WORDS[1..3] + (SSH_WORDS[3..5] + (SSH_WORDS[5..] + end));
    assert SshParts(end) == Some(SshCall([], target, remote)) by {
      assert end[1..] == [remote];
    }
    SkipOption(SSH_WORDS[6], end);
    SkipOption(SSH_WORDS[4], SSH_WORDS[5..] + end);
    SkipOption(SSH_WORDS[2], SSH_WORDS[3..5] + (SSH_WORDS[5..] + end));
    assert [SSH_WORDS[6]] + [] == [SSH_WORDS[6]] && [SSH_WORDS[4]] + [SSH_WORDS[6]] == [SSH_WORDS[4], SSH_WORDS[6]]
        && [SSH_WORDS[2]] + [SSH_WORDS[4], SSH_WORDS[6]] == SSH_OPTIONS;
    assert SSH_WORDS[5..] == ["-o", SSH_WORDS[6]] && SSH_WORDS[3..5] == ["-o", SSH_WORDS[4]]
        && SSH_WORDS[1..3] == ["-o", SSH_WORDS[2]];
  }

  lemma SkipOption(value: string, rest: seq<string>)
    requires SshParts(rest).Some?
    ensures SshParts(["-o", value] + rest)
         == Some(SshParts(rest).value.(options := [value] + SshParts(rest).value.options))
  {
    assert (["-o", value] + rest)[2..] == rest;
  }

  /**
    Through every shell on the way the printed ssh command starts exactly BinaryPath followed by Args, with the derived
    PATH if there is one, whatever the arguments, the session name and the PATH are: exactly when a shell runs a command
    of the binary's name as a program, which an absolute path without an equals sign always is.
   */
  lemma SshCommandRuns(r: Request)
    requires Dispatchable(r)
    ensures RunLocal(Ssh(r)) ==
              if Program(r.binaryPath) then Some(Delivery(SSH_OPTIONS, r.target, r.sessionName, Wanted(r))) else None
    ensures r.binaryPath[0] == '/' && '=' !in r.binaryPath ==> Program(r.binaryPath)
  {
    SshLine(r.target, Remote(r));
    SshPartsOf(r.target, Remote(r));
    RemoteCommandRuns(r);
    hide Lex, Spaced, Remote, Wanted, Words, ShellQuote, SshParts, RunRemote;
    assert (SSH_WORDS + [r.target] + [Remote(r)])[0] == "ssh";
  }
}
