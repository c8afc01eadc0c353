/**
 * The command runner (src/utils/ShellExecutor.ts): shell quoting, the search path handed to
 * child processes, the mapping of a child-process outcome to a result or an error message,
 * and the "does this command exist" probe.
 *
 * The operating system is the class `Shell`: the inherited PATH and HOME variables and an
 * oracle that answers the n-th command run with that command's outcome.  Its `log` records
 * every command line handed to the shell, so contracts can say which commands ran, in which
 * order, and which did not run at all.
 */
module ShellExecutor {
  import opened Wrappers
  import opened Strings
  import opened ShellWords

  // ---------------------------------------------------------------- quoting

  /** Each `'` becomes `'"'"'`: close the single quotes, a double-quoted `'`, reopen. */
  function ReplaceQuotes(s: string): string
    decreases |s|
  {
    if s == [] then ""
    else (if s[0] == '\'' then "'\"'\"'" else [s[0]]) + ReplaceQuotes(s[1..])
  }

  /** Number of single-quote characters in `s`. */
  function QuoteCount(s: string): nat
    decreases |s|
  {
    if s == [] then 0 else (if s[0] == '\'' then 1 else 0) + QuoteCount(s[1..])
  }

  /** `escapeShellArg(arg)`: `arg` wrapped in single quotes, embedded single quotes escaped. */
  function EscapeShellArg(arg: string): (r: string)
    ensures |r| >= 2 && r[0] == '\'' && r[|r| - 1] == '\''
  {
    "'" + ReplaceQuotes(arg) + "'"
  }

  lemma {:induction false} ReplaceQuotesLength(s: string)
    ensures |ReplaceQuotes(s)| == |s| + 4 * QuoteCount(s)
    decreases |s|
  {
    if s != [] {
      ReplaceQuotesLength(s[1..]);
    }
  }

  /** The escaped form is longer than the argument by the two outer quotes and four characters per embedded quote. */
  lemma EscapeLength(arg: string)
    ensures |EscapeShellArg(arg)| == |arg| + 2 + 4 * QuoteCount(arg)
  {
    ReplaceQuotesLength(arg);
  }

  lemma {:induction false} ReplaceQuotesNoQuote(s: string)
    requires '\'' !in s
    ensures ReplaceQuotes(s) == s
    decreases |s|
  {
    if s != [] {
      assert s[0] != '\'';
      ReplaceQuotesNoQuote(s[1..]);
      assert [s[0]] + s[1..] == s;
    }
  }

  /** An argument without single quotes is only wrapped in one pair of them. */
  lemma EscapeWithoutQuotes(arg: string)
    requires '\'' !in arg
    ensures EscapeShellArg(arg) == "'" + arg + "'"
  {
    ReplaceQuotesNoQuote(arg);
  }

  /** Inside single quotes, the escaped body reads back as the argument itself. */
  lemma {:induction false} LexReplaceQuotes(s: string, rest: string, cur: string)
    ensures Lex(ReplaceQuotes(s) + "'" + rest, InSingle, Some(cur)) == Lex(rest, Unquoted, Some(cur + s))
    decreases |s|
  {
    if s == [] {
      LexClosingQuote(cur, rest);
      assert ReplaceQuotes(s) + "'" + rest == "'" + rest;
      assert cur + s == cur;
    } else {
      var tail := ReplaceQuotes(s[1..]) + "'" + rest;
      var piece := if s[0] == '\'' then "'\"'\"'" else [s[0]];
      assert ReplaceQuotes(s) == piece + ReplaceQuotes(s[1..]);
      assert ReplaceQuotes(s) + "'" + rest == piece + tail;
      if s[0] == '\'' {
        LexEscapedQuote(cur, tail);
      } else {
        LexSingleLiteral(s[0], tail, cur);
      }
      LexReplaceQuotes(s[1..], rest, cur + [s[0]]);
      assert cur + [s[0]] + s[1..] == cur + s;
    }
  }

  lemma LexClosingQuote(cur: string, rest: string)
    ensures Lex("'" + rest, InSingle, Some(cur)) == Lex(rest, Unquoted, Some(cur))
  {
    assert ("'" + rest)[0] == '\'' && ("'" + rest)[1..] == rest;
  }

  lemma LexSingleLiteral(c: char, tail: string, cur: string)
    requires c != '\''
    ensures Lex([c] + tail, InSingle, Some(cur)) == Lex(tail, InSingle, Some(cur + [c]))
  {
    assert ([c] + tail)[0] == c && ([c] + tail)[1..] == tail;
  }

  /** The five characters `'"'"'` inside single quotes contribute exactly one `'` to the word. */
  lemma LexEscapedQuote(cur: string, tail: string)
    ensures Lex("'\"'\"'" + tail, InSingle, Some(cur)) == Lex(tail, InSingle, Some(cur + "'"))
  {
    var line := "'\"'\"'" + tail;
    assert line[0] == '\'' && line[1..] == "\"'\"'" + tail;
    var l1 := line[1..];
    assert l1[0] == '"' && l1[1..] == "'\"'" + tail;
    var l2 := l1[1..];
    assert l2[0] == '\'' && l2[1..] == "\"'" + tail;
    var l3 := l2[1..];
    assert l3[0] == '"' && l3[1..] == "'" + tail;
    var l4 := l3[1..];
    assert l4[0] == '\'' && l4[1..] == tail;
    assert Lex(line, InSingle, Some(cur)) == Lex(l1, Unquoted, Some(cur));
    assert Lex(l1, Unquoted, Some(cur)) == Lex(l2, InDouble, Some(cur));
    assert Lex(l2, InDouble, Some(cur)) == Lex(l3, InDouble, Some(cur + "'"));
    assert Lex(l3, InDouble, Some(cur + "'")) == Lex(l4, Unquoted, Some(cur + "'"));
    assert Lex(l4, Unquoted, Some(cur + "'")) == Lex(tail, InSingle, Some(cur + "'"));
  }

  /**
   * Whatever the argument holds (quotes of either kind, `$`, backquotes, newlines, blanks),
   * the shell reads the escaped form back as exactly one word equal to the argument.
   */
  lemma EscapeRoundTrip(arg: string)
    ensures Words(EscapeShellArg(arg)) == Some([arg])
  {
    var line := EscapeShellArg(arg);
    assert line[0] == '\'' && line[1..] == ReplaceQuotes(arg) + "'" + "";
    LexReplaceQuotes(arg, "", "");
    assert "" + arg == arg;
  }

  // ---------------------------------------------------------------- search path

  /** The directories appended to PATH, in order, skipping the home entry when HOME is unset. */
  const FixedDirs: seq<string> := ["/usr/local/bin", "/opt/homebrew/bin", "/usr/bin", "/bin", "/usr/sbin", "/sbin"]

  /** JavaScript truthiness of a possibly undefined string: defined and non-empty. */
  predicate Truthy(v: Option<string>) {
    v.Some? && v.value != ""
  }

  /** `.filter(Boolean)` over a list of possibly undefined strings. */
  function KeepTruthy(vs: seq<Option<string>>): (r: seq<string>)
    ensures |r| <= |vs|
    ensures forall i :: 0 <= i < |r| ==> r[i] != ""
    decreases |vs|
  {
    if vs == [] then []
    else (if Truthy(vs[0]) then [vs[0].value] else []) + KeepTruthy(vs[1..])
  }

  function Defined(dirs: seq<string>): (r: seq<Option<string>>)
    ensures |r| == |dirs| && forall i :: 0 <= i < |dirs| ==> r[i] == Some(dirs[i])
  {
    seq(|dirs|, i requires 0 <= i < |dirs| => Some(dirs[i]))
  }

  /** `HOME + '/.local/bin'` as JavaScript evaluates it: an unset HOME reads as the text "undefined". */
  function HomeBinAsWritten(home: Option<string>): string {
    (if home.Some? then home.value else "undefined") + "/.local/bin"
  }

  /** The PATH built in `execute` exactly as the source writes it. */
  function BuildPathAsWritten(path: Option<string>, home: Option<string>): string {
    Join(KeepTruthy([path] + Defined(FixedDirs) + [Some(HomeBinAsWritten(home))]), ":")
  }

  /** The directories added after the inherited PATH (corrected: no home entry when HOME is unset). */
  function AddedDirs(home: Option<string>): seq<string> {
    FixedDirs + (if home.Some? then [home.value + "/.local/bin"] else [])
  }

  /** The PATH given to every child process: the inherited one, if set and non-empty, then the added directories. */
  function BuildPath(path: Option<string>, home: Option<string>): string {
    Join(Inherited(path) + AddedDirs(home), ":")
  }

  /** The inherited PATH as a list of at most one entry: kept when set and non-empty. */
  function Inherited(path: Option<string>): seq<string> {
    if Truthy(path) then [path.value] else []
  }

  lemma {:induction false} KeepTruthyAppend(a: seq<Option<string>>, b: seq<Option<string>>)
    ensures KeepTruthy(a + b) == KeepTruthy(a) + KeepTruthy(b)
    decreases |a|
  {
    if a != [] {
      KeepTruthyAppend(a[1..], b);
      assert (a + b)[0] == a[0] && (a + b)[1..] == a[1..] + b;
    } else {
      assert a + b == b;
    }
  }

  lemma {:induction false} KeepTruthyDefined(dirs: seq<string>)
    requires forall i :: 0 <= i < |dirs| ==> dirs[i] != ""
    ensures KeepTruthy(Defined(dirs)) == dirs
    decreases |dirs|
  {
    if dirs != [] {
      KeepTruthyDefined(dirs[1..]);
      assert Defined(dirs)[1..] == Defined(dirs[1..]);
      assert [dirs[0]] + dirs[1..] == dirs;
    }
  }

  /** With HOME set, the source's PATH is the corrected one. */
  lemma BuildPathAgreesWhenHomeSet(path: Option<string>, h: string)
    ensures BuildPathAsWritten(path, Some(h)) == BuildPath(path, Some(h))
  {
    var hb := h + "/.local/bin";
    assert HomeBinAsWritten(Some(h)) == hb;
    FixedDirsNonEmpty();
    KeepTruthyFrame(path, FixedDirs, hb);
    assert Inherited(path) + FixedDirs + [hb] == Inherited(path) + AddedDirs(Some(h));
  }

  /** With HOME unset, the source adds the relative directory `undefined/.local/bin` at the end of PATH. */
  lemma UnsetHomeAddsRelativeEntry(path: Option<string>)
    ensures BuildPathAsWritten(path, None) == BuildPath(path, None) + ":undefined/.local/bin"
  {
    var u := HomeBinAsWritten(None);
    UndefinedHomeBin();
    FixedDirsNonEmpty();
    PathWithLast(path, FixedDirs, u);
    assert AddedDirs(None) == FixedDirs;
    var j := Join(Inherited(path) + FixedDirs, ":");
    assert j + ":" + u == j + (":" + u);
  }

  lemma UndefinedHomeBin()
    ensures HomeBinAsWritten(None) != ""
    ensures ":" + HomeBinAsWritten(None) == ":undefined/.local/bin"
  {
  }

  lemma FixedDirsNonEmpty()
    ensures FixedDirs != [] && forall i :: 0 <= i < |FixedDirs| ==> FixedDirs[i] != ""
  {
  }

  /** Filtering the source's list when every added entry is defined and non-empty. */
  lemma KeepTruthyFrame(path: Option<string>, dirs: seq<string>, last: string)
    requires last != "" && forall i :: 0 <= i < |dirs| ==> dirs[i] != ""
    ensures KeepTruthy([path] + Defined(dirs) + [Some(last)]) == Inherited(path) + dirs + [last]
  {
    assert [path] + Defined(dirs) + [Some(last)] == [path] + (Defined(dirs) + [Some(last)]);
    KeepTruthyAppend([path], Defined(dirs) + [Some(last)]);
    KeepTruthyAppend(Defined(dirs), [Some(last)]);
    KeepTruthyDefined(dirs);
    assert KeepTruthy([Some(last)]) == [last];
    assert KeepTruthy([path]) == Inherited(path);
  }

  /** The source's PATH string with a non-empty last entry appended after the directories. */
  lemma PathWithLast(path: Option<string>, dirs: seq<string>, last: string)
    requires dirs != [] && last != "" && forall i :: 0 <= i < |dirs| ==> dirs[i] != ""
    ensures Join(KeepTruthy([path] + Defined(dirs) + [Some(last)]), ":") == Join(Inherited(path) + dirs, ":") + ":" + last
  {
    KeepTruthyFrame(path, dirs, last);
    JoinSnoc(Inherited(path) + dirs, last, ":");
  }

  lemma {:induction false} JoinSnoc(parts: seq<string>, last: string, sep: string)
    requires parts != []
    ensures Join(parts + [last], sep) == Join(parts, sep) + sep + last
    decreases |parts|
  {
    if |parts| == 1 {
      assert (parts + [last])[1..] == [last];
    } else {
      JoinSnoc(parts[1..], last, sep);
      assert (parts + [last])[1..] == parts[1..] + [last];
    }
  }

  lemma {:induction false} JoinCons(first: string, parts: seq<string>, sep: string)
    requires parts != []
    ensures Join([first] + parts, sep) == first + sep + Join(parts, sep)
  {
    assert ([first] + parts)[1..] == parts;
  }

  /**
   * The inherited PATH is kept as a prefix, never replaced; it is dropped only when unset or empty;
   * the added directories follow it in their fixed order.
   */
  lemma BuildPathExtends(path: Option<string>, home: Option<string>)
    ensures Truthy(path) ==> BuildPath(path, home) == path.value + ":" + Join(AddedDirs(home), ":")
    ensures !Truthy(path) ==> BuildPath(path, home) == Join(AddedDirs(home), ":")
  {
    var dirs := AddedDirs(home);
    if Truthy(path) {
      JoinCons(path.value, dirs, ":");
    } else {
      assert [] + dirs == dirs;
    }
  }

  predicate IsAbsolute(dir: string) {
    |dir| > 0 && dir[0] == '/'
  }

  /** Every directory the augmentation adds is absolute when HOME is unset or absolute. */
  lemma AddedDirsAbsolute(home: Option<string>)
    requires home.None? || IsAbsolute(home.value)
    ensures forall i :: 0 <= i < |AddedDirs(home)| ==> IsAbsolute(AddedDirs(home)[i])
  {
  }

  // ---------------------------------------------------------------- running a command

  /** What `exec` reports: completion with both output streams, or an error object. */
  datatype RawOutcome =
    | Completed(stdout: string, stderr: string)
    | Raised(code: Option<string>, signal: Option<string>, message: string)

  /** A command line together with the PATH of the environment it runs in. */
  datatype Invocation = Invocation(command: string, path: string)

  /**
   * The PATH every child process gets, and the operating system's answers, by call number.  The
   * process environment does not change while the plugin runs, so the PATH is built once.
   */
  datatype Host = Host(childPath: string, respond: (nat, Invocation) -> RawOutcome)

  /** A value computed by a sequence of shell calls, with the commands run, in order. */
  datatype Traced<T> = Traced(value: T, ran: seq<string>)

  const NotFoundMessage := "Command not found. Please ensure the required software is installed."
  const TimedOutMessage := "Command timed out. Please try again."
  const FailedPrefix := "Command failed: "

  function Call(h: Host, command: string): Invocation {
    Invocation(command, h.childPath)
  }

  /** The result of `execute` for one outcome: trimmed standard output, or the message of the error it throws. */
  function ExecResult(o: RawOutcome): Result<string, string> {
    match o
    case Completed(stdout, _) => Ok(Trim(stdout))
    case Raised(code, signal, message) =>
      if code == Some("ENOENT") then Err(NotFoundMessage)
      else if signal == Some("SIGTERM") then Err(TimedOutMessage)
      else Err(FailedPrefix + message)
  }

  /** `execute(command)` as the `t`-th call to the shell. */
  function ExecuteSpec(h: Host, t: nat, command: string): Traced<Result<string, string>> {
    Traced(ExecResult(h.respond(t, Call(h, command))), [command])
  }

  predicate Succeeds(h: Host, t: nat, command: string) {
    ExecResult(h.respond(t, Call(h, command))).Ok?
  }

  /** Success yields the trimmed standard output whatever the standard error holds. */
  lemma ExecuteSuccess(stdout: string, stderr: string)
    ensures ExecResult(Completed(stdout, stderr)) == Ok(Trim(stdout))
    ensures NoOuterSpace(ExecResult(Completed(stdout, stderr)).value)
  {
  }

  /** A failure is never a success, and its message is chosen as ENOENT, then SIGTERM, then the generic form. */
  lemma ExecuteErrorPriority(code: Option<string>, signal: Option<string>, message: string)
    ensures ExecResult(Raised(code, signal, message)).Err?
    ensures code == Some("ENOENT") ==> ExecResult(Raised(code, signal, message)).error == NotFoundMessage
    ensures code != Some("ENOENT") && signal == Some("SIGTERM") ==> ExecResult(Raised(code, signal, message)).error == TimedOutMessage
    ensures code != Some("ENOENT") && signal != Some("SIGTERM") ==> ExecResult(Raised(code, signal, message)).error == FailedPrefix + message
  {
  }

  /** The operating system as seen by the plugin. */
  class Shell {
    const host: Host
    var log: seq<string>

    /** A shell in the environment with `PATH` and `HOME` set as given. */
    constructor (pathVar: Option<string>, homeVar: Option<string>, respond: (nat, Invocation) -> RawOutcome)
      ensures host == Host(BuildPath(pathVar, homeVar), respond) && log == []
    {
      host := Host(BuildPath(pathVar, homeVar), respond);
      log := [];
    }

    /** Starts `command` with the augmented PATH and waits for its outcome. */
    method Spawn(command: string) returns (o: RawOutcome)
      modifies this
      ensures log == old(log) + [command]
      ensures o == host.respond(|old(log)|, Call(host, command))
    {
      o := host.respond(|log|, Call(host, command));
      log := log + [command];
    }
  }

  /** `execute(command)`: runs one command, returns trimmed standard output or the error message. */
  method Execute(sh: Shell, command: string) returns (r: Result<string, string>)
    modifies sh
    ensures sh.log == old(sh.log) + [command]
    ensures r == ExecResult(sh.host.respond(|old(sh.log)|, Call(sh.host, command)))
  {
    var outcome := sh.Spawn(command);
    match outcome
    case Completed(stdout, stderr) =>
      r := Ok(Trim(stdout));
    case Raised(code, signal, message) =>
      if code == Some("ENOENT") {
        r := Err(NotFoundMessage);
      } else if signal == Some("SIGTERM") {
        r := Err(TimedOutMessage);
      } else {
        r := Err(FailedPrefix + message);
      }
  }

  // ---------------------------------------------------------------- command probe

  /** The three ways `checkCommand` tries to find a command, in order. */
  function Probes(command: string): seq<string> {
    ["which " + command, "command -v " + command, "type " + command]
  }

  /** Runs `cmds` as calls `t`, `t + 1`, ... until one succeeds. */
  function FirstSuccess(h: Host, t: nat, cmds: seq<string>): (r: Traced<bool>)
    ensures |r.ran| <= |cmds|
    decreases |cmds|
  {
    if cmds == [] then Traced(false, [])
    else if Succeeds(h, t, cmds[0]) then Traced(true, [cmds[0]])
    else After([cmds[0]], FirstSuccess(h, t + 1, cmds[1..]))
  }

  function CheckCommandSpec(h: Host, t: nat, command: string): Traced<bool> {
    FirstSuccess(h, t, Probes(command))
  }

  /** The index of the shell call that follows the commands `ran`, run from call `t` on. */
  function Later(t: nat, ran: seq<string>): nat {
    t + |ran|
  }

  /** Prefixes the commands `pre` to a traced result. */
  function After<T>(pre: seq<string>, r: Traced<T>): Traced<T> {
    Traced(r.value, pre + r.ran)
  }

  /** The commands run are the first ones of the list, in order. */
  lemma {:induction false} FirstSuccessRunsPrefix(h: Host, t: nat, cmds: seq<string>)
    ensures FirstSuccess(h, t, cmds).ran <= cmds
    decreases |cmds|
  {
    if cmds != [] && !Succeeds(h, t, cmds[0]) {
      FirstSuccessRunsPrefix(h, t + 1, cmds[1..]);
      assert [cmds[0]] + cmds[1..] == cmds;
    }
  }

  /**
   * Every command run before the last one failed, and the answer is true exactly when the last
   * command run succeeded.
   */
  lemma {:induction false} FirstSuccessStopsAtSuccess(h: Host, t: nat, cmds: seq<string>)
    ensures var r := FirstSuccess(h, t, cmds);
      && (forall i :: 0 <= i < |r.ran| - 1 ==> !Succeeds(h, t + i, r.ran[i]))
      && (r.value <==> r.ran != [] && Succeeds(h, t + |r.ran| - 1, r.ran[|r.ran| - 1]))
    decreases |cmds|
  {
    if cmds != [] && !Succeeds(h, t, cmds[0]) {
      var rest := FirstSuccess(h, t + 1, cmds[1..]);
      FirstSuccessStopsAtSuccess(h, t + 1, cmds[1..]);
      var ran := [cmds[0]] + rest.ran;
      assert FirstSuccess(h, t, cmds).ran == ran;
      forall i | 1 <= i < |ran|
        ensures ran[i] == rest.ran[i - 1]
      {
      }
    }
  }

  /** Every command of `cmds`, run as calls `t`, `t + 1`, ..., fails. */
  predicate AllFail(h: Host, t: nat, cmds: seq<string>) {
    forall i :: 0 <= i < |cmds| ==> !Succeeds(h, t + i, cmds[i])
  }

  lemma AllFailCons(h: Host, t: nat, cmds: seq<string>)
    requires cmds != []
    ensures AllFail(h, t, cmds) <==> !Succeeds(h, t, cmds[0]) && AllFail(h, t + 1, cmds[1..])
  {
    if !Succeeds(h, t, cmds[0]) && AllFail(h, t + 1, cmds[1..]) {
      forall i | 1 <= i < |cmds|
        ensures !Succeeds(h, t + i, cmds[i])
      {
        assert cmds[i] == cmds[1..][i - 1];
      }
    }
  }

  /** The answer is false exactly when every command failed, and then all of them ran. */
  lemma {:induction false} FirstSuccessFails(h: Host, t: nat, cmds: seq<string>)
    ensures !FirstSuccess(h, t, cmds).value <==> AllFail(h, t, cmds)
    ensures !FirstSuccess(h, t, cmds).value ==> FirstSuccess(h, t, cmds).ran == cmds
    decreases |cmds|
  {
    if cmds != [] {
      AllFailCons(h, t, cmds);
      if !Succeeds(h, t, cmds[0]) {
        FirstSuccessFails(h, t + 1, cmds[1..]);
        assert [cmds[0]] + cmds[1..] == cmds;
      }
    }
  }

  /**
   * `checkCommand` always starts with `which`, runs the probes in their fixed order and stops at the
   * first success; it answers false exactly when all three failed, and then all three ran.
   */
  lemma CheckCommandProbesInOrder(h: Host, t: nat, command: string)
    ensures var r := CheckCommandSpec(h, t, command);
      && 1 <= |r.ran| <= 3 && r.ran <= Probes(command) && r.ran[0] == "which " + command
      && (r.value <==> !AllFail(h, t, Probes(command)))
      && (!r.value ==> r.ran == Probes(command))
  {
    FirstSuccessRunsPrefix(h, t, Probes(command));
    FirstSuccessFails(h, t, Probes(command));
  }

  /** `checkCommand(command)`: true at the first of the three probes that succeeds; never fails. */
  method CheckCommand(sh: Shell, command: string) returns (found: bool)
    modifies sh
    ensures found == CheckCommandSpec(sh.host, |old(sh.log)|, command).value
    ensures sh.log == old(sh.log) + CheckCommandSpec(sh.host, |old(sh.log)|, command).ran
  {
    found := RunProbes(sh, Probes(command));
  }

  /** The loop of `checkCommand`: run each probe in turn, stopping at the first that succeeds. */
  method RunProbes(sh: Shell, checks: seq<string>) returns (found: bool)
    modifies sh
    ensures found == FirstSuccess(sh.host, |old(sh.log)|, checks).value
    ensures sh.log == old(sh.log) + FirstSuccess(sh.host, |old(sh.log)|, checks).ran
  {
    ghost var t := |sh.log|;
    var i := 0;
    while i < |checks|
      invariant 0 <= i <= |checks|
      invariant sh.log == old(sh.log) + checks[..i] && |sh.log| == t + i
      invariant FirstSuccess(sh.host, t, checks) == After(checks[..i], FirstSuccess(sh.host, t + i, checks[i..]))
    {
      var r := Execute(sh, checks[i]);
      assert r.Ok? == Succeeds(sh.host, t + i, checks[i]);
      ProbeStep(sh.host, t, checks, i);
      if r.Ok? {
        return true;
      }
      i := i + 1;
    }
    assert checks[..i] == checks && checks[i..] == [];
    return false;
  }

  /** One turn of the probe loop: the traced result once probe `i` has run. */
  lemma ProbeStep(h: Host, t: nat, cmds: seq<string>, i: nat)
    requires i < |cmds|
    requires FirstSuccess(h, t, cmds) == After(cmds[..i], FirstSuccess(h, t + i, cmds[i..]))
    ensures cmds[..i + 1] == cmds[..i] + [cmds[i]]
    ensures Succeeds(h, t + i, cmds[i]) ==> FirstSuccess(h, t, cmds) == Traced(true, cmds[..i + 1])
    ensures !Succeeds(h, t + i, cmds[i]) ==> FirstSuccess(h, t, cmds) == After(cmds[..i + 1], FirstSuccess(h, t + i + 1, cmds[i + 1..]))
  {
    assert cmds[i..][0] == cmds[i] && cmds[i..][1..] == cmds[i + 1..];
    assert cmds[..i + 1] == cmds[..i] + [cmds[i]];
    var rest := FirstSuccess(h, t + i + 1, cmds[i + 1..]);
    assert cmds[..i] + ([cmds[i]] + rest.ran) == cmds[..i + 1] + rest.ran;
  }
}
