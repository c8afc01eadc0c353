/**
 * The Ollama back end: it summarises a note by running `ollama run <model> '<prompt>'` through
 * the shell, reports whether Ollama is installed and serving, lists and pulls models, and keeps
 * the model to use when a request names none.
 */
module OllamaProvider {
  import opened Wrappers
  import opened Strings
  import opened ShellWords
  import opened ShellExecutor
  import opened Types
  import opened AIProvider

  /** The name shown for this provider. */
  const DisplayName := "Ollama"

  /** The command that lists the installed models; it also shows that the service answers. */
  const ListCommand := "ollama list"

  /** Every message `generateSummary` throws starts with the provider's name. */
  const Brand := "Ollama "

  const ServiceDownMessage := Brand + "service is not running. Please start Ollama first."
  const NotInstalledMessage := Brand + "is not installed. Please install Ollama from https://ollama.ai"
  const OtherErrorPrefix := Brand + "error: "

  // ---------------------------------------------------------------- generating a summary

  /** `options.model || this.defaultModel`: the requested model unless it is absent or empty. */
  function EffectiveModel(requested: Option<string>, fallback: string): (model: string)
    ensures requested.Some? && requested.value != [] ==> model == requested.value
    ensures model == fallback || (requested == Some(model) && model != [])
  {
    if requested.Some? && requested.value != [] then requested.value else fallback
  }

  /** `ollama run ${model} ${escapedPrompt}`: the model name is inserted unquoted. */
  function RunCommand(model: string, content: string, length: int): string {
    "ollama run " + model + " " + EscapeShellArg(FormatPrompt(content, length))
  }

  /** `ollama pull ${model}`, again with the model name unquoted. */
  function PullCommand(model: string): string {
    "ollama pull " + model
  }

  /** The message `generateSummary` throws for a failed `execute`, chosen by the words in its message. */
  function ClassifyError(model: string, message: string): (error: string)
    ensures Brand <= error
    ensures Contains(message, "model") && Contains(message, "not found") ==> error == ModelMissingMessage(model)
    ensures (!(Contains(message, "model") && Contains(message, "not found"))
             && (Contains(message, "connection refused") || Contains(message, "connect")))
            ==> error == ServiceDownMessage
    ensures (!(Contains(message, "model") && Contains(message, "not found"))
             && !Contains(message, "connection refused") && !Contains(message, "connect")
             && Contains(message, "Command not found"))
            ==> error == NotInstalledMessage
    ensures (!(Contains(message, "model") && Contains(message, "not found"))
             && !Contains(message, "connection refused") && !Contains(message, "connect")
             && !Contains(message, "Command not found"))
            ==> error == OtherErrorPrefix + message
  {
    FixedMessagesNameOllama();
    if Contains(message, "model") && Contains(message, "not found") then
      ModelMissingMessage(model)
    else if Contains(message, "connection refused") || Contains(message, "connect") then
      ServiceDownMessage
    else if Contains(message, "Command not found") then
      NotInstalledMessage
    else
      OtherErrorPrefix + message
  }

  lemma FixedMessagesNameOllama()
    ensures Brand <= ServiceDownMessage && Brand <= NotInstalledMessage && Brand <= OtherErrorPrefix
  {
    PrefixOfConcat(Brand, "service is not running. Please start Ollama first.");
    PrefixOfConcat(Brand, "is not installed. Please install Ollama from https://ollama.ai");
    PrefixOfConcat(Brand, "error: ");
  }

  lemma PrefixOfConcat(a: string, b: string)
    ensures a <= a + b
  {
    assert (a + b)[..|a|] == a;
  }

  function ModelMissingMessage(model: string): (error: string)
    ensures Brand <= error
  {
    var r := Brand + "model '" + model + "' not found. Please run: ollama pull " + model;
    assert r == Brand + ("model '" + model + "' not found. Please run: ollama pull " + model);
    PrefixOfConcat(Brand, "model '" + model + "' not found. Please run: ollama pull " + model);
    r
  }

  /** `generateSummary(content, options)` as the `t`-th shell call: one `ollama run`, then clean-up or classification. */
  function GenerateSpec(h: Host, t: nat, defaultModel: string, content: string, options: SummaryOptions): Traced<Result<string, string>> {
    var model := EffectiveModel(options.model, defaultModel);
    var command := RunCommand(model, content, options.length);
    var r := ExecResult(h.respond(t, Call(h, command)));
    Traced(if r.Ok? then Ok(Cleaned(r.value)) else Err(ClassifyError(model, r.error)), [command])
  }

  /** The first two words of every Ollama command line. */
  lemma OllamaVerbWords(verb: string, tail: string)
    requires IsPlainWord(verb)
    ensures Words("ollama " + verb + " " + tail) == Prepend("ollama", Prepend(verb, Words(tail)))
  {
    assert IsPlainWord("ollama");
    assert "ollama " + verb + " " + tail == "ollama" + " " + (verb + " " + tail);
    LexPlainWord("ollama", verb + " " + tail);
    LexPlainWord(verb, tail);
  }

  /**
   * For a model name that needs no quoting, the shell reads the `ollama run` command as exactly four
   * words, the last of which is the prompt, unchanged whatever the note contains.
   */
  lemma RunCommandWords(model: string, content: string, length: int)
    requires IsPlainWord(model)
    ensures Words(RunCommand(model, content, length)) == Some(["ollama", "run", model, FormatPrompt(content, length)])
  {
    var p := FormatPrompt(content, length);
    var e := EscapeShellArg(p);
    assert "ollama run " == "ollama " + "run" + " ";
    assert RunCommand(model, content, length) == "ollama " + "run" + " " + (model + " " + e);
    assert IsPlainWord("run");
    OllamaVerbWords("run", model + " " + e);
    LexPlainWord(model, e);
    EscapeRoundTrip(p);
    assert Words(e) == Some([p]);
    assert [model] + [p] == [model, p];
    assert Words(model + " " + e) == Some([model, p]);
    assert ["ollama"] + (["run"] + [model, p]) == ["ollama", "run", model, p];
  }

  /** A model name holding a blank is not quoted, so the shell reads it as two separate arguments. */
  lemma SpacedModelSplits(a: string, b: string, content: string, length: int)
    requires IsPlainWord(a) && IsPlainWord(b)
    ensures Words(RunCommand(a + " " + b, content, length)) == Some(["ollama", "run", a, b, FormatPrompt(content, length)])
  {
    var p := FormatPrompt(content, length);
    var e := EscapeShellArg(p);
    assert "ollama run " == "ollama " + "run" + " ";
    assert RunCommand(a + " " + b, content, length) == "ollama " + "run" + " " + (a + " " + (b + " " + e));
    assert IsPlainWord("run");
    OllamaVerbWords("run", a + " " + (b + " " + e));
    LexPlainWord(a, b + " " + e);
    LexPlainWord(b, e);
    EscapeRoundTrip(p);
    assert Words(e) == Some([p]);
    assert [b] + [p] == [b, p];
    assert [a] + [b, p] == [a, b, p];
    assert Words(a + " " + (b + " " + e)) == Some([a, b, p]);
    assert ["ollama"] + (["run"] + [a, b, p]) == ["ollama", "run", a, b, p];
  }

  /** `ollama pull` gets the model as its third word when the name needs no quoting. */
  lemma PullCommandWords(model: string)
    requires IsPlainWord(model)
    ensures Words(PullCommand(model)) == Some(["ollama", "pull", model])
  {
    assert "ollama pull " == "ollama " + "pull" + " ";
    assert PullCommand(model) == "ollama " + "pull" + " " + model;
    assert IsPlainWord("pull");
    OllamaVerbWords("pull", model);
    assert model + "" == model;
    LexPlainRun(model, "", None);
    assert Append(None, model) == model;
    assert Words(model) == Some([model]);
    assert ["ollama"] + (["pull"] + [model]) == ["ollama", "pull", model];
  }

  /** A message mentioning "connection refused" also mentions "connect", so the first test of that branch never decides it. */
  lemma ConnectionRefusedMentionsConnect(message: string)
    ensures Contains(message, "connection refused") ==> Contains(message, "connect")
  {
    if Contains(message, "connection refused") {
      var i :| 0 <= i <= |message| - |"connection refused"| && "connection refused" <= message[i..];
      assert "connect" <= "connection refused";
    }
  }

  /**
   * One shell call is made; success is exactly a successful `ollama run`, whose output comes back
   * trimmed of white space and of any lead-in; every failure message names Ollama.
   */
  lemma GenerateOutcome(h: Host, t: nat, defaultModel: string, content: string, options: SummaryOptions)
    ensures var g := GenerateSpec(h, t, defaultModel, content, options);
      var command := RunCommand(EffectiveModel(options.model, defaultModel), content, options.length);
      && g.ran == [command]
      && (g.value.Ok? <==> Succeeds(h, t, command))
      && (g.value.Ok? ==> NoOuterSpace(g.value.value))
      && (g.value.Err? ==> Brand <= g.value.error)
  {
  }

  /**
   * A failed `ollama run` whose message speaks of a connection, and not of a missing model, is
   * reported as the Ollama service not running.
   */
  lemma ServiceDownReported(h: Host, t: nat, defaultModel: string, content: string, options: SummaryOptions)
    requires var command := RunCommand(EffectiveModel(options.model, defaultModel), content, options.length);
      var r := ExecResult(h.respond(t, Call(h, command)));
      r.Err? && Contains(r.error, "connect") && !Contains(r.error, "not found")
    ensures GenerateSpec(h, t, defaultModel, content, options).value == Err(ServiceDownMessage)
  {
  }

  // ---------------------------------------------------------------- availability

  /** `isAvailable()` from call `t` on: the `ollama` probe, then `ollama list` only if the probe found it. */
  function IsAvailableSpec(h: Host, t: nat): Traced<bool> {
    var probe := CheckCommandSpec(h, t, "ollama");
    if !probe.value then probe
    else After(probe.ran, Traced(Succeeds(h, t + |probe.ran|, ListCommand), [ListCommand]))
  }

  /**
   * Ollama is available exactly when one of the probes finds the executable and the following
   * `ollama list` succeeds; when no probe finds it, `ollama list` is never run.
   */
  lemma IsAvailableMeaning(h: Host, t: nat)
    ensures var probe := CheckCommandSpec(h, t, "ollama");
      var r := IsAvailableSpec(h, t);
      && (r.value <==> !AllFail(h, t, Probes("ollama")) && Succeeds(h, t + |probe.ran|, ListCommand))
      && (!probe.value ==> r.ran == Probes("ollama") && ListCommand !in r.ran)
      && (probe.value ==> r.ran == probe.ran + [ListCommand])
  {
    FirstSuccessFails(h, t, Probes("ollama"));
    var ps := Probes("ollama");
    assert ps[0][0] == 'w' && ps[1][0] == 'c' && ps[2][0] == 't' && ListCommand[0] == 'o';
  }

  // ---------------------------------------------------------------- model listing

  /** `line.split(/\s+/)[0]`: the longest prefix without white space. */
  function FirstToken(line: string): (token: string)
    ensures token <= line && NoSpace(token)
    ensures |token| < |line| ==> IsSpace(line[|token|])
    decreases |line|
  {
    if line == [] || IsSpace(line[0]) then []
    else [line[0]] + FirstToken(line[1..])
  }

  /** A line is reported when it is not blank and its first column is non-empty and does not hold "NAME". */
  predicate Reported(line: string) {
    Trim(line) != [] && FirstToken(line) != [] && !Contains(FirstToken(line), "NAME")
  }

  /** What one line of the listing contributes: its first column when the line is reported. */
  function LineModel(line: string): seq<string> {
    if Reported(line) then [FirstToken(line)] else []
  }

  /** The model names read from the lines of `ollama list` after the header. */
  function ModelNames(lines: seq<string>): (names: seq<string>)
    ensures |names| <= |lines|
    decreases |lines|
  {
    if lines == [] then []
    else LineModel(lines[0]) + ModelNames(lines[1..])
  }

  /** Every name reported is non-empty, holds no white space and does not contain "NAME". */
  lemma {:induction false} ModelNamesAreTokens(lines: seq<string>)
    ensures forall m :: m in ModelNames(lines) ==> m != [] && NoSpace(m) && !Contains(m, "NAME")
    decreases |lines|
  {
    if lines != [] {
      ModelNamesAreTokens(lines[1..]);
    }
  }

  /** The models listed by an `ollama list` output: its first line is the column header. */
  function ParseModels(output: string): seq<string> {
    ModelNames(Split(output, '\n')[1..])
  }

  /** A line that starts with a non-blank character is not blank after trimming. */
  lemma NonBlankStart(line: string)
    requires line != [] && !IsSpace(line[0])
    ensures Trim(line) != []
  {
    TrimStartNoop(line);
    TrimEndRemovesSpace(line);
  }

  /** The blank-line test is implied by the token test: a line is reported exactly for its token. */
  lemma ReportedByToken(line: string)
    ensures Reported(line) <==> FirstToken(line) != [] && !Contains(FirstToken(line), "NAME")
  {
    if FirstToken(line) != [] {
      NonBlankStart(line);
    }
  }

  /** The first line contributes its model ahead of the rest. */
  lemma ModelNamesCons(line: string, rest: seq<string>)
    ensures ModelNames([line] + rest) == LineModel(line) + ModelNames(rest)
  {
    assert ([line] + rest)[1..] == rest;
  }

  /** Listing is line by line: the models of two blocks of lines are those of each, in order. */
  lemma {:induction false} ModelNamesAppend(a: seq<string>, b: seq<string>)
    ensures ModelNames(a + b) == ModelNames(a) + ModelNames(b)
    decreases |a|
  {
    if a == [] {
      assert a + b == b;
    } else {
      var line, rest := a[0], a[1..];
      assert a == [line] + rest;
      assert a + b == [line] + (rest + b);
      ModelNamesCons(line, rest);
      ModelNamesCons(line, rest + b);
      ModelNamesAppend(rest, b);
    }
  }


  /** A name is listed exactly when it is the non-empty, "NAME"-free first column of some line. */
  lemma {:induction false} ModelNamesMembership(lines: seq<string>, m: string)
    ensures m in ModelNames(lines) <==>
      m != [] && !Contains(m, "NAME") && exists i :: 0 <= i < |lines| && FirstToken(lines[i]) == m
    decreases |lines|
  {
    if lines != [] {
      ModelNamesMembership(lines[1..], m);
      ReportedByToken(lines[0]);
      if exists i :: 0 <= i < |lines| && FirstToken(lines[i]) == m {
        var i :| 0 <= i < |lines| && FirstToken(lines[i]) == m;
        if i > 0 {
          assert lines[1..][i - 1] == lines[i];
        }
      }
      if exists j :: 0 <= j < |lines[1..]| && FirstToken(lines[1..][j]) == m {
        var j :| 0 <= j < |lines[1..]| && FirstToken(lines[1..][j]) == m;
        assert lines[j + 1] == lines[1..][j];
      }
    }
  }

  /** The header line never yields a model, whatever it holds. */
  lemma HeaderSkipped(header: string, rest: string)
    requires '\n' !in header
    ensures ParseModels(header + "\n" + rest) == ModelNames(Split(rest, '\n'))
  {
    SplitAtSeparator(header, rest, '\n');
    assert header + "\n" + rest == header + ['\n'] + rest;
  }

  /** `getAvailableModels()` as the `t`-th shell call: the parsed listing, or nothing when `ollama list` fails. */
  function ModelsSpec(h: Host, t: nat): Traced<seq<string>> {
    var r := ExecResult(h.respond(t, Call(h, ListCommand)));
    Traced(if r.Ok? then ParseModels(r.value) else [], [ListCommand])
  }

  /** Every model reported is a first column of a line after the header of a successful listing. */
  lemma ModelsComeFromListing(h: Host, t: nat, m: string)
    ensures m in ModelsSpec(h, t).value ==>
      var r := ExecResult(h.respond(t, Call(h, ListCommand)));
      && r.Ok? && m != [] && NoSpace(m)
      && exists i :: 1 <= i < |Split(r.value, '\n')| && FirstToken(Split(r.value, '\n')[i]) == m
  {
    var r := ExecResult(h.respond(t, Call(h, ListCommand)));
    if m in ModelsSpec(h, t).value {
      var lines := Split(r.value, '\n')[1..];
      ModelNamesMembership(lines, m);
      var i :| 0 <= i < |lines| && FirstToken(lines[i]) == m;
      assert lines[i] == Split(r.value, '\n')[i + 1];
      var k :| 0 <= k < |ModelNames(lines)| && ModelNames(lines)[k] == m;
    }
  }

  // ---------------------------------------------------------------- the provider object

  class OllamaProvider {
    /** The model used when a request names none. */
    var defaultModel: string

    constructor (defaultModel: string)
      ensures this.defaultModel == defaultModel
    {
      this.defaultModel := defaultModel;
    }

    /** The constructor called without an argument. */
    constructor Default()
      ensures defaultModel == DefaultModel
    {
      defaultModel := DefaultModel;
    }

    /** `generateSummary(content, options)`: run the model on the prompt and clean up its answer. */
    method GenerateSummary(sh: Shell, content: string, options: SummaryOptions) returns (r: Result<string, string>)
      modifies sh
      ensures r == GenerateSpec(sh.host, |old(sh.log)|, defaultModel, content, options).value
      ensures sh.log == old(sh.log) + GenerateSpec(sh.host, |old(sh.log)|, defaultModel, content, options).ran
    {
      var model := if options.model.Some? && options.model.value != [] then options.model.value else defaultModel;
      var prompt := FormatPrompt(content, options.length);
      var escapedPrompt := EscapeShellArg(prompt);
      var command := "ollama run " + model + " " + escapedPrompt;
      var result := Execute(sh, command);
      if result.Ok? {
        var cleaned := ValidateSummary(result.value);
        r := Ok(cleaned);
      } else {
        r := Err(ClassifyError(model, result.error));
      }
    }

    /** `isAvailable()`: never fails; false when the executable is missing or `ollama list` fails. */
    method IsAvailable(sh: Shell) returns (available: bool)
      modifies sh
      ensures available == IsAvailableSpec(sh.host, |old(sh.log)|).value
      ensures sh.log == old(sh.log) + IsAvailableSpec(sh.host, |old(sh.log)|).ran
    {
      var hasOllama := CheckCommand(sh, "ollama");
      if !hasOllama {
        return false;
      }
      var listed := Execute(sh, ListCommand);
      available := listed.Ok?;
    }

    /** `getAvailableModels()`: the installed models, or none when listing fails. */
    method GetAvailableModels(sh: Shell) returns (models: seq<string>)
      modifies sh
      ensures models == ModelsSpec(sh.host, |old(sh.log)|).value
      ensures sh.log == old(sh.log) + ModelsSpec(sh.host, |old(sh.log)|).ran
    {
      var output := Execute(sh, ListCommand);
      if output.Err? {
        return [];
      }
      models := ParseModels(output.value);
    }

    /** `pullModel(model)`: runs `ollama pull`; a failure is passed on with `execute`'s message unchanged. */
    method PullModel(sh: Shell, model: string) returns (r: Result<(), string>)
      modifies sh
      ensures sh.log == old(sh.log) + [PullCommand(model)]
      ensures r.Ok? <==> Succeeds(sh.host, |old(sh.log)|, PullCommand(model))
      ensures r.Err? ==> r.error == ExecResult(sh.host.respond(|old(sh.log)|, Call(sh.host, PullCommand(model)))).error
    {
      var command := "ollama pull " + model;
      var result := Execute(sh, command);
      if result.Err? {
        return Err(result.error);
      }
      return Ok(());
    }

    /** `setDefaultModel(model)`. */
    method SetDefaultModel(model: string)
      modifies this
      ensures defaultModel == model
    {
      defaultModel := model;
    }
  }
}
