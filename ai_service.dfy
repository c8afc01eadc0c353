/**
 * The service the plugin calls to summarise a note: it validates and prepares the note, looks up
 * the provider chosen in the settings, checks that it is available, asks it for a summary and
 * turns the outcome into a `SummaryResult`.  It also reports provider status, lists and pulls
 * Ollama models, and passes new settings on to the Ollama provider.
 */
module AIService {
  import opened Wrappers
  import opened Strings
  import opened ShellExecutor
  import opened Types
  import opened AIProvider
  import opened OllamaProvider

  /** The outcome of the note check: valid, or invalid with an optional reason. */
  datatype ContentCheck = ContentCheck(isValid: bool, reason: Option<string>)

  /** The note helpers the service relies on; their own behaviour is not part of this model. */
  datatype NoteTools = NoteTools(
    validate: string -> ContentCheck,
    extract: string -> string,
    truncate: string -> string)

  const EmptySummaryMessage := "Generated summary is empty"
  const UnknownErrorMessage := "Unknown error occurred while generating summary"
  const OllamaMissingMessage := "Ollama provider not available"

  function ProviderMissingMessage(key: string): string {
    "AI provider '" + key + "' not found"
  }

  function UnavailableMessage(name: string): string {
    name + " is not available. Please check your installation and configuration."
  }

  /** The options sent to the provider: the configured length, and the Ollama model when Ollama is chosen. */
  function OptionsFor(settings: SummarySettings): SummaryOptions {
    SummaryOptions(settings.summaryLength, if settings.aiProvider == Ollama then Some(settings.ollamaModel) else None)
  }

  /** How the provider's answer, or the message it threw, becomes the service's result. */
  function Outcome(generated: Result<string, string>): (r: SummaryResult)
    ensures r.success ==> r.summary.Some? && r.summary.value != [] && NoOuterSpace(r.summary.value) && r.error.None?
    ensures !r.success ==> r.summary.None? && r.error.Some? && r.error.value != []
    ensures r.success <==> generated.Ok? && Trim(generated.value) != []
    ensures r.success ==> r.summary == Some(Trim(generated.value))
    ensures generated.Ok? && Trim(generated.value) == [] ==> r.error == Some(EmptySummaryMessage)
    ensures generated.Err? && generated.error != [] ==> r.error == Some(generated.error)
    ensures generated.Err? && generated.error == [] ==> r.error == Some(UnknownErrorMessage)
  {
    match generated
    case Ok(summary) =>
      if Trim(summary) == [] then Failure(EmptySummaryMessage)
      else SummaryResult(true, Some(Trim(summary)), None)
    case Err(message) =>
      Failure(if message == [] then UnknownErrorMessage else message)
  }

  /**
   * `generateSummary(content)` from shell call `t` on, with the registered providers given by the
   * default model of each.
   */
  function SummarySpec(h: Host, t: nat, settings: SummarySettings, registry: map<string, string>, tools: NoteTools, content: string): Traced<SummaryResult> {
    var check := tools.validate(content);
    var key := ProviderKey(settings.aiProvider);
    if !check.isValid then
      Traced(SummaryResult(false, None, check.reason), [])
    else if key !in registry then
      Traced(Failure(ProviderMissingMessage(key)), [])
    else
      AttemptSpec(h, t, registry[key], tools.truncate(tools.extract(content)), settings)
  }

  /** The part of `generateSummary` that uses the shell: the availability check, then the request. */
  function AttemptSpec(h: Host, t: nat, model: string, input: string, settings: SummarySettings): Traced<SummaryResult> {
    var available := IsAvailableSpec(h, t);
    if !available.value then
      Traced(Failure(UnavailableMessage(DisplayName)), available.ran)
    else
      var generated := GenerateSpec(h, Later(t, available.ran), model, input, OptionsFor(settings));
      Traced(Outcome(generated.value), available.ran + generated.ran)
  }

  /** An invalid note is refused with the validator's reason before any command runs. */
  lemma InvalidNoteRunsNothing(h: Host, t: nat, settings: SummarySettings, registry: map<string, string>, tools: NoteTools, content: string)
    requires !tools.validate(content).isValid
    ensures SummarySpec(h, t, settings, registry, tools, content)
      == Traced(SummaryResult(false, None, tools.validate(content).reason), [])
  {
  }

  /** A provider that is not registered is reported by its key, again before any command runs. */
  lemma UnregisteredProviderRunsNothing(h: Host, t: nat, settings: SummarySettings, registry: map<string, string>, tools: NoteTools, content: string)
    requires tools.validate(content).isValid && ProviderKey(settings.aiProvider) !in registry
    ensures SummarySpec(h, t, settings, registry, tools, content)
      == Traced(Failure("AI provider '" + ProviderKey(settings.aiProvider) + "' not found"), [])
  {
  }

  /** When the provider is not available nothing is generated: only the availability check runs. */
  lemma UnavailableRunsNoModel(h: Host, t: nat, settings: SummarySettings, registry: map<string, string>, tools: NoteTools, content: string)
    requires tools.validate(content).isValid && ProviderKey(settings.aiProvider) in registry
    requires !IsAvailableSpec(h, t).value
    ensures var r := SummarySpec(h, t, settings, registry, tools, content);
      && r.ran == IsAvailableSpec(h, t).ran
      && r.value == Failure(UnavailableMessage(DisplayName))
  {
  }

  /**
   * A summary is returned exactly when the note is valid, the provider is registered and available,
   * and the model's answer is not empty after clean-up; it is then that cleaned answer, which the
   * final trim leaves unchanged.
   */
  lemma SuccessIsCleanedAnswer(h: Host, t: nat, settings: SummarySettings, registry: map<string, string>, tools: NoteTools, content: string)
    ensures var r := SummarySpec(h, t, settings, registry, tools, content).value;
      var key := ProviderKey(settings.aiProvider);
      var available := IsAvailableSpec(h, t);
      var generated := GenerateSpec(h, Later(t, available.ran), if key in registry then registry[key] else "",
        tools.truncate(tools.extract(content)), OptionsFor(settings)).value;
      r.success <==> tools.validate(content).isValid && key in registry && available.value
                     && generated.Ok? && generated.value != [] && r.summary == Some(generated.value)
  {
    var key := ProviderKey(settings.aiProvider);
    if tools.validate(content).isValid && key in registry {
      var model := registry[key];
      var input := tools.truncate(tools.extract(content));
      AttemptAnswer(h, t, model, input, settings);
    }
  }

  /** The shell stage of `SuccessIsCleanedAnswer`. */
  lemma AttemptAnswer(h: Host, t: nat, model: string, input: string, settings: SummarySettings)
    ensures var r := AttemptSpec(h, t, model, input, settings).value;
      var available := IsAvailableSpec(h, t);
      var generated := GenerateSpec(h, Later(t, available.ran), model, input, OptionsFor(settings)).value;
      r.success <==> available.value && generated.Ok? && generated.value != [] && r.summary == Some(generated.value)
  {
    var available := IsAvailableSpec(h, t);
    var g := GenerateSpec(h, Later(t, available.ran), model, input, OptionsFor(settings)).value;
    GenerateOutcome(h, Later(t, available.ran), model, input, OptionsFor(settings));
    OutcomeOfCleaned(g);
    if available.value {
      AttemptWhenAvailable(h, t, model, input, settings);
    }
  }

  /** With the provider available, the attempt is the request made right after the check. */
  lemma AttemptWhenAvailable(h: Host, t: nat, model: string, input: string, settings: SummarySettings)
    requires IsAvailableSpec(h, t).value
    ensures AttemptSpec(h, t, model, input, settings).value
      == Outcome(GenerateSpec(h, Later(t, IsAvailableSpec(h, t).ran), model, input, OptionsFor(settings)).value)
    ensures AttemptSpec(h, t, model, input, settings).ran
      == IsAvailableSpec(h, t).ran + GenerateSpec(h, Later(t, IsAvailableSpec(h, t).ran), model, input, OptionsFor(settings)).ran
  {
  }

  /** With the provider unavailable, the attempt is the failed check alone. */
  lemma AttemptWhenUnavailable(h: Host, t: nat, model: string, input: string, settings: SummarySettings)
    requires !IsAvailableSpec(h, t).value
    ensures AttemptSpec(h, t, model, input, settings).value == Failure(UnavailableMessage(DisplayName))
    ensures AttemptSpec(h, t, model, input, settings).ran == IsAvailableSpec(h, t).ran
  {
  }

  /** When the provider is available but its request fails, the user sees the provider's own message. */
  lemma ProviderErrorReachesUser(h: Host, t: nat, model: string, input: string, settings: SummarySettings)
    requires IsAvailableSpec(h, t).value
    requires GenerateSpec(h, Later(t, IsAvailableSpec(h, t).ran), model, input, OptionsFor(settings)).value.Err?
    ensures var r := AttemptSpec(h, t, model, input, settings).value;
      !r.success && r.error == Some(GenerateSpec(h, Later(t, IsAvailableSpec(h, t).ran), model, input, OptionsFor(settings)).value.error)
  {
    var t1 := Later(t, IsAvailableSpec(h, t).ran);
    GenerateOutcome(h, t1, model, input, OptionsFor(settings));
    AttemptWhenAvailable(h, t, model, input, settings);
    assert GenerateSpec(h, t1, model, input, OptionsFor(settings)).value.error != [] by {
      assert |Brand| > 0;
    }
  }

  /**
   * When Ollama is available but `ollama run` fails with a message about the connection, and not
   * about a missing model, the user is told that the Ollama service is not running.
   */
  lemma ServiceDownReachesUser(h: Host, t: nat, model: string, input: string, settings: SummarySettings)
    requires IsAvailableSpec(h, t).value
    requires var options := OptionsFor(settings);
      var command := RunCommand(EffectiveModel(options.model, model), input, options.length);
      var r := ExecResult(h.respond(Later(t, IsAvailableSpec(h, t).ran), Call(h, command)));
      r.Err? && Contains(r.error, "connect") && !Contains(r.error, "not found")
    ensures AttemptSpec(h, t, model, input, settings).value.error == Some(ServiceDownMessage)
  {
    ServiceDownReported(h, Later(t, IsAvailableSpec(h, t).ran), model, input, OptionsFor(settings));
    ProviderErrorReachesUser(h, t, model, input, settings);
  }

  /** An answer that is already trimmed is reported as it is, when it is not empty. */
  lemma OutcomeOfCleaned(g: Result<string, string>)
    requires g.Ok? ==> NoOuterSpace(g.value)
    ensures Outcome(g).success <==> g.Ok? && g.value != [] && Outcome(g).summary == Some(g.value)
  {
    if g.Ok? {
      TrimOfTrimmed(g.value);
    }
  }

  /** The registry the service builds: only Ollama, with the model from the settings. */
  function OllamaOnly(settings: SummarySettings): map<string, string> {
    map["ollama" := settings.ollamaModel]
  }

  /**
   * With the registry the service builds, a choice other than Ollama always fails as "not found",
   * and with Ollama chosen the model run is the one in the settings, on the prepared note.
   */
  lemma ModelFollowsSettings(h: Host, t: nat, settings: SummarySettings, tools: NoteTools, content: string)
    requires tools.validate(content).isValid
    ensures var r := SummarySpec(h, t, settings, OllamaOnly(settings), tools, content);
      && (settings.aiProvider != Ollama ==> r.ran == [] && !r.value.success)
      && (settings.aiProvider == Ollama && IsAvailableSpec(h, t).value ==>
            r.ran == IsAvailableSpec(h, t).ran
              + [RunCommand(settings.ollamaModel, tools.truncate(tools.extract(content)), settings.summaryLength)])
  {
  }

  /** The default settings choose Ollama, which the service always registers. */
  lemma DefaultSettingsFindProvider()
    ensures ProviderKey(DefaultSettings.aiProvider) in OllamaOnly(DefaultSettings)
    ensures DefaultSettings.ollamaModel == DefaultModel
  {
  }

  /** `getProviderStatus()`: each registered provider's availability, checked in registration order. */
  function StatusSpec(h: Host, t: nat, names: seq<string>): Traced<map<string, bool>>
    decreases |names|
  {
    if names == [] then Traced(map[], [])
    else
      var before := StatusSpec(h, t, names[..|names| - 1]);
      var available := IsAvailableSpec(h, Later(t, before.ran));
      Traced(before.value[names[|names| - 1] := available.value], before.ran + available.ran)
  }

  /** The status map has exactly one entry per registered provider. */
  lemma {:induction false} StatusKeys(h: Host, t: nat, names: seq<string>)
    ensures StatusSpec(h, t, names).value.Keys == set n | n in names
    decreases |names|
  {
    if names != [] {
      var init := names[..|names| - 1];
      StatusKeys(h, t, init);
      assert names == init + [names[|names| - 1]];
    }
  }

  /** With Ollama as the only provider, the status is Ollama's availability. */
  lemma StatusOfOllama(h: Host, t: nat)
    ensures StatusSpec(h, t, ["ollama"]) == Traced(map["ollama" := IsAvailableSpec(h, t).value], IsAvailableSpec(h, t).ran)
  {
    assert ["ollama"][..0] == [];
  }

  class AIService {
    /** The registered provider keys, in registration order. */
    const names: seq<string>
    const providers: map<string, OllamaProvider>
    var settings: SummarySettings

    /** The service holds the Ollama provider alone, and that provider's model is the configured one. */
    ghost predicate Valid()
      reads this, providers.Values
    {
      && names == ["ollama"]
      && providers.Keys == {"ollama"}
      && providers["ollama"].defaultModel == settings.ollamaModel
    }

    /** The default model of each registered provider. */
    function Registry(): (r: map<string, string>)
      reads this, providers.Values
      ensures r.Keys == providers.Keys
    {
      map k | k in providers :: providers[k].defaultModel
    }

    /** Stores the settings and registers an Ollama provider for their model. */
    constructor (settings: SummarySettings)
      ensures this.settings == settings && Valid()
      ensures Registry() == OllamaOnly(settings)
    {
      var ollama := new OllamaProvider(settings.ollamaModel);
      this.settings := settings;
      names := ["ollama"];
      providers := map["ollama" := ollama];
    }

    /** `generateSummary(content)`: never throws; every failure becomes an unsuccessful result. */
    method GenerateSummary(sh: Shell, tools: NoteTools, content: string) returns (result: SummaryResult)
      modifies sh
      ensures result == SummarySpec(sh.host, |old(sh.log)|, settings, Registry(), tools, content).value
      ensures sh.log == old(sh.log) + SummarySpec(sh.host, |old(sh.log)|, settings, Registry(), tools, content).ran
    {
      var validation := tools.validate(content);
      if !validation.isValid {
        return SummaryResult(false, None, validation.reason);
      }
      var key := ProviderKey(settings.aiProvider);
      if key !in providers {
        return Failure(ProviderMissingMessage(key));
      }
      var provider := providers[key];
      var cleanContent := tools.extract(content);
      var truncatedContent := tools.truncate(cleanContent);
      result := Attempt(sh, provider, truncatedContent);
    }

    /** The shell stage of `generateSummary`: check availability, then ask the provider. */
    method Attempt(sh: Shell, provider: OllamaProvider, input: string) returns (result: SummaryResult)
      modifies sh
      ensures result == AttemptSpec(sh.host, |old(sh.log)|, provider.defaultModel, input, settings).value
      ensures sh.log == old(sh.log) + AttemptSpec(sh.host, |old(sh.log)|, provider.defaultModel, input, settings).ran
    {
      ghost var t := |sh.log|;
      ghost var model := provider.defaultModel;
      var isAvailable := provider.IsAvailable(sh);
      if !isAvailable {
        AttemptWhenUnavailable(sh.host, t, model, input, settings);
        return Failure(UnavailableMessage(DisplayName));
      }
      ghost var t1 := |sh.log|;
      assert t1 == Later(t, IsAvailableSpec(sh.host, t).ran);
      var summary := provider.GenerateSummary(sh, input, OptionsFor(settings));
      assert summary == GenerateSpec(sh.host, t1, model, input, OptionsFor(settings)).value;
      result := Outcome(summary);
      AttemptWhenAvailable(sh.host, t, model, input, settings);
    }

    /** `getProviderStatus()`: asks every registered provider, in order, whether it is available. */
    method GetProviderStatus(sh: Shell) returns (status: map<string, bool>)
      requires Valid()
      modifies sh
      ensures status == StatusSpec(sh.host, |old(sh.log)|, names).value
      ensures sh.log == old(sh.log) + StatusSpec(sh.host, |old(sh.log)|, names).ran
    {
      ghost var t := |sh.log|;
      status := map[];
      var i := 0;
      while i < |names|
        invariant 0 <= i <= |names|
        invariant status == StatusSpec(sh.host, t, names[..i]).value
        invariant sh.log == old(sh.log) + StatusSpec(sh.host, t, names[..i]).ran
      {
        var name := names[i];
        var available := providers[name].IsAvailable(sh);
        assert names[..i + 1][..i] == names[..i];
        status := status[name := available];
        i := i + 1;
      }
      assert names[..i] == names;
    }

    /** `getAvailableProviders()`: the registered keys in registration order. */
    function AvailableProviders(): (keys: seq<string>)
      reads this, providers.Values
      ensures Valid() ==> keys == ["ollama"] && (forall k :: k in keys <==> k in providers)
    {
      names
    }

    /** `updateSettings(settings)`: stores the settings and hands the Ollama model to the Ollama provider. */
    method UpdateSettings(settings: SummarySettings)
      modifies this, if "ollama" in providers then {providers["ollama"]} else {}
      ensures this.settings == settings
      ensures "ollama" in providers ==> providers["ollama"].defaultModel == settings.ollamaModel
      ensures old(Valid()) ==> Valid()
    {
      this.settings := settings;
      if "ollama" in providers {
        providers["ollama"].SetDefaultModel(settings.ollamaModel);
      }
    }

    /** `getOllamaModels()`: the Ollama provider's model list, or none without that provider. */
    method GetOllamaModels(sh: Shell) returns (models: seq<string>)
      modifies sh
      ensures "ollama" in providers ==> models == ModelsSpec(sh.host, |old(sh.log)|).value && sh.log == old(sh.log) + [ListCommand]
      ensures "ollama" !in providers ==> models == [] && sh.log == old(sh.log)
    {
      if "ollama" in providers {
        models := providers["ollama"].GetAvailableModels(sh);
      } else {
        models := [];
      }
    }

    /** `pullOllamaModel(model)`: pulls through the Ollama provider, or fails without it. */
    method PullOllamaModel(sh: Shell, model: string) returns (r: Result<(), string>)
      modifies sh
      ensures "ollama" in providers ==>
        (sh.log == old(sh.log) + [PullCommand(model)] && (r.Ok? <==> Succeeds(sh.host, |old(sh.log)|, PullCommand(model))))
      ensures "ollama" in providers && r.Err? ==>
        r.error == ExecResult(sh.host.respond(|old(sh.log)|, Call(sh.host, PullCommand(model)))).error
      ensures "ollama" !in providers ==> r == Err(OllamaMissingMessage) && sh.log == old(sh.log)
    {
      if "ollama" in providers {
        r := providers["ollama"].PullModel(sh, model);
      } else {
        r := Err(OllamaMissingMessage);
      }
    }
  }
}
