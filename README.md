# obsidian-summairize in Dafny

obsidian-summairize is an Obsidian plugin that summarises the current note with a local language
model. The plugin first decides whether the note may be summarised at all, because templates and
daily notes are excluded. It then checks the note and prepares it. Next it asks the chosen AI
provider whether it is available. The only provider is Ollama, which the plugin drives through the
`ollama` command line. Finally it runs the model on a fixed prompt and cleans up the answer. The
settings live in the plugin's data file and are edited in a settings tab.

This project models that core in Dafny and proves its properties:

- `ShellExecutor` (`shell_executor.dfy`): quoting a shell argument, the search path handed to child
  processes, running one command, and the three-step "does this command exist" probe. The
  operating system is the class `Shell`. It holds the child PATH, built once from PATH and HOME, and
  an oracle that answers the n-th command. Its `log` records every command line run.
- `ShellWords` (`shell_words.dfy`): how a POSIX shell splits a command line into words and removes
  quotes. This is the reference against which quoting is proved.
- `AIProvider` (`ai_provider.dfy`): the prompt template and the clean-up of a model's answer.
- `OllamaProvider` (`ollama_provider.dfy`): the Ollama provider class, covering summary, availability,
  model listing, pull and default model. Every method that runs commands for a result (summary,
  availability, listing) is proved against a function `…Spec(host, t, …)`. That function gives the
  result and the commands run, starting at shell call `t`. The pull and the default-model setter
  state their effect directly.
- `AIService` (`ai_service.dfy`): the service class that turns a note into a `SummaryResult`,
  reports provider status and forwards settings.
- `FileFilter` (`file_filter.dfy`) and `Plugin` (`plugin.dfy`, which models `getExclusionReason` in
  main.ts): which notes are excluded, and the reason shown for each.
- `SettingsManager` (`settings_manager.dfy`): defaults, load as a merge over the defaults, save,
  single-field update, the comma-separated template-folder text box and the summary-length slider.
- `Types`, `Strings`, `Wrappers`: the shared records, the JavaScript string built-ins used, and
  Option/Result.

## Model

| member | source | states |
|---|---|---|
| ShellExecutor.EscapeShellArg | src/utils/ShellExecutor.ts:71-74 | the escaped argument begins and ends with a single quote |
| ShellExecutor.EscapeLength | src/utils/ShellExecutor.ts:71-74 | the escaped form is the argument plus two outer quotes plus four characters per embedded `'` |
| ShellExecutor.EscapeWithoutQuotes | src/utils/ShellExecutor.ts:71-74 | an argument with no `'` is only wrapped in one pair of quotes |
| ShellExecutor.EscapeRoundTrip | src/utils/ShellExecutor.ts:71-74 | for every argument, including quotes, `$`, newlines and blanks, the shell reads the escaped form as exactly one word equal to the argument |
| ShellExecutor.BuildPathExtends | src/utils/ShellExecutor.ts:12-24 | the child PATH keeps the inherited PATH as its first entry when that is set and non-empty, and drops it otherwise; the added directories follow in their fixed order, joined by `:` |
| ShellExecutor.BuildPathAgreesWhenHomeSet | src/utils/ShellExecutor.ts:14-23 | with HOME set, the filter-and-join as written equals the corrected PATH |
| ShellExecutor.UnsetHomeAddsRelativeEntry | src/utils/ShellExecutor.ts:22-23 | with HOME unset, the PATH as written ends in the relative entry `undefined/.local/bin` (see Findings) |
| ShellExecutor.AddedDirsAbsolute | src/utils/ShellExecutor.ts:14-22 | with the corrected PATH, every added directory is absolute whenever HOME is unset or absolute |
| ShellExecutor.Shell.constructor | src/utils/ShellExecutor.ts:12-24 | the shell's child PATH is the corrected one built from PATH and HOME, which drops the home entry when HOME is unset (see Findings); nothing has run yet |
| ShellExecutor.Shell.Spawn | src/utils/ShellExecutor.ts:26-30 | the command is appended to the log, and its outcome is the oracle's answer for that call number under the child PATH |
| ShellExecutor.Execute | src/utils/ShellExecutor.ts:9-46 | exactly the command is run, and the result is the outcome mapped by `ExecResult` |
| ShellExecutor.ExecuteSuccess | src/utils/ShellExecutor.ts:32-36 | a completed command yields its trimmed standard output whatever the standard error holds, with no outer white space |
| ShellExecutor.ExecuteErrorPriority | src/utils/ShellExecutor.ts:37-45 | an error is never a success; ENOENT gives the not-found message before SIGTERM gives the timeout message, and otherwise `Command failed: ` is prefixed to the message |
| ShellExecutor.FirstSuccessRunsPrefix | src/utils/ShellExecutor.ts:57-64 | the probes run are a prefix of the probe list, in order |
| ShellExecutor.FirstSuccessStopsAtSuccess | src/utils/ShellExecutor.ts:57-64 | every probe run before the last one failed, and the answer is true exactly when the last probe run succeeded |
| ShellExecutor.FirstSuccessFails | src/utils/ShellExecutor.ts:57-65 | the answer is false exactly when every probe fails, and then all of them ran |
| ShellExecutor.CheckCommandProbesInOrder | src/utils/ShellExecutor.ts:48-69 | `checkCommand` runs one to three probes starting with `which <command>`; it is true exactly when some probe succeeds; when it is false, all three probes ran |
| ShellExecutor.CheckCommand | src/utils/ShellExecutor.ts:48-69 | result and commands run are those of the probe specification; it never fails |
| ShellExecutor.RunProbes | src/utils/ShellExecutor.ts:57-65 | the probe loop with early return, proved against the first-success specification |
| Strings.Trim | src/utils/ShellExecutor.ts:36 | `trim()` leaves no white space at either end and never lengthens |
| Strings.Contains | src/utils/FileFilter.ts:28 | `includes(sub)` holds exactly when `sub` occurs at some position |
| Strings.JoinSplit | src/settings/SettingsManager.ts:108-110 | joining the pieces of a split with the separator gives back the string |
| Strings.SplitAtSeparator | src/settings/SettingsManager.ts:110 | splitting `x + sep + y`, with no separator in `x`, gives `x` followed by the pieces of `y` |
| Strings.TrimPadded | src/settings/SettingsManager.ts:110 | trimming white space followed by a trimmed string gives that string |
| AIProvider.FormatPrompt | src/services/AIProvider.ts:8-10 | the prompt ends with a blank line followed by the content verbatim |
| AIProvider.PromptInstructionDependsOnLengthOnly | src/services/AIProvider.ts:8-10 | the text before the content depends on the length alone |
| AIProvider.PromptDeterminesInputs | src/services/AIProvider.ts:8-10 | two equal prompts have equal lengths and equal contents |
| AIProvider.FirstMatchIsFirst | src/services/AIProvider.ts:26-33 | the lead-in tried is the first in list order that the answer starts with, ignoring case; none is found exactly when none matches |
| AIProvider.StripIndicator | src/services/AIProvider.ts:28-31 | after a lead-in is removed, the text has no outer white space and is shorter by at least the lead-in |
| AIProvider.CleanedWith | src/services/AIProvider.ts:12-37 | a cleaned answer has no outer white space and is no longer than the answer |
| AIProvider.Cleaned | src/services/AIProvider.ts:12-37 | `validateSummary` returns text with no outer white space, no longer than its input |
| AIProvider.ValidateSummary | src/services/AIProvider.ts:12-37 | the method returns the cleaned answer |
| AIProvider.StripLeadIn | src/services/AIProvider.ts:26-34 | the loop with `break` equals removing the first matching lead-in |
| AIProvider.NoIndicatorOnlyTrims | src/services/AIProvider.ts:14-34 | an answer that starts with no lead-in is only trimmed |
| AIProvider.FirstMatchingIndicatorRemoved | src/services/AIProvider.ts:26-34 | the first matching lead-in, and only that one, is removed |
| AIProvider.SummaryLabelRemoved | src/services/AIProvider.ts:20-34 | `Summary:` in any case, then a space, is removed once, and the rest comes back unchanged |
| AIProvider.LeadInRemoved | src/services/AIProvider.ts:26-34 | a lead-in that starts the trimmed answer, with no earlier match, is removed together with the space after it |
| AIProvider.StripTag | src/services/AIProvider.ts:28 | for an answer made of a tag, a space and a trimmed body that starts with no colon, cutting off a lead-in as long as the tag and re-trimming leaves exactly the body |
| AIProvider.ColonAfterLeadInRemoved | src/services/AIProvider.ts:29-31 | one colon after the lead-in is removed with the space after it |
| AIProvider.SecondColonKept | src/services/AIProvider.ts:29-31 | only one colon is removed, so a second one stays |
| AIProvider.TagMatchesThirdIndicator | src/services/AIProvider.ts:17-24 | a `Summary:` tag matches the third lead-in and neither of the two before it |
| AIProvider.LabelExample | src/services/AIProvider.ts:12-37 | `Summary: The text covers X and Y.` is cleaned to `The text covers X and Y.` |
| AIProvider.CleanedNotIdempotent | src/services/AIProvider.ts:26-34 | only one lead-in is removed, so cleaning twice can differ from cleaning once |
| OllamaProvider.EffectiveModel | src/services/OllamaProvider.ts:14 | the requested model is used unless it is absent or empty, and then the default is used |
| OllamaProvider.ClassifyError | src/services/OllamaProvider.ts:26-37 | every message `generateSummary` throws starts with `Ollama `; a message about a missing model gets the pull hint first, then one about a connection gets the service-down message, then `Command not found` gets the not-installed message, and any other message is prefixed with `Ollama error: ` |
| OllamaProvider.ModelMissingMessage | src/services/OllamaProvider.ts:29 | the missing-model message starts with `Ollama ` |
| OllamaProvider.RunCommandWords | src/services/OllamaProvider.ts:15-21 | for a model name that needs no quoting, the shell reads `ollama run` as four words, the last being the prompt unchanged |
| OllamaProvider.SpacedModelSplits | src/services/OllamaProvider.ts:14-21 | a model name with a blank is not quoted and reaches `ollama` as two arguments |
| OllamaProvider.PullCommandWords | src/services/OllamaProvider.ts:76 | `ollama pull` receives the model as its third word |
| OllamaProvider.ConnectionRefusedMentionsConnect | src/services/OllamaProvider.ts:30 | any message that contains `connection refused` also contains `connect` |
| OllamaProvider.ServiceDownReported | src/services/OllamaProvider.ts:26-31 | a failed `ollama run` whose message mentions a connection and no missing model is reported as the service not running |
| OllamaProvider.GenerateOutcome | src/services/OllamaProvider.ts:13-38 | exactly one `ollama run` is made; the result is a success exactly when that run succeeds, then with no outer white space; every failure message starts with `Ollama ` |
| OllamaProvider.IsAvailableMeaning | src/services/OllamaProvider.ts:40-54 | available exactly when some probe finds `ollama` and the `ollama list` that follows succeeds; when no probe finds it, `ollama list` never runs |
| OllamaProvider.FirstToken | src/services/OllamaProvider.ts:66 | the first column of a line is its longest prefix without white space |
| OllamaProvider.ModelNamesAreTokens | src/services/OllamaProvider.ts:64-67 | every model reported is non-empty, has no white space and does not contain `NAME` |
| OllamaProvider.ModelNamesAppend | src/services/OllamaProvider.ts:64-67 | lines are read one at a time, so two blocks of lines give their models in order |
| OllamaProvider.ModelNamesMembership | src/services/OllamaProvider.ts:64-67 | a name is reported exactly when it is the non-empty, `NAME`-free first column of some line |
| OllamaProvider.NonBlankStart | src/services/OllamaProvider.ts:65 | a line that starts with a non-blank character survives the blank-line filter |
| OllamaProvider.ReportedByToken | src/services/OllamaProvider.ts:65-67 | the blank-line filter adds nothing to the first-column filter |
| OllamaProvider.HeaderSkipped | src/services/OllamaProvider.ts:63 | the first output line never yields a model, whatever it holds |
| OllamaProvider.ModelsComeFromListing | src/services/OllamaProvider.ts:60-73 | every model returned comes from a successful `ollama list`, as the first column of a line after the header |
| OllamaProvider.OllamaProvider.constructor | src/services/OllamaProvider.ts:8-11 | the default model is the one given |
| OllamaProvider.OllamaProvider.Default | src/services/OllamaProvider.ts:8 | without an argument the default model is `gemma3:4b`, the default in the settings |
| OllamaProvider.OllamaProvider.GenerateSummary | src/services/OllamaProvider.ts:13-38 | result and commands run are those of the generate specification |
| OllamaProvider.OllamaProvider.IsAvailable | src/services/OllamaProvider.ts:40-54 | result and commands run are those of the availability specification |
| OllamaProvider.OllamaProvider.GetAvailableModels | src/services/OllamaProvider.ts:60-73 | result and commands run are those of the listing specification |
| OllamaProvider.OllamaProvider.PullModel | src/services/OllamaProvider.ts:75-78 | only `ollama pull <model>` is run; the result is a success exactly when it succeeds, and otherwise carries `execute`'s message unchanged |
| OllamaProvider.OllamaProvider.SetDefaultModel | src/services/OllamaProvider.ts:80-82 | the default model becomes the one given |
| AIService.Outcome | src/services/AIService.ts:64-83 | success exactly when the provider answered with text that is non-empty after trimming, and the summary is then that trimmed text; a blank answer fails with `Generated summary is empty`; a thrown message is passed on, or `Unknown error occurred while generating summary` when it is empty; a failure never has a summary |
| AIService.InvalidNoteRunsNothing | src/services/AIService.ts:28-34 | an invalid note is refused with the validator's reason before any command runs |
| AIService.UnregisteredProviderRunsNothing | src/services/AIService.ts:37-43 | an unregistered provider is reported by its key before any command runs |
| AIService.UnavailableRunsNoModel | src/services/AIService.ts:46-52 | when the provider is unavailable, only the availability check runs and the result is the not-available message |
| AIService.SuccessIsCleanedAnswer | src/services/AIService.ts:25-84 | success exactly when the note is valid, the provider is registered and available, and the model's cleaned answer is non-empty; the summary is then that answer |
| AIService.AttemptAnswer | src/services/AIService.ts:46-76 | the shell stage of the above: success exactly when the provider is available and its cleaned answer is non-empty |
| AIService.AttemptWhenAvailable | src/services/AIService.ts:46-64 | with the provider available, the request is made right after the check and its answer decides the outcome |
| AIService.AttemptWhenUnavailable | src/services/AIService.ts:46-52 | with the provider unavailable, the outcome is the not-available message after the check alone |
| AIService.ProviderErrorReachesUser | src/services/AIService.ts:46-83 | when the provider is available but its request fails, the result is a failure carrying the provider's own message |
| AIService.ServiceDownReachesUser | src/services/AIService.ts:46-83 | when Ollama is available but `ollama run` fails with a connection message, the user is told that the Ollama service is not running |
| AIService.OutcomeOfCleaned | src/services/AIService.ts:66-76 | an already trimmed answer is passed on unchanged when it is non-empty |
| AIService.ModelFollowsSettings | src/services/AIService.ts:15-64 | with the registry the service builds, a provider other than Ollama fails before any command runs; with Ollama, the model run is the configured one on the prepared note |
| AIService.DefaultSettingsFindProvider | src/services/AIService.ts:15-18 | the default settings choose a registered provider, with the default model |
| AIService.StatusKeys | src/services/AIService.ts:86-98 | the status has exactly one entry per registered provider |
| AIService.StatusOfOllama | src/services/AIService.ts:86-98 | with Ollama alone, the status is Ollama's availability, from its check alone |
| AIService.AIService.constructor | src/services/AIService.ts:10-23 | the service keeps the settings and registers one Ollama provider with the configured model |
| AIService.AIService.Registry | src/services/AIService.ts:7-18 | the registered models are keyed by the registered providers |
| AIService.AIService.GenerateSummary | src/services/AIService.ts:25-84 | result and commands run are those of the summary specification; it never fails |
| AIService.AIService.Attempt | src/services/AIService.ts:46-76 | availability check, then request, proved against the attempt specification |
| AIService.AIService.GetProviderStatus | src/services/AIService.ts:86-98 | the loop over providers, proved against the status specification |
| AIService.AIService.AvailableProviders | src/services/AIService.ts:100-102 | the registered keys, in registration order |
| AIService.AIService.UpdateSettings | src/services/AIService.ts:104-112 | the settings are replaced, and the Ollama provider gets the new model; the service invariant is kept |
| AIService.AIService.GetOllamaModels | src/services/AIService.ts:114-120 | the Ollama provider's listing, or nothing without that provider |
| AIService.AIService.PullOllamaModel | src/services/AIService.ts:122-129 | pulls through the Ollama provider, whose failure message from `execute` is passed on unchanged; without that provider it fails with `Ollama provider not available` and runs nothing |
| Types.ProviderKey | src/types/index.ts:2 | each provider has one of the three keys, and `ollama` belongs to Ollama alone |
| Types.ProviderKeyInjective | src/types/index.ts:2 | different providers have different keys |
| FileFilter.FirstFolder | src/utils/FileFilter.ts:27-31 | the folder found is in the list and is included in the lowercased path; none is found exactly when no entry is included |
| FileFilter.FirstFolderIsFirst | src/utils/FileFilter.ts:27-31 | the folder found is the earliest matching entry in list order |
| FileFilter.TemplateMeaning | src/utils/FileFilter.ts:23-39 | a template file is one whose lowercased path includes some lowercased folder entry, or whose lowercased name includes `template` |
| FileFilter.NothingExcludedWhenSwitchedOff | src/utils/FileFilter.ts:11-21 | with both switches off, no file is excluded |
| FileFilter.EmptyFolderMatchesEverything | src/utils/FileFilter.ts:27-31 | an empty folder entry makes every file a template file |
| FileFilter.EmptyFolderExcludesEverything | src/utils/FileFilter.ts:11-31 | with templates excluded, an empty folder entry excludes every file |
| FileFilter.TemplateIgnoresCase | src/utils/FileFilter.ts:28-34 | the letter case of the path and the name does not change the template rule |
| FileFilter.FolderCaseIgnored | src/utils/FileFilter.ts:28 | the letter case of the folder entries does not change the template rule |
| FileFilter.DailyIgnoresPathCase | src/utils/FileFilter.ts:41-57 | the letter case of the path does not change the daily-note rule |
| FileFilter.DecisionFollowsSettings | src/utils/FileFilter.ts:59-61 | the decision depends only on the settings, so filters with the same settings agree |
| FileFilter.FileFilter.constructor | src/utils/FileFilter.ts:7-9 | the filter keeps the settings it is given |
| FileFilter.FileFilter.IsExcludedFile | src/utils/FileFilter.ts:11-21 | excluded exactly when (templates excluded and a template file) or (daily notes excluded and a daily note) |
| FileFilter.FileFilter.IsTemplateFile | src/utils/FileFilter.ts:23-39 | the folder loop with early return, proved against the template rule |
| FileFilter.FileFilter.IsDailyNote | src/utils/FileFilter.ts:41-57 | the pattern matches the base name, or the lowercased path includes `daily notes` or `dailynotes` |
| FileFilter.FileFilter.UpdateSettings | src/utils/FileFilter.ts:59-61 | the settings are replaced wholesale |
| Plugin.ReasonText | main.ts:102-128 | only the fallback reason shows the fallback message |
| Plugin.Why | main.ts:102-128 | template reasons only when templates are excluded and daily reasons only when daily notes are excluded; the folder reason names the first matching folder; the name reason only when no folder matched; the pattern reason before the folder reason; the fallback exactly when the filter would not exclude the file |
| Plugin.GetExclusionReason | main.ts:102-128 | the fallback message is returned exactly when the file filter would not exclude the note |
| Plugin.TemplateReasonFirst | main.ts:103-113 | when the template rule applies, a template reason is given |
| Plugin.FolderReasonNamesFirstMatch | main.ts:105-109 | the folder named is the earliest entry that the lowercased path includes |
| SettingsManager.Get | src/settings/SettingsManager.ts:29-33 | a field's value has the field's type |
| SettingsManager.FieldsDetermineSettings | src/types/index.ts:1-9 | two settings records are equal exactly when every field is |
| SettingsManager.SetOnlyChangesField | src/settings/SettingsManager.ts:29-33 | writing a field makes it hold the value and leaves every other field unchanged |
| SettingsManager.SetOwnValue | src/settings/SettingsManager.ts:33 | writing back a field's own value changes nothing |
| SettingsManager.MergeField | src/settings/SettingsManager.ts:16 | each loaded field is the saved value when present, and the default otherwise |
| SettingsManager.MissingDataGivesDefaults | src/settings/SettingsManager.ts:15-16 | missing data, or data with no fields, loads the defaults |
| SettingsManager.Stored | src/settings/SettingsManager.ts:22 | saving writes every field |
| SettingsManager.SaveThenLoad | src/settings/SettingsManager.ts:14-23 | loading what was saved gives back the saved settings |
| SettingsManager.DataStore.constructor | src/settings/SettingsManager.ts:15 | the data file holds the given data |
| SettingsManager.DataStore.LoadData | src/settings/SettingsManager.ts:15 | `loadData` returns what the data file holds |
| SettingsManager.DataStore.SaveData | src/settings/SettingsManager.ts:22 | `saveData` writes every field of the settings |
| SettingsManager.SettingsManager.constructor | src/settings/SettingsManager.ts:9-12 | the manager starts with the default settings |
| SettingsManager.SettingsManager.LoadSettings | src/settings/SettingsManager.ts:14-18 | the saved data laid over the defaults becomes current and is returned |
| SettingsManager.SettingsManager.SaveSettings | src/settings/SettingsManager.ts:20-23 | the record becomes current and is written whole, so loading gives it back |
| SettingsManager.SettingsManager.GetSettings | src/settings/SettingsManager.ts:25-27 | returns a copy equal to the current settings |
| SettingsManager.SettingsManager.UpdateSetting | src/settings/SettingsManager.ts:29-35 | the field takes the value, every other field is kept, and the whole record is saved |
| SettingsManager.TrimAndDrop | src/settings/SettingsManager.ts:110 | from comma-free pieces, every entry kept is non-empty, trimmed and comma-free |
| SettingsManager.ParseFolders | src/settings/SettingsManager.ts:110 | every parsed folder is non-empty, trimmed and comma-free |
| SettingsManager.FolderRoundTrip | src/settings/SettingsManager.ts:108-110 | a list of clean entries, joined with `, ` and parsed again, is the same list |
| SettingsManager.ParseStable | src/settings/SettingsManager.ts:108-110 | parsing, showing and parsing again gives the first parse |
| SettingsManager.DefaultFoldersRoundTrip | src/settings/SettingsManager.ts:108-110 | the default folders `Templates, templates` survive the text box unchanged |
| SettingsManager.DefaultLengthOnSlider | src/settings/SettingsManager.ts:83 | the default length 500 is one of the slider's values, 100 to 1000 in steps of 50 |

## Left out

- The real `child_process.exec` is not modelled. Its outcome is an oracle answer indexed by call number and by the command line with its PATH. The 30-second timeout, SIGTERM delivery and the 1 MiB output buffer (src/utils/ShellExecutor.ts:7,26-30) only show up as the outcomes the oracle may give.
- The `console.warn` of a non-empty standard error (src/utils/ShellExecutor.ts:32-34) is not modelled. It is logging only.
- Only PATH is modelled out of the child environment, not the rest of `process.env`. PATH and HOME are read once, when the `Shell` is built, because the plugin never changes them.
- The outer `try`/`catch` of `checkCommand` (src/utils/ShellExecutor.ts:49,66-68) is not modelled. Nothing inside it can throw.
- `async`/`await` is not modelled. Every call runs to completion before the next one, in program order.
- The abstract `AIProvider` class and the provider interface are not modelled, because Ollama is the only provider that exists. The registry holds `OllamaProvider` objects, and the helpers every provider shares are functions of module `AIProvider`.
- `getDisplayName` (src/services/OllamaProvider.ts:56-58) is the constant `OllamaProvider.DisplayName`.
- `NoteUtils.validateContent`, `extractContentForSummary` and `truncateForAI` are given as the functions of a `NoteTools` value, because the NoteUtils module is not part of this model. Exceptions they might throw (caught at src/services/AIService.ts:78-83) are not modelled.
- The regular-expression test for daily notes is a parameter `(pattern, subject) -> bool`. An invalid pattern, which makes `new RegExp` throw (src/utils/FileFilter.ts:43, main.ts:117), is not modelled.
- `toLowerCase` is modelled on ASCII letters only. Other letters keep their case in the model.
- `summaryLength` is an integer. A fractional JavaScript number would print differently in the prompt.
- The plugin's saved data is a typed record whose fields may each be missing. Fields of the wrong type, extra keys and `null` values are not modelled.
- The settings object is shared by reference between the settings manager, the plugin, the service and the filter. That aliasing is not modelled, only the explicit `updateSettings` calls that pass the new settings on. Records are values here, so the copy made by `getSettings` can never change the stored settings.
- The rest of main.ts is not modelled: commands, ribbon, note reading and writing, notifications, and the settings tab's other controls. Neither are the NotificationManager, the development scripts or the HTTP test script.
- OllamaProvider.ClassifyError: the contract states the branch order as conditions on the message. It does not state which branch `execute`'s own fixed messages (not found, timed out) reach. That needs facts of the form "this fixed text does not contain that word", and the verifier only settles those by expanding every character of both literals, which costs far more than the proof limit allows.
- ShellExecutor.Shell.constructor: the shell uses the corrected child PATH, not the one src/utils/ShellExecutor.ts:14-23 builds. With HOME unset, the source's PATH has an extra last entry `undefined/.local/bin`, and the model's does not. Every command the model runs (`Execute`, `CheckCommand`, the provider and service methods) therefore sees the intended PATH. The as-written PATH is kept as `BuildPathAsWritten`, and `UnsetHomeAddsRelativeEntry` and `BuildPathAgreesWhenHomeSet` state exactly where the two differ.
- AIService.AIService.GetProviderStatus: requires the service invariant `Valid()` that the constructor establishes and `UpdateSettings` keeps. That invariant says Ollama is the only registered provider.

## Findings

| source | as written | input that shows it | evidently intended | confidence | as-written member | corrected member |
|---|---|---|---|---|---|---|
| src/utils/ShellExecutor.ts:22-23 | `process.env.HOME + '/.local/bin'` is evaluated before `filter(Boolean)`, so with HOME unset the entry is the non-empty text `undefined/.local/bin` and survives the filter | PATH `/usr/bin` and HOME unset: the child PATH ends in `:/sbin:undefined/.local/bin`, a directory relative to the working directory | skip the home entry when HOME is unset, so every added directory is absolute | not executed | ShellExecutor.UnsetHomeAddsRelativeEntry | ShellExecutor.AddedDirsAbsolute |
