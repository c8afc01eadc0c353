/**
 * The settings store (src/settings/SettingsManager.ts): the settings start as the defaults, are
 * loaded by laying the plugin's saved data over the defaults, are saved whole, and are changed one
 * field at a time.  Also the settings tab's text form of the template-folder list (a
 * comma-separated line) and the range of its summary-length slider.
 */
module SettingsManager {
  import opened Wrappers
  import opened Strings
  import opened Types

  // ---------------------------------------------------------------- fields

  /** The keys of the settings record. */
  datatype Field =
    | AiProvider
    | OllamaModel
    | SummaryLength
    | ExcludeTemplates
    | ExcludeDailyNotes
    | DailyNotesPattern
    | TemplateFolders

  /** A value that some field can hold. */
  datatype Value =
    | ProviderValue(provider: ProviderId)
    | TextValue(text: string)
    | NumberValue(number: int)
    | FlagValue(flag: bool)
    | ListValue(list: seq<string>)

  /** `SummarySettings[K]`: the value has the type of the field. */
  predicate Fits(field: Field, value: Value) {
    match field
    case AiProvider => value.ProviderValue?
    case OllamaModel => value.TextValue?
    case SummaryLength => value.NumberValue?
    case ExcludeTemplates => value.FlagValue?
    case ExcludeDailyNotes => value.FlagValue?
    case DailyNotesPattern => value.TextValue?
    case TemplateFolders => value.ListValue?
  }

  /** `settings[field]`. */
  function Get(settings: SummarySettings, field: Field): (value: Value)
    ensures Fits(field, value)
  {
    match field
    case AiProvider => ProviderValue(settings.aiProvider)
    case OllamaModel => TextValue(settings.ollamaModel)
    case SummaryLength => NumberValue(settings.summaryLength)
    case ExcludeTemplates => FlagValue(settings.excludeTemplates)
    case ExcludeDailyNotes => FlagValue(settings.excludeDailyNotes)
    case DailyNotesPattern => TextValue(settings.dailyNotesPattern)
    case TemplateFolders => ListValue(settings.templateFolders)
  }

  /** `settings[field] = value` on a copy. */
  function Set(settings: SummarySettings, field: Field, value: Value): SummarySettings
    requires Fits(field, value)
  {
    match field
    case AiProvider => settings.(aiProvider := value.provider)
    case OllamaModel => settings.(ollamaModel := value.text)
    case SummaryLength => settings.(summaryLength := value.number)
    case ExcludeTemplates => settings.(excludeTemplates := value.flag)
    case ExcludeDailyNotes => settings.(excludeDailyNotes := value.flag)
    case DailyNotesPattern => settings.(dailyNotesPattern := value.text)
    case TemplateFolders => settings.(templateFolders := value.list)
  }

  /** Two settings records are equal exactly when every field is. */
  lemma FieldsDetermineSettings(a: SummarySettings, b: SummarySettings)
    ensures (forall field :: Get(a, field) == Get(b, field)) <==> a == b
  {
    if forall field :: Get(a, field) == Get(b, field) {
      assert Get(a, AiProvider) == Get(b, AiProvider);
      assert Get(a, OllamaModel) == Get(b, OllamaModel);
      assert Get(a, SummaryLength) == Get(b, SummaryLength);
      assert Get(a, ExcludeTemplates) == Get(b, ExcludeTemplates);
      assert Get(a, ExcludeDailyNotes) == Get(b, ExcludeDailyNotes);
      assert Get(a, DailyNotesPattern) == Get(b, DailyNotesPattern);
      assert Get(a, TemplateFolders) == Get(b, TemplateFolders);
    }
  }

  /** Writing a field makes it hold the value and leaves every other field as it was. */
  lemma SetOnlyChangesField(settings: SummarySettings, field: Field, value: Value, other: Field)
    requires Fits(field, value)
    ensures Get(Set(settings, field, value), other) == if other == field then value else Get(settings, other)
  {
  }

  /** Writing back a field's own value changes nothing. */
  lemma SetOwnValue(settings: SummarySettings, field: Field)
    ensures Set(settings, field, Get(settings, field)) == settings
  {
  }

  // ---------------------------------------------------------------- saved data

  /** What the plugin's data file holds: any of the fields, each possibly missing. */
  datatype StoredData = StoredData(
    aiProvider: Option<ProviderId>,
    ollamaModel: Option<string>,
    summaryLength: Option<int>,
    excludeTemplates: Option<bool>,
    excludeDailyNotes: Option<bool>,
    dailyNotesPattern: Option<string>,
    templateFolders: Option<seq<string>>)

  /** The stored value of a field, if the data has one. */
  function Lookup(data: StoredData, field: Field): (value: Option<Value>)
    ensures value.Some? ==> Fits(field, value.value)
  {
    match field
    case AiProvider => if data.aiProvider.Some? then Some(ProviderValue(data.aiProvider.value)) else None
    case OllamaModel => if data.ollamaModel.Some? then Some(TextValue(data.ollamaModel.value)) else None
    case SummaryLength => if data.summaryLength.Some? then Some(NumberValue(data.summaryLength.value)) else None
    case ExcludeTemplates => if data.excludeTemplates.Some? then Some(FlagValue(data.excludeTemplates.value)) else None
    case ExcludeDailyNotes => if data.excludeDailyNotes.Some? then Some(FlagValue(data.excludeDailyNotes.value)) else None
    case DailyNotesPattern => if data.dailyNotesPattern.Some? then Some(TextValue(data.dailyNotesPattern.value)) else None
    case TemplateFolders => if data.templateFolders.Some? then Some(ListValue(data.templateFolders.value)) else None
  }

  function Pick<T>(stored: Option<T>, default: T): T {
    if stored.Some? then stored.value else default
  }

  /** `Object.assign({}, DEFAULT_SETTINGS, data)`: the saved data laid over the defaults. */
  function Merge(data: Option<StoredData>): SummarySettings {
    if data.None? then DefaultSettings
    else
      var d := data.value;
      SummarySettings(
        Pick(d.aiProvider, DefaultSettings.aiProvider),
        Pick(d.ollamaModel, DefaultSettings.ollamaModel),
        Pick(d.summaryLength, DefaultSettings.summaryLength),
        Pick(d.excludeTemplates, DefaultSettings.excludeTemplates),
        Pick(d.excludeDailyNotes, DefaultSettings.excludeDailyNotes),
        Pick(d.dailyNotesPattern, DefaultSettings.dailyNotesPattern),
        Pick(d.templateFolders, DefaultSettings.templateFolders))
  }

  /** Each field of the loaded settings is the saved one when present and the default otherwise. */
  lemma MergeField(data: Option<StoredData>, field: Field)
    ensures Get(Merge(data), field) ==
      if data.Some? && Lookup(data.value, field).Some? then Lookup(data.value, field).value
      else Get(DefaultSettings, field)
  {
  }

  /** No saved data, or saved data with no fields, loads the defaults. */
  lemma MissingDataGivesDefaults(data: Option<StoredData>)
    requires data.Some? ==> forall field :: Lookup(data.value, field).None?
    ensures Merge(data) == DefaultSettings
  {
    if data.Some? {
      assert Lookup(data.value, AiProvider).None?;
      assert Lookup(data.value, OllamaModel).None?;
      assert Lookup(data.value, SummaryLength).None?;
      assert Lookup(data.value, ExcludeTemplates).None?;
      assert Lookup(data.value, ExcludeDailyNotes).None?;
      assert Lookup(data.value, DailyNotesPattern).None?;
      assert Lookup(data.value, TemplateFolders).None?;
    }
  }

  /** What `saveData(settings)` writes: every field. */
  function Stored(settings: SummarySettings): (data: StoredData)
    ensures forall field :: Lookup(data, field) == Some(Get(settings, field))
  {
    StoredData(
      Some(settings.aiProvider),
      Some(settings.ollamaModel),
      Some(settings.summaryLength),
      Some(settings.excludeTemplates),
      Some(settings.excludeDailyNotes),
      Some(settings.dailyNotesPattern),
      Some(settings.templateFolders))
  }

  /** Loading what was saved gives back the saved settings. */
  lemma SaveThenLoad(settings: SummarySettings)
    ensures Merge(Some(Stored(settings))) == settings
  {
    var loaded := Merge(Some(Stored(settings)));
    forall field
      ensures Get(loaded, field) == Get(settings, field)
    {
      MergeField(Some(Stored(settings)), field);
    }
    FieldsDetermineSettings(loaded, settings);
  }

  /** The plugin's data file, read by `loadData` and written by `saveData`. */
  class DataStore {
    var data: Option<StoredData>

    constructor (data: Option<StoredData>)
      ensures this.data == data
    {
      this.data := data;
    }

    method LoadData() returns (data: Option<StoredData>)
      ensures data == this.data
    {
      data := this.data;
    }

    method SaveData(settings: SummarySettings)
      modifies this
      ensures data == Some(Stored(settings))
    {
      data := Some(Stored(settings));
    }
  }

  // ---------------------------------------------------------------- the manager

  class SettingsManager {
    const store: DataStore
    var settings: SummarySettings

    /** Starts from a copy of the defaults. */
    constructor (store: DataStore)
      ensures this.store == store && settings == DefaultSettings
    {
      this.store := store;
      settings := DefaultSettings;
    }

    /** `loadSettings()`: the saved data laid over the defaults becomes the current settings. */
    method LoadSettings() returns (loaded: SummarySettings)
      modifies this
      ensures settings == Merge(store.data) && loaded == settings
    {
      var data := store.LoadData();
      settings := Merge(data);
      loaded := settings;
    }

    /** `saveSettings(settings)`: the record becomes current and is written whole; loading it again gives it back. */
    method SaveSettings(settings: SummarySettings)
      modifies this, store
      ensures this.settings == settings && store.data == Some(Stored(settings))
      ensures Merge(store.data) == settings
    {
      this.settings := settings;
      store.SaveData(settings);
      SaveThenLoad(settings);
    }

    /** `getSettings()`: a copy of the current settings (a record value, so later changes to it stay local). */
    method GetSettings() returns (copy: SummarySettings)
      ensures copy == settings
    {
      copy := settings;
    }

    /** `updateSetting(field, value)`: one field changes, every other stays, and the whole record is saved. */
    method UpdateSetting(field: Field, value: Value)
      requires Fits(field, value)
      modifies this, store
      ensures settings == Set(old(settings), field, value)
      ensures Get(settings, field) == value
      ensures forall other :: other != field ==> Get(settings, other) == Get(old(settings), other)
      ensures store.data == Some(Stored(settings)) && Merge(store.data) == settings
    {
      var updated := Set(settings, field, value);
      forall other
        ensures Get(updated, other) == if other == field then value else Get(settings, other)
      {
        SetOnlyChangesField(settings, field, value, other);
      }
      SaveSettings(updated);
    }
  }

  // ---------------------------------------------------------------- the settings tab

  /** An entry the folder list can hold after parsing: non-empty, trimmed, free of commas. */
  predicate CleanFolder(folder: string) {
    folder != [] && NoOuterSpace(folder) && ',' !in folder
  }

  /** `.map(f => f.trim()).filter(f => f)` over the pieces of the line. */
  function TrimAndDrop(parts: seq<string>): (folders: seq<string>)
    ensures |folders| <= |parts|
    ensures (forall i :: 0 <= i < |parts| ==> ',' !in parts[i]) ==> forall i :: 0 <= i < |folders| ==> CleanFolder(folders[i])
    decreases |parts|
  {
    if parts == [] then []
    else
      var folder := Trim(parts[0]);
      assert ',' !in parts[0] ==> ',' !in folder by {
        TrimIsSlice(parts[0]);
      }
      (if folder == [] then [] else [folder]) + TrimAndDrop(parts[1..])
  }

  /** The text box's `value.split(',').map(f => f.trim()).filter(f => f)`. */
  function ParseFolders(line: string): (folders: seq<string>)
    ensures forall i :: 0 <= i < |folders| ==> CleanFolder(folders[i])
  {
    TrimAndDrop(Split(line, ','))
  }

  /** The text box's initial value, `templateFolders.join(', ')`. */
  function FormatFolders(folders: seq<string>): string {
    Join(folders, ", ")
  }

  lemma SpaceOnly(pad: string)
    requires AllSpace(pad)
    ensures ',' !in pad
  {
  }

  lemma {:induction false} ParsePadded(pad: string, folders: seq<string>)
    requires AllSpace(pad)
    requires forall i :: 0 <= i < |folders| ==> CleanFolder(folders[i])
    ensures TrimAndDrop(Split(pad + Join(folders, ", "), ',')) == folders
    decreases |folders|
  {
    SpaceOnly(pad);
    if folders == [] {
      assert pad + Join(folders, ", ") == pad;
      SplitNoSeparator(pad, ',');
      TrimPadded(pad, "");
      assert pad + "" == pad;
    } else if |folders| == 1 {
      var f := folders[0];
      assert pad + Join(folders, ", ") == pad + f;
      assert ',' !in pad + f;
      SplitNoSeparator(pad + f, ',');
      TrimPadded(pad, f);
      assert TrimAndDrop([pad + f]) == [f] + TrimAndDrop([]);
    } else {
      var f := folders[0];
      var rest := folders[1..];
      var tail := " " + Join(rest, ", ");
      assert pad + Join(folders, ", ") == (pad + f) + [','] + tail;
      assert ',' !in pad + f;
      SplitAtSeparator(pad + f, tail, ',');
      TrimPadded(pad, f);
      ParsePadded(" ", rest);
      assert TrimAndDrop([pad + f] + Split(tail, ',')) == [f] + TrimAndDrop(Split(tail, ','));
      assert folders == [f] + rest;
    }
  }

  /** A list of clean entries, shown as a comma-separated line and parsed back, is the same list. */
  lemma FolderRoundTrip(folders: seq<string>)
    requires forall i :: 0 <= i < |folders| ==> CleanFolder(folders[i])
    ensures ParseFolders(FormatFolders(folders)) == folders
  {
    ParsePadded("", folders);
    assert "" + Join(folders, ", ") == Join(folders, ", ");
  }

  /** Parsing, showing and parsing again gives the first parse: the text box is stable. */
  lemma ParseStable(line: string)
    ensures ParseFolders(FormatFolders(ParseFolders(line))) == ParseFolders(line)
  {
    FolderRoundTrip(ParseFolders(line));
  }

  /** The default folders survive the text box unchanged. */
  lemma DefaultFoldersRoundTrip()
    ensures ParseFolders(FormatFolders(DefaultSettings.templateFolders)) == DefaultSettings.templateFolders
  {
    var folders := DefaultSettings.templateFolders;
    assert folders == ["Templates", "templates"];
    assert CleanFolder(folders[0]) && CleanFolder(folders[1]);
    FolderRoundTrip(folders);
  }

  /** The values the summary-length slider offers: 100 to 1000 in steps of 50. */
  predicate OnSlider(length: int) {
    100 <= length <= 1000 && (length - 100) % 50 == 0
  }

  /** The default length is one of the slider's values. */
  lemma DefaultLengthOnSlider()
    ensures OnSlider(DefaultSettings.summaryLength)
  {
  }
}
