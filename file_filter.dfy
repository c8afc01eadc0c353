/**
 * Which notes the plugin refuses to summarise (src/utils/FileFilter.ts): template files, found by
 * folder or by name, and daily notes, found by a file-name pattern or by folder.  Every folder and
 * name comparison is a case-insensitive substring test; the pattern test belongs to the JavaScript
 * regular-expression engine and is a parameter here.
 */
module FileFilter {
  import opened Wrappers
  import opened Strings
  import opened Types

  /** A vault file as the filter sees it: full path, file name with extension, and name without it. */
  datatype NoteFile = NoteFile(path: string, name: string, basename: string)

  /** `new RegExp(pattern).test(subject)`, answered by the runtime's regular-expression engine. */
  type PatternTest = (string, string) -> bool

  const TemplateWord := "template"
  const DailyFolderSpaced := "daily notes"
  const DailyFolderJoined := "dailynotes"

  /** The first folder entry, in list order, that the lowercased path includes (itself lowercased). */
  function FirstFolder(lowerPath: string, folders: seq<string>): (r: Option<string>)
    ensures r.Some? ==> r.value in folders && Contains(lowerPath, Lower(r.value))
    ensures r.None? <==> forall f :: f in folders ==> !Contains(lowerPath, Lower(f))
    decreases |folders|
  {
    if folders == [] then None
    else if Contains(lowerPath, Lower(folders[0])) then Some(folders[0])
    else FirstFolder(lowerPath, folders[1..])
  }

  /** The folder found is the earliest matching entry: every entry before it does not match. */
  lemma {:induction false} FirstFolderIsFirst(lowerPath: string, folders: seq<string>)
    ensures var r := FirstFolder(lowerPath, folders);
      r.Some? ==> exists i :: 0 <= i < |folders| && folders[i] == r.value
                    && forall j :: 0 <= j < i ==> !Contains(lowerPath, Lower(folders[j]))
    decreases |folders|
  {
    var r := FirstFolder(lowerPath, folders);
    if folders != [] && r.Some? && !Contains(lowerPath, Lower(folders[0])) {
      FirstFolderIsFirst(lowerPath, folders[1..]);
      var i :| 0 <= i < |folders[1..]| && folders[1..][i] == r.value
                && forall j :: 0 <= j < i ==> !Contains(lowerPath, Lower(folders[1..][j]));
      assert folders[i + 1] == r.value;
      assert forall j :: 0 <= j < i + 1 ==> !Contains(lowerPath, Lower(folders[j])) by {
        forall j | 0 <= j < i + 1
          ensures !Contains(lowerPath, Lower(folders[j]))
        {
          if j > 0 {
            assert folders[j] == folders[1..][j - 1];
          }
        }
      }
    }
  }

  /** `isTemplateFile`: the path lies in a template folder, or the name mentions "template". */
  predicate IsTemplate(settings: SummarySettings, file: NoteFile) {
    FirstFolder(Lower(file.path), settings.templateFolders).Some? || Contains(Lower(file.name), TemplateWord)
  }

  /** The lowercased path mentions a daily-notes folder, spelt with or without the space. */
  predicate InDailyFolder(path: string) {
    Contains(Lower(path), DailyFolderSpaced) || Contains(Lower(path), DailyFolderJoined)
  }

  /** `isDailyNote`: the pattern matches the base name, or the path lies in a daily-notes folder. */
  predicate IsDaily(settings: SummarySettings, test: PatternTest, file: NoteFile) {
    test(settings.dailyNotesPattern, file.basename) || InDailyFolder(file.path)
  }

  /** `isExcludedFile`: each rule applies only when its setting is switched on. */
  predicate Excluded(settings: SummarySettings, test: PatternTest, file: NoteFile) {
    || (settings.excludeTemplates && IsTemplate(settings, file))
    || (settings.excludeDailyNotes && IsDaily(settings, test, file))
  }

  /** A template file is one whose lowercased path includes some lowercased folder entry, or whose name includes "template". */
  lemma TemplateMeaning(settings: SummarySettings, file: NoteFile)
    ensures IsTemplate(settings, file) <==>
      || (exists i :: 0 <= i < |settings.templateFolders| && Contains(Lower(file.path), Lower(settings.templateFolders[i])))
      || Contains(Lower(file.name), TemplateWord)
  {
    var folders := settings.templateFolders;
    if exists i :: 0 <= i < |folders| && Contains(Lower(file.path), Lower(folders[i])) {
      var i :| 0 <= i < |folders| && Contains(Lower(file.path), Lower(folders[i]));
      assert folders[i] in folders;
    }
  }

  /** With both switches off, no file is excluded. */
  lemma NothingExcludedWhenSwitchedOff(settings: SummarySettings, test: PatternTest, file: NoteFile)
    requires !settings.excludeTemplates && !settings.excludeDailyNotes
    ensures !Excluded(settings, test, file)
  {
  }

  /** An empty folder entry is included in every path, so it turns every file into a template file. */
  lemma EmptyFolderMatchesEverything(settings: SummarySettings, file: NoteFile)
    requires "" in settings.templateFolders
    ensures IsTemplate(settings, file)
  {
    ContainsEmpty(Lower(file.path));
    assert Lower("") == "";
  }

  /** With templates excluded, an empty folder entry excludes every note. */
  lemma EmptyFolderExcludesEverything(settings: SummarySettings, test: PatternTest, file: NoteFile)
    requires settings.excludeTemplates && "" in settings.templateFolders
    ensures Excluded(settings, test, file)
  {
    EmptyFolderMatchesEverything(settings, file);
  }

  lemma LowerTwice(s: string)
    ensures Lower(Lower(s)) == Lower(s)
  {
  }

  /** The letter case of the path and the name does not matter to the template rule. */
  lemma TemplateIgnoresCase(settings: SummarySettings, file: NoteFile)
    ensures IsTemplate(settings, NoteFile(Lower(file.path), Lower(file.name), file.basename)) == IsTemplate(settings, file)
  {
    LowerTwice(file.path);
    LowerTwice(file.name);
  }

  /** Lowercasing every folder entry does not change the template rule either. */
  lemma {:induction false} FolderCaseIgnored(lowerPath: string, folders: seq<string>)
    ensures FirstFolder(lowerPath, seq(|folders|, i requires 0 <= i < |folders| => Lower(folders[i]))).Some?
        == FirstFolder(lowerPath, folders).Some?
    decreases |folders|
  {
    var lowered := seq(|folders|, i requires 0 <= i < |folders| => Lower(folders[i]));
    if folders != [] {
      LowerTwice(folders[0]);
      FolderCaseIgnored(lowerPath, folders[1..]);
      assert lowered[1..] == seq(|folders[1..]|, i requires 0 <= i < |folders[1..]| => Lower(folders[1..][i]));
    }
  }

  /** The letter case of the path does not matter to the daily-note rule; only the pattern test sees the base name as it is. */
  lemma DailyIgnoresPathCase(settings: SummarySettings, test: PatternTest, file: NoteFile)
    ensures IsDaily(settings, test, NoteFile(Lower(file.path), file.name, file.basename)) == IsDaily(settings, test, file)
  {
    LowerTwice(file.path);
  }

  /** The filter's decisions depend on the settings alone: two filters with equal settings agree. */
  lemma DecisionFollowsSettings(a: SummarySettings, b: SummarySettings, test: PatternTest, file: NoteFile)
    requires a.excludeTemplates == b.excludeTemplates && a.excludeDailyNotes == b.excludeDailyNotes
    requires a.templateFolders == b.templateFolders && a.dailyNotesPattern == b.dailyNotesPattern
    ensures Excluded(a, test, file) == Excluded(b, test, file)
  {
  }

  class FileFilter {
    var settings: SummarySettings

    constructor (settings: SummarySettings)
      ensures this.settings == settings
    {
      this.settings := settings;
    }

    /** `isExcludedFile(file)`: the template rule first, and only when switched on, then the daily-note rule. */
    method IsExcludedFile(test: PatternTest, file: NoteFile) returns (excluded: bool)
      ensures excluded == Excluded(settings, test, file)
    {
      if settings.excludeTemplates {
        var template := IsTemplateFile(file);
        if template {
          return true;
        }
      }
      if settings.excludeDailyNotes {
        var daily := IsDailyNote(test, file);
        if daily {
          return true;
        }
      }
      return false;
    }

    /** `isTemplateFile(file)`: scans the folder entries in order, then looks at the name. */
    method IsTemplateFile(file: NoteFile) returns (template: bool)
      ensures template == IsTemplate(settings, file)
    {
      var folders := settings.templateFolders;
      var i := 0;
      while i < |folders|
        invariant 0 <= i <= |folders|
        invariant FirstFolder(Lower(file.path), folders) == FirstFolder(Lower(file.path), folders[i..])
      {
        if Contains(Lower(file.path), Lower(folders[i])) {
          return true;
        }
        assert folders[i..][1..] == folders[i + 1..];
        i := i + 1;
      }
      if Contains(Lower(file.name), TemplateWord) {
        return true;
      }
      return false;
    }

    /** `isDailyNote(file)`: the pattern test on the base name, then the folder names in the lowercased path. */
    method IsDailyNote(test: PatternTest, file: NoteFile) returns (daily: bool)
      ensures daily == IsDaily(settings, test, file)
    {
      var fileName := file.basename;
      if test(settings.dailyNotesPattern, fileName) {
        return true;
      }
      var filePath := Lower(file.path);
      if Contains(filePath, DailyFolderSpaced) || Contains(filePath, DailyFolderJoined) {
        return true;
      }
      return false;
    }

    /** `updateSettings(settings)`: later decisions use the new settings only. */
    method UpdateSettings(settings: SummarySettings)
      modifies this
      ensures this.settings == settings
    {
      this.settings := settings;
    }
  }
}
