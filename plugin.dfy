/**
 * The reason the plugin gives when it refuses to summarise a note (`getExclusionReason` in main.ts).
 * It walks the same rules as the file filter, in the same order, and names the first one that
 * applies; a note that no rule excludes gets a generic message.
 */
module Plugin {
  import opened Wrappers
  import opened Strings
  import opened Types
  import opened FileFilter

  /** Which rule applies to a note; `ByCurrentSettings` is the fallback when none does. */
  datatype Reason =
    | InTemplateFolder(folder: string)
    | TemplateName
    | DailyPattern
    | DailyFolder
    | ByCurrentSettings

  const FolderReasonPrefix := "File is in template folder: "
  const NameReasonText := "Filename contains \"template\""
  const PatternReasonText := "File matches daily note pattern"
  const DailyFolderReasonText := "File is in daily notes folder"
  const FallbackText := "File is excluded by current settings"

  /** The message shown for each reason; only the fallback reason shows the fallback message. */
  function ReasonText(reason: Reason): (text: string)
    ensures text == FallbackText <==> reason == ByCurrentSettings
  {
    match reason
    case InTemplateFolder(folder) =>
      var text := FolderReasonPrefix + folder;
      assert text[8] != FallbackText[8];
      text
    case TemplateName =>
      assert NameReasonText[4] != FallbackText[4];
      NameReasonText
    case DailyPattern =>
      assert PatternReasonText[5] != FallbackText[5];
      PatternReasonText
    case DailyFolder =>
      assert DailyFolderReasonText[8] != FallbackText[8];
      DailyFolderReasonText
    case ByCurrentSettings => FallbackText
  }

  /**
   * The first rule that applies: template folders in list order, then the file name (both only
   * when templates are excluded), then the pattern, then the daily-notes folder (both only when
   * daily notes are excluded).
   */
  function Why(settings: SummarySettings, test: PatternTest, file: NoteFile): (reason: Reason)
    ensures reason.InTemplateFolder? ==>
      settings.excludeTemplates && FirstFolder(Lower(file.path), settings.templateFolders) == Some(reason.folder)
    ensures reason == TemplateName ==>
      && settings.excludeTemplates
      && FirstFolder(Lower(file.path), settings.templateFolders).None?
      && Contains(Lower(file.name), TemplateWord)
    ensures reason == DailyPattern ==>
      && settings.excludeDailyNotes
      && !(settings.excludeTemplates && IsTemplate(settings, file))
      && test(settings.dailyNotesPattern, file.basename)
    ensures reason == DailyFolder ==>
      && settings.excludeDailyNotes
      && !(settings.excludeTemplates && IsTemplate(settings, file))
      && !test(settings.dailyNotesPattern, file.basename)
      && InDailyFolder(file.path)
    ensures reason == ByCurrentSettings <==> !Excluded(settings, test, file)
  {
    var folder := if settings.excludeTemplates then FirstFolder(Lower(file.path), settings.templateFolders) else None;
    if folder.Some? then InTemplateFolder(folder.value)
    else if settings.excludeTemplates && Contains(Lower(file.name), TemplateWord) then TemplateName
    else if settings.excludeDailyNotes && test(settings.dailyNotesPattern, file.basename) then DailyPattern
    else if settings.excludeDailyNotes && InDailyFolder(file.path) then DailyFolder
    else ByCurrentSettings
  }

  /** `getExclusionReason(file)`: the message for the first rule that applies. */
  function GetExclusionReason(settings: SummarySettings, test: PatternTest, file: NoteFile): (text: string)
    ensures text == FallbackText <==> !Excluded(settings, test, file)
  {
    ReasonText(Why(settings, test, file))
  }

  /** For a note the filter excludes, a template reason is given whenever the template rule applies. */
  lemma TemplateReasonFirst(settings: SummarySettings, test: PatternTest, file: NoteFile)
    requires settings.excludeTemplates && IsTemplate(settings, file)
    ensures Why(settings, test, file).InTemplateFolder? || Why(settings, test, file) == TemplateName
  {
  }

  /** The folder named is the earliest entry of the list that the path includes. */
  lemma FolderReasonNamesFirstMatch(settings: SummarySettings, test: PatternTest, file: NoteFile)
    requires Why(settings, test, file).InTemplateFolder?
    ensures var folders := settings.templateFolders;
      exists i :: 0 <= i < |folders| && folders[i] == Why(settings, test, file).folder
        && Contains(Lower(file.path), Lower(folders[i]))
        && forall j :: 0 <= j < i ==> !Contains(Lower(file.path), Lower(folders[j]))
  {
    FirstFolderIsFirst(Lower(file.path), settings.templateFolders);
  }
}
