/** What the audit page does with a report returned by the analyser before
    listing it: heading normalisation, the report file name, and the upsert
    into the report list (src/app/audit/page.tsx, handleStartAnalysis and
    handleMultiFileAnalysis). */
module AuditReports {
  import opened JsStrings
  import opened ContractFiles

  /** The title put in front of a report that has no heading. */
  const ReportTitle: string := "# Smart Contract Security Analysis Report\n\n"

  /** `/^#\s+/m` matches at index `i`: a `#` at the start of a line, followed by white space. */
  predicate HeadingAt(text: string, i: int)
  {
    0 <= i && i + 1 < |text| && text[i] == '#' && IsJsSpace(text[i + 1])
    && (i == 0 || IsLineTerminator(text[i - 1]))
  }

  /** `text.match(/^#\s+/m)` is not null. */
  predicate HasHeading(text: string)
  {
    exists i :: 0 <= i < |text| && HeadingAt(text, i)
  }

  /** The report text with the standard title prepended when it has no heading. */
  function NormalizeHeading(analysis: string): (r: string)
    ensures HasHeading(r)
  {
    if HasHeading(analysis) then analysis
    else
      var r := ReportTitle + analysis;
      assert HeadingAt(r, 0);
      r
  }

  /** A report with a heading is kept as it is; any other gets the title in
      front; either way the returned text is the end of the report. */
  lemma NormalizeHeadingShape(analysis: string)
    ensures var r := NormalizeHeading(analysis);
      && (HasHeading(analysis) ==> r == analysis)
      && (!HasHeading(analysis) ==> StartsWith(r, ReportTitle) && |r| == |ReportTitle| + |analysis|)
      && EndsWith(r, analysis)
  {
    var r := NormalizeHeading(analysis);
    if !HasHeading(analysis) {
      assert r == ReportTitle + analysis;
      assert r[|r| - |analysis|..] == analysis;
    }
  }

  /** Normalising a normalised report changes nothing. */
  lemma NormalizeHeadingIdempotent(analysis: string)
    ensures NormalizeHeading(NormalizeHeading(analysis)) == NormalizeHeading(analysis)
  {
  }

  /** `""` for English, `"-" + language` otherwise. */
  function LanguageSuffix(language: string): string
  {
    if language == "english" then "" else "-" + language
  }

  /** `"-SuperPrompt"` when the enhanced prompt was used. */
  function SuperPromptSuffix(superPrompt: bool): string
  {
    if superPrompt then "-SuperPrompt" else ""
  }

  /** Where each part of a five-part concatenation sits. */
  lemma ConcatParts(a: string, b: string, c: string, d: string, e: string)
    ensures var s := a + b + c + d + e;
      && |s| == |a| + |b| + |c| + |d| + |e|
      && s[..|a|] == a
      && s[|a|..|a| + |b|] == b
      && s[|a| + |b|..|a| + |b| + |c|] == c
      && s[|s| - |d + e|..] == d + e
      && s[|s| - |e|..] == e
  {
    var s := a + b + c + d + e;
    assert s == a + (b + (c + (d + e)));
    assert s[|a|..] == b + (c + (d + e));
    assert s[|a| + |b|..] == c + (d + e);
  }

  const ReportNamePrefix: string := "report-analysis-"
  const ReportNameExtension: string := ".md"

  /** `report-analysis-${model}${languageCfg}${withSuperPrompt}.md`. */
  function ReportFileName(modelName: string, language: string, superPrompt: bool): (r: string)
    ensures |r| == 19 + |modelName| + |LanguageSuffix(language)| + |SuperPromptSuffix(superPrompt)|
  {
    ReportNamePrefix + modelName + LanguageSuffix(language) + SuperPromptSuffix(superPrompt) + ReportNameExtension
  }

  /** The name is the prefix, the model, the language suffix, the prompt
      suffix and `.md`, each where the layout puts it. */
  lemma ReportFileNameShape(modelName: string, language: string, superPrompt: bool)
    ensures var r := ReportFileName(modelName, language, superPrompt);
      && |r| == 19 + |modelName| + |LanguageSuffix(language)| + |SuperPromptSuffix(superPrompt)|
      && StartsWith(r, ReportNamePrefix) && EndsWith(r, ReportNameExtension)
      && r[16..16 + |modelName|] == modelName
      && r[16 + |modelName|..16 + |modelName| + |LanguageSuffix(language)|] == LanguageSuffix(language)
      && EndsWith(r, SuperPromptSuffix(superPrompt) + ReportNameExtension)
  {
    ConcatParts(ReportNamePrefix, modelName, LanguageSuffix(language), SuperPromptSuffix(superPrompt), ReportNameExtension);
  }

  /** The English, standard-prompt name carries no suffix at all. */
  lemma ReportFileNamePlain(modelName: string)
    ensures ReportFileName(modelName, "english", false) == ReportNamePrefix + modelName + ReportNameExtension
  {
  }

  /** Language suffixes of different languages differ. */
  lemma LanguageSuffixInjective(l1: string, l2: string)
    requires l1 != l2
    ensures LanguageSuffix(l1) != LanguageSuffix(l2)
  {
    if l1 != "english" && l2 != "english" {
      assert LanguageSuffix(l1)[1..] == l1 && LanguageSuffix(l2)[1..] == l2;
    }
  }

  /** With language and prompt mode fixed, different models give different names. */
  lemma ReportFileNameSeparatesModels(m1: string, m2: string, language: string, superPrompt: bool)
    requires m1 != m2
    ensures ReportFileName(m1, language, superPrompt) != ReportFileName(m2, language, superPrompt)
  {
    ReportFileNameShape(m1, language, superPrompt);
    ReportFileNameShape(m2, language, superPrompt);
  }

  /** With model and prompt mode fixed, different languages give different names. */
  lemma ReportFileNameSeparatesLanguages(modelName: string, l1: string, l2: string, superPrompt: bool)
    requires l1 != l2
    ensures ReportFileName(modelName, l1, superPrompt) != ReportFileName(modelName, l2, superPrompt)
  {
    LanguageSuffixInjective(l1, l2);
    ReportFileNameShape(modelName, l1, superPrompt);
    ReportFileNameShape(modelName, l2, superPrompt);
  }

  /** With model and language fixed, the prompt mode always shows in the name. */
  lemma ReportFileNameSeparatesSuperPrompt(modelName: string, language: string)
    ensures ReportFileName(modelName, language, true) != ReportFileName(modelName, language, false)
  {
    assert |ReportFileName(modelName, language, true)| == |ReportFileName(modelName, language, false)| + 12;
  }

  /** The suffixes are not separated from each other: a language named
      "SuperPrompt" without the enhanced prompt collides with English plus the
      enhanced prompt, so a name does not always determine its configuration. */
  lemma ReportFileNameCollision(modelName: string)
    ensures ReportFileName(modelName, "SuperPrompt", false) == ReportFileName(modelName, "english", true)
  {
  }

  /** Nor is the model separated from the language: a model whose name ends
      in "-french" reporting in English collides with the shorter model
      reporting in French. */
  lemma ReportFileNameModelLanguageCollision(modelName: string)
    ensures ReportFileName(modelName + "-french", "english", false) == ReportFileName(modelName, "french", false)
  {
    assert LanguageSuffix("french") == "-french";
  }

  /** The report entry: name and path are both the report file name. */
  function ReportFile(fileName: string, content: string): (f: ContractFile)
    ensures f.name == fileName && f.path == fileName && f.content == content
  {
    ContractFile(fileName, fileName, content)
  }

  /** `[...prev.filter(f => f.path !== report.path), report]`. */
  function UpsertReport(reports: seq<ContractFile>, report: ContractFile): (r: seq<ContractFile>)
    ensures |r| > 0 && r[|r| - 1] == report
    ensures forall i :: 0 <= i < |r| - 1 ==> r[i].path != report.path
  {
    var kept := RemoveByPath(reports, report.path);
    var r := kept + [report];
    assert forall i :: 0 <= i < |r| - 1 ==> r[i] == kept[i];
    r
  }

  /** Every old report under another path survives the upsert, and nothing
      but old reports and the new one is in the result. */
  lemma UpsertReportMembers(reports: seq<ContractFile>, report: ContractFile)
    ensures var r := UpsertReport(reports, report);
      && (forall f :: f in reports && f.path != report.path ==> f in r)
      && (forall f :: f in r ==> f in reports || f == report)
  {
    var kept := RemoveByPath(reports, report.path);
    assert UpsertReport(reports, report) == kept + [report];
  }

  /** The entries other than the new report are the old ones, in their old
      order: dropping the new path from `a + b` is dropping it from each part. */
  lemma UpsertReportKeepsOrder(a: seq<ContractFile>, b: seq<ContractFile>, report: ContractFile)
    ensures UpsertReport(a + b, report)
         == RemoveByPath(a, report.path) + RemoveByPath(b, report.path) + [report]
  {
    RemoveByPathConcat(a, b, report.path);
  }

  /** Upserting a report whose path is new appends it and changes nothing else. */
  lemma UpsertReportNewPath(reports: seq<ContractFile>, report: ContractFile)
    requires forall i :: 0 <= i < |reports| ==> reports[i].path != report.path
    ensures UpsertReport(reports, report) == reports + [report]
  {
    RemoveByPathAbsent(reports, report.path);
  }

  /** Paths that were unique stay unique. */
  lemma UpsertReportKeepsPathsUnique(reports: seq<ContractFile>, report: ContractFile)
    requires UniquePaths(reports)
    ensures UniquePaths(UpsertReport(reports, report))
  {
    var kept := RemoveByPath(reports, report.path);
    RemoveByPathKeepsPathsUnique(reports, report.path);
    var r := UpsertReport(reports, report);
    assert r == kept + [report];
    forall i, j | 0 <= i < j < |r| ensures r[i].path != r[j].path {
      assert r[i] == kept[i];
      if j < |kept| { assert r[j] == kept[j]; }
    }
  }
}
