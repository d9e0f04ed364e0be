/** The state of the audit page (src/app/audit/page.tsx): the address box, the
    uploaded files, the report list and the analysis in flight, and the event
    handlers that update them. Calls into code this model does not contain
    (`ethers.isAddress`, `checkContractOnChains`, `findMainContract`,
    `analyzeContract`, `getModelName`) are parameters. */
module AuditSession {
  import opened Wrappers
  import opened JsStrings
  import opened ContractFiles
  import opened AuditReports
  import opened AuditUploads

  /** The trimmed input with `0x` put in front unless it is empty or already has it. */
  function NormalizeAddress(input: string): (r: string)
    ensures IsTrimmed(r)
    ensures r == "" <==> IsBlank(input)
    ensures r != "" ==> StartsWith(r, "0x")
    ensures StartsWith(Trim(input), "0x") ==> r == Trim(input)
    ensures !IsBlank(input) && !StartsWith(Trim(input), "0x") ==> r == "0x" + Trim(input)
  {
    TrimEmptyIffBlank(input);
    var value := Trim(input);
    if value != "" && !StartsWith(value, "0x") then
      var r := "0x" + value;
      assert r[|r| - 1] == value[|value| - 1];
      assert r[..2] == "0x";
      r
    else value
  }

  /** An address that is already trimmed and empty or `0x`-prefixed is left as it is. */
  lemma NormalizeAddressKeepsNormal(s: string)
    requires IsTrimmed(s)
    requires s == "" || StartsWith(s, "0x")
    ensures NormalizeAddress(s) == s
  {
    TrimOfTrimmed(s);
  }

  /** Normalising twice is normalising once, so `handleCheck` re-normalising the
      address that `handleAddressChange` stored changes nothing. */
  lemma NormalizeAddressIdempotent(input: string)
    ensures NormalizeAddress(NormalizeAddress(input)) == NormalizeAddress(input)
  {
    NormalizeAddressKeepsNormal(NormalizeAddress(input));
  }

  /** The per-chain information `checkContractOnChains` returns; its shape is
      defined outside this model. */
  type ChainContractInfo

  /** How the awaited `checkContractOnChains` call settled: with its value
      (`null` when no chain knows the address) or by throwing. */
  datatype ChainProbe = Returned(info: Option<ChainContractInfo>) | Threw

  /** The argument of `analyzeContract`, without the abort signal. */
  datatype AnalysisRequest = AnalysisRequest(files: seq<ContractFile>, contractName: string, isMultiFile: bool)

  /** How the awaited `analyzeContract` call settled: with a report, rejected
      with an `AbortError`, or rejected with any other error. */
  datatype AnalysisOutcome = Completed(analysis: string) | Aborted | Failed

  /** Which handler started the analysis. */
  datatype AnalysisKind = SingleFile | MultiFile

  /** `getModelName(getAIConfig(config))`, its `language` and its `superPrompt`. */
  datatype ReportNaming = ReportNaming(modelName: string, language: string, superPrompt: bool)

  /** `toast.success` and `toast.error`. */
  datatype Toast = ToastSuccess(message: string) | ToastError(message: string)

  /** An `AbortController`; `aborted` records that `abort()` was called on it. */
  datatype AbortController = AbortController(aborted: bool)

  /** The request of the single-file tab: the editor text as `Contract.sol`. */
  function SingleFileRequest(editorContent: string): (r: AnalysisRequest)
    ensures |r.files| == 1 && r.files[0].content == editorContent
    ensures r.files[0].name == r.files[0].path == "Contract.sol"
    ensures r.contractName == "Contract" && !r.isMultiFile
  {
    AnalysisRequest([ContractFile("Contract.sol", "Contract.sol", editorContent)], "Contract", false)
  }

  /** `findMainContract(files, false)?.name.replace(".sol", "") || "MultiContract"`. */
  function MultiContractName(mainContract: Option<ContractFile>): (r: string)
    ensures r != ""
    ensures mainContract.None? ==> r == "MultiContract"
    ensures mainContract.Some? && IndexOf(mainContract.value.name, ".sol") == -1 ==>
              var n := mainContract.value.name;
              r == (if n == "" then "MultiContract" else n)
    ensures mainContract.Some? && IndexOf(mainContract.value.name, ".sol") >= 0 ==>
              var n := mainContract.value.name;
              var i := IndexOf(n, ".sol");
              r == (if n[..i] + n[i + 4..] == "" then "MultiContract" else n[..i] + n[i + 4..])
  {
    match mainContract
    case None => "MultiContract"
    case Some(f) =>
      var stem := ReplaceFirst(f.name, ".sol", "");
      if stem == "" then "MultiContract" else stem
  }

  /** The notification that closes an analysis. The single-file handler
      reports an `AbortError` as a cancellation; the multi-file handler reports
      every rejection, cancellation included, as a failure. */
  function FinishToast(kind: AnalysisKind, outcome: AnalysisOutcome): (t: Toast)
    ensures t.ToastSuccess? <==> outcome.Completed? || (kind == SingleFile && outcome.Aborted?)
    ensures outcome.Completed? ==> t == ToastSuccess("Analysis completed")
    ensures kind == SingleFile && outcome.Aborted? ==> t == ToastSuccess("Analysis cancelled")
    ensures kind == SingleFile && outcome.Failed? ==> t == ToastError("Error during analysis")
    ensures kind == MultiFile && !outcome.Completed? ==> t == ToastError("Analysis failed")
  {
    match outcome
    case Completed(_) => ToastSuccess("Analysis completed")
    case Aborted => if kind == SingleFile then ToastSuccess("Analysis cancelled") else ToastError("Analysis failed")
    case Failed => if kind == SingleFile then ToastError("Error during analysis") else ToastError("Analysis failed")
  }

  /** The report list after an analysis settles: the normalised report is
      upserted under its file name when the call completed; a cancelled or
      failed call adds nothing. */
  function SettleReports(reports: seq<ContractFile>, outcome: AnalysisOutcome, naming: ReportNaming): (r: seq<ContractFile>)
    ensures !outcome.Completed? ==> r == reports
    ensures UniquePaths(reports) ==> UniquePaths(r)
  {
    match outcome
    case Completed(analysis) =>
      var name := ReportFileName(naming.modelName, naming.language, naming.superPrompt);
      var report := ReportFile(name, NormalizeHeading(analysis));
      assert UniquePaths(reports) ==> UniquePaths(UpsertReport(reports, report)) by {
        if UniquePaths(reports) { UpsertReportKeepsPathsUnique(reports, report); }
      }
      UpsertReport(reports, report)
    case _ => reports
  }

  /** A completed analysis leaves exactly one report under its file name, last
      in the list, with a heading and the returned text at its end; every
      report under another name survives. */
  lemma SettleReportsCompleted(reports: seq<ContractFile>, analysis: string, naming: ReportNaming)
    ensures var r := SettleReports(reports, Completed(analysis), naming);
      var name := ReportFileName(naming.modelName, naming.language, naming.superPrompt);
      && |r| > 0 && r[|r| - 1].path == name && r[|r| - 1].name == name
      && HasHeading(r[|r| - 1].content)
      && EndsWith(r[|r| - 1].content, analysis)
      && (forall i :: 0 <= i < |r| - 1 ==> r[i].path != name)
      && (forall f :: f in reports && f.path != name ==> f in r)
  {
    var name := ReportFileName(naming.modelName, naming.language, naming.superPrompt);
    NormalizeHeadingShape(analysis);
    UpsertReportMembers(reports, ReportFile(name, NormalizeHeading(analysis)));
  }

  /** The number a string of decimal digits denotes. */
  ghost function DigitsValue(s: string): nat
    requires forall i :: 0 <= i < |s| ==> '0' <= s[i] <= '9'
  {
    if s == [] then 0 else DigitsValue(s[..|s| - 1]) * 10 + (s[|s| - 1] as int - '0' as int)
  }

  /** Decimal digits of `n`, as in a template string: they denote `n`, with no
      leading zero except for `0` itself. */
  function DecimalString(n: nat): (r: string)
    ensures |r| > 0 && forall i :: 0 <= i < |r| ==> '0' <= r[i] <= '9'
    ensures DigitsValue(r) == n
    ensures r[0] == '0' ==> n == 0
  {
    if n < 10 then [('0' as int + n) as char]
    else
      var front, last := DecimalString(n / 10), ('0' as int + n % 10) as char;
      var r := front + [last];
      assert r[..|r| - 1] == front;
      r
  }

  class AuditState {
    var address: string
    var chainInfo: Option<ChainContractInfo>
    var uploadedFiles: seq<ContractFile>
    var analysisFiles: seq<ContractFile>
    var isAnalyzing: bool
    var abortController: Option<AbortController>
    var editorContent: string
    var contractCode: string

    /** Uploads are keyed by name (with the name as path), reports by path,
        and a controller exists only while an analysis is running. */
    ghost predicate Valid()
      reads this
    {
      && UniqueNames(uploadedFiles)
      && (forall f :: f in uploadedFiles ==> f.path == f.name)
      && UniquePaths(analysisFiles)
      && (abortController.Some? ==> isAnalyzing)
    }

    /** The initial `useState` values; the editor starts with a sample
        contract, which is a parameter here. */
    constructor (sampleContract: string)
      ensures Valid()
      ensures address == "" && chainInfo.None?
      ensures uploadedFiles == [] && analysisFiles == []
      ensures !isAnalyzing && abortController.None?
      ensures editorContent == sampleContract && contractCode == ""
    {
      editorContent := sampleContract;
      contractCode := "";
      address := "";
      chainInfo := None;
      uploadedFiles := [];
      analysisFiles := [];
      isAnalyzing := false;
      abortController := None;
    }

    /** `handleAddressChange`. */
    method AddressChange(value: string)
      modifies this`address
      ensures address == NormalizeAddress(value)
    {
      address := NormalizeAddress(value);
    }

    /** `handleCheck`: an address the predicate rejects stops before the probe
        and leaves the chain information alone; otherwise the chain
        information is cleared, then replaced by what the probe returned
        (possibly nothing), and only a probe that threw raises a toast. */
    method Check(isAddress: string -> bool, checkContractOnChains: string -> ChainProbe)
      returns (probed: Option<string>, toast: Option<Toast>)
      modifies this`chainInfo
      ensures probed == if isAddress(NormalizeAddress(address)) then Some(NormalizeAddress(address)) else None
      ensures probed.None? ==> chainInfo == old(chainInfo) && toast == Some(ToastError("Invalid contract address"))
      ensures probed.Some? && checkContractOnChains(probed.value).Returned? ==>
                chainInfo == checkContractOnChains(probed.value).info && toast.None?
      ensures probed.Some? && checkContractOnChains(probed.value).Threw? ==>
                chainInfo.None? && toast == Some(ToastError("Failed to fetch contract information"))
    {
      var formattedAddress := NormalizeAddress(address);
      if !isAddress(formattedAddress) {
        probed, toast := None, Some(ToastError("Invalid contract address"));
        return;
      }
      probed := Some(formattedAddress);
      chainInfo := None;
      var outcome := checkContractOnChains(formattedAddress);
      match outcome
      case Returned(info) =>
        chainInfo := info;
        toast := None;
      case Threw =>
        toast := Some(ToastError("Failed to fetch contract information"));
    }

    /** The part of `handleStartAnalysis` before the `await`. Blank editor
        content stops before any analysis call; because that `return` sits
        inside the `try`, its `finally` still clears `isAnalyzing` and the
        controller. */
    method BeginSingleFileAnalysis() returns (request: Option<AnalysisRequest>, toast: Option<Toast>)
      requires Valid()
      modifies this`isAnalyzing, this`abortController
      ensures Valid()
      ensures request.None? <==> IsBlank(editorContent)
      ensures request.None? ==> !isAnalyzing && abortController.None?
                                && toast == Some(ToastError("Please enter contract code"))
      ensures request.Some? ==> request == Some(SingleFileRequest(editorContent)) && toast.None?
                                && isAnalyzing && abortController == Some(AbortController(false))
    {
      TrimEmptyIffBlank(editorContent);
      if Trim(editorContent) == "" {
        request, toast := None, Some(ToastError("Please enter contract code"));
        isAnalyzing := false;
        abortController := None;
        return;
      }
      isAnalyzing := true;
      abortController := Some(AbortController(false));
      request, toast := Some(SingleFileRequest(editorContent)), None;
    }

    /** The editor's `onChange`: the new text (`value || ""`) replaces both
        the editor content and `contractCode`, and a text that differs from
        the previous `contractCode` empties the report list. */
    method EditorChange(value: Option<string>)
      requires Valid()
      modifies this`analysisFiles, this`editorContent, this`contractCode
      ensures Valid()
      ensures editorContent == value.GetOr("") && contractCode == editorContent
      ensures analysisFiles == if value.GetOr("") != old(contractCode) then [] else old(analysisFiles)
    {
      var newContent := if value.Some? then value.value else "";
      if newContent != contractCode {
        analysisFiles := [];
      }
      editorContent := newContent;
      contractCode := newContent;
    }

    /** The part of `handleMultiFileAnalysis` before the `await`. An empty
        upload list stops before any analysis call and changes nothing. */
    method BeginMultiFileAnalysis(findMainContract: seq<ContractFile> -> Option<ContractFile>)
      returns (request: Option<AnalysisRequest>, toast: Option<Toast>)
      requires Valid()
      modifies this`isAnalyzing, this`abortController
      ensures Valid()
      ensures request.None? <==> uploadedFiles == []
      ensures request.None? ==> isAnalyzing == old(isAnalyzing) && abortController == old(abortController)
                                && toast == Some(ToastError("Please upload contract files first"))
      ensures request.Some? ==> toast.None? && isAnalyzing && abortController == Some(AbortController(false))
      ensures request.Some? ==> request == Some(AnalysisRequest(uploadedFiles, MultiContractName(findMainContract(uploadedFiles)), true))
    {
      if |uploadedFiles| == 0 {
        request, toast := None, Some(ToastError("Please upload contract files first"));
        return;
      }
      isAnalyzing := true;
      abortController := Some(AbortController(false));
      request := Some(AnalysisRequest(uploadedFiles, MultiContractName(findMainContract(uploadedFiles)), true));
      toast := None;
    }

    /** The part of either analysis handler after the `await`, through its
        `finally`. It runs whatever happened meanwhile, so it does not require
        an analysis to be marked as running. */
    method FinishAnalysis(kind: AnalysisKind, outcome: AnalysisOutcome, naming: ReportNaming) returns (toast: Toast)
      requires Valid()
      modifies this`analysisFiles, this`isAnalyzing, this`abortController
      ensures Valid()
      ensures analysisFiles == SettleReports(old(analysisFiles), outcome, naming)
      ensures !isAnalyzing && abortController.None?
      ensures toast == FinishToast(kind, outcome)
    {
      toast := FinishToast(kind, outcome);
      analysisFiles := SettleReports(analysisFiles, outcome, naming);
      isAnalyzing := false;
      abortController := None;
    }

    /** `handleCancelAnalysis`: signals the controller, if any. */
    method CancelAnalysis()
      requires Valid()
      modifies this`abortController
      ensures Valid()
      ensures abortController == if old(abortController).Some? then Some(AbortController(true)) else None
    {
      if abortController.Some? {
        abortController := Some(AbortController(true));
      }
    }

    /** `handleRemoveFile`: removes exactly the uploads with that path, clears
        the report list, and stops a running analysis; `aborted` reports that
        `abort()` was called on its controller. */
    method RemoveFile(path: string) returns (aborted: bool)
      requires Valid()
      modifies this`uploadedFiles, this`analysisFiles, this`isAnalyzing, this`abortController
      ensures Valid()
      ensures aborted <==> old(isAnalyzing) && old(abortController).Some?
      ensures uploadedFiles == RemoveByPath(old(uploadedFiles), path)
      ensures analysisFiles == []
      ensures !isAnalyzing && abortController.None?
    {
      RemoveByPathKeepsNamesUnique(uploadedFiles, path);
      uploadedFiles := RemoveByPath(uploadedFiles, path);
      analysisFiles := [];
      aborted := false;
      if isAnalyzing {
        if abortController.Some? {
          aborted := true;
        }
        isAnalyzing := false;
        abortController := None;
      }
    }

    /** `handleRemoveReport`: removes exactly the reports with that path. */
    method RemoveReport(path: string)
      requires Valid()
      modifies this`analysisFiles
      ensures Valid()
      ensures analysisFiles == RemoveByPath(old(analysisFiles), path)
    {
      RemoveByPathKeepsPathsUnique(analysisFiles, path);
      analysisFiles := RemoveByPath(analysisFiles, path);
    }

    /** `handleFiles`: clears the report list and any running analysis, reads
        the files, and merges them into the upload list. A failed read leaves
        the upload list as it was. `aborted` reports that `abort()` was called
        on the controller that was present. */
    method HandleFiles(files: seq<UploadedFile>) returns (aborted: bool, toast: Toast)
      requires Valid()
      modifies this`uploadedFiles, this`analysisFiles, this`isAnalyzing, this`abortController
      ensures Valid()
      ensures aborted <==> old(abortController).Some?
      ensures analysisFiles == [] && !isAnalyzing && abortController.None?
      ensures ReadAll(files).None? ==> uploadedFiles == old(uploadedFiles) && toast == ToastError("Failed to process files")
      ensures ReadAll(files).Some? ==> uploadedFiles == Merge(old(uploadedFiles), ReadAll(files).value)
      ensures ReadAll(files).Some? ==> toast == ToastSuccess("Successfully uploaded " + DecimalString(|files|) + " file(s)")
    {
      analysisFiles := [];
      isAnalyzing := false;
      aborted := abortController.Some?;
      if abortController.Some? {
        abortController := None;
      }
      var contractFiles := ReadAll(files);
      if contractFiles.None? {
        toast := ToastError("Failed to process files");
        return;
      }
      var batch := contractFiles.value;
      var merged := MergeUploads(uploadedFiles, batch);
      MergeKeepsNamesUnique(uploadedFiles, batch);
      MergeElements(uploadedFiles, batch);
      ReadAllNamesArePaths(files);
      uploadedFiles := merged;
      toast := ToastSuccess("Successfully uploaded " + DecimalString(|files|) + " file(s)");
    }
  }
}
