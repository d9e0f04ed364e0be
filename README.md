# smart-audit front end: a Dafny model

This project models the client-side logic of the smart-audit web application,
a Next.js front end that sends Solidity sources to an AI provider and lists
the security reports it gets back. Three parts are modelled:

- **The audit page** (`src/app/audit/page.tsx`). Its React state cells
  become the fields of the class `AuditSession.AuditState`:
  - the address;
  - the chain information;
  - the uploaded files;
  - the report list;
  - the analysing flag;
  - the abort controller;
  - the editor content;
  - the `contractCode` cell.

  Each event handler is a method:
  - address change and check;
  - the editor's change handler;
  - single- and multi-file analysis;
  - cancel;
  - remove file;
  - remove report;
  - upload.

  The pure steps they rely on are functions with lemmas:
  - address normalisation;
  - report heading normalisation;
  - the report file name;
  - the report upsert;
  - the upload merge.
- **The AI configuration dialog** (`src/components/audit/HeaderAIConfig.tsx`).
  The configuration record and its local-storage copy are the class
  `AIConfiguration.ConfigHolder`. Its handlers are record updates. Save is
  guarded by the API-key check. Reset installs a fixed configuration, and
  the header shows the current model's name.
- **The chain registry helpers** (`src/utils/chainServices.ts`). These are
  lookups in the chain table under the lower-cased chain name, plus the
  explorer URL builders.

The JavaScript built-ins the page calls are modelled in `JsStrings`:
- `trim`, and what it counts as white space;
- `startsWith`;
- `replace` with a string pattern, which replaces only the first occurrence;
- the character classes behind the regular expression `/^#\s+/m`.

`JsStrings` also defines what the model itself needs to state properties:
- `IndexOf`, which locates the occurrence that `replace` rewrites;
- the predicate `EndsWith`, used in contracts only.

The page's `findIndex` and the dialog's `find` share one first-match search,
`Sequences.FindIndex`.

The upload merge is a `forEach` loop, so `AuditUploads.MergeUploads` is a
method with a `while` loop. It is proved equal to the left fold
`AuditUploads.Merge`, and the merge properties are proved about that fold.

The async handlers `handleStartAnalysis` and `handleMultiFileAnalysis` `await`
the analyser. Each is split into two methods:
- a `Begin…` method for the part before the `await`;
- `FinishAnalysis` for the part after it, through the `finally`.

Between the two, the model lets any other handler (remove file, upload,
cancel) run and see the analysis in flight. That is more than the page allows.
While an analysis runs, a full-screen overlay covers both tabs and leaves only
its "Cancel Analysis" button reachable. The handlers keep their own guards for
an analysis in flight, so the extra interleavings are an over-approximation of
what a user can do.

Calls into code outside these files are parameters of the operations that
use them:
- `ethers.isAddress` and `checkContractOnChains`;
- `findMainContract` and `analyzeContract`, whose outcome is an
  `AnalysisOutcome` value;
- `getModelName`/`getAIConfig`, whose result is a `ReportNaming` value;
- `getApiKey` and `getProviderInfo`;
- the model tables;
- the `CHAINS` table and `String.prototype.toLowerCase`, which together form
  the `Registry` value;
- `process.env.NEXT_PUBLIC_GEMINI_API_KEY`.

In some places the code does not do what the application evidently intends.
The model follows the code there.
- A cancelled multi-file analysis raises the error toast "Analysis failed".
  The single-file handler instead reports a cancellation as a success
  ("Analysis cancelled"), which reads as the intended treatment of a
  cancellation. `AuditSession.FinishToast` states both behaviours.
- The report file name is meant to tell the reports of different
  configurations apart (model, language and prompt mode). The name built by
  the code does not separate its parts, so different configurations can
  share a name.
  `AuditReports.ReportFileNameCollision` and
  `AuditReports.ReportFileNameModelLanguageCollision` prove this. Each
  component on its own is still kept apart, which
  `ReportFileNameSeparatesModels`, `…Languages` and `…SuperPrompt` prove.
- In `handleStartAnalysis` the blank-editor `return` sits inside the `try`,
  so its `finally` still clears the analysing flag and the controller. In
  `handleMultiFileAnalysis` the empty-upload guard sits before the `try` and
  changes nothing. The two `Begin…` methods state both.

## Model

| member | source | states |
|---|---|---|
| JsStrings.TrimStartShape | src/app/audit/page.tsx:119 | `TrimStart` removes only leading white space. The result is a suffix of the input and does not itself start with white space. |
| JsStrings.TrimEndShape | src/app/audit/page.tsx:119 | `TrimEnd` removes only trailing white space. The result is a prefix of the input and does not end with white space. |
| JsStrings.Trim | src/app/audit/page.tsx:119 | The trimmed string has white space at neither end. |
| JsStrings.TrimEmptyIffBlank | src/app/audit/page.tsx:154 | `s.trim()` is empty exactly when every character of `s` is white space (both directions). |
| JsStrings.TrimOfTrimmed | src/app/audit/page.tsx:129 | Trimming a string with no white space at either end returns it unchanged. |
| JsStrings.IndexOf | src/app/audit/page.tsx:392 | The result is -1 exactly when the pattern occurs nowhere. Otherwise the pattern occurs at the result and at no earlier index. |
| JsStrings.ReplaceFirstRoundTrip | src/app/audit/page.tsx:392 | When the pattern occurs, the first occurrence is rewritten. The replacement then sits at that index, the length changes by the difference of the two lengths, and putting the pattern back there restores the original string. |
| ContractFiles.RemoveByPath | src/app/audit/page.tsx:438 | The filter keeps exactly the entries with a different path. Nothing is added and no entry with another path is lost. |
| ContractFiles.RemoveByPathConcat | src/app/audit/page.tsx:199-202 | Filtering distributes over concatenation, so the survivors keep their relative order. |
| ContractFiles.RemoveByPathAbsent | src/app/audit/page.tsx:199-202 | Filtering out a path that no entry has returns the list unchanged. |
| ContractFiles.RemoveByPathKeepsNamesUnique | src/app/audit/page.tsx:360 | Filtering a list with unique names leaves the names unique. |
| ContractFiles.RemoveByPathKeepsPathsUnique | src/app/audit/page.tsx:438 | Filtering a list with unique paths leaves the paths unique. |
| Sequences.FindIndex | src/app/audit/page.tsx:494 | The result is -1 exactly when no element has the key. Otherwise it is the first index with that key. The entry-name search and the model-id search of `HeaderAIConfig.tsx` (line 71) both use it. |
| AuditReports.NormalizeHeading | src/app/audit/page.tsx:177-180 | The normalised report always matches `/^#\s+/m`. |
| AuditReports.NormalizeHeadingShape | src/app/audit/page.tsx:177-180 | A report with a heading is kept as it is. A report without one gets the standard title in front. Either way the analyser's text is the end of the report. |
| AuditReports.NormalizeHeadingIdempotent | src/app/audit/page.tsx:398-401 | Normalising twice is the same as normalising once. |
| AuditReports.ReportFileName | src/app/audit/page.tsx:182-190 | The name's length is 19 characters plus the model name and the two suffixes. |
| AuditReports.ReportFileNameShape | src/app/audit/page.tsx:182-190 | The name starts with `report-analysis-` and ends with `.md`. The model name comes right after the prefix, followed by the language suffix. The prompt suffix comes right before `.md`. |
| AuditReports.ReportFileNamePlain | src/app/audit/page.tsx:183-186 | English without the enhanced prompt adds no suffix. |
| AuditReports.LanguageSuffixInjective | src/app/audit/page.tsx:183 | Different languages give different language suffixes. |
| AuditReports.ReportFileNameSeparatesModels | src/app/audit/page.tsx:404-412 | With language and prompt mode fixed, different models give different names. |
| AuditReports.ReportFileNameSeparatesLanguages | src/app/audit/page.tsx:404-412 | With model and prompt mode fixed, different languages give different names. |
| AuditReports.ReportFileNameSeparatesSuperPrompt | src/app/audit/page.tsx:406-408 | The prompt mode always changes the name. |
| AuditReports.ReportFileNameCollision | src/app/audit/page.tsx:182-190 | The language "SuperPrompt" without the enhanced prompt gives the same name as English with it. |
| AuditReports.ReportFileNameModelLanguageCollision | src/app/audit/page.tsx:182-190 | Model `m-french` in English gives the same name as model `m` in French. |
| AuditReports.ReportFile | src/app/audit/page.tsx:192-196 | The report entry uses the file name as both name and path. |
| AuditReports.UpsertReport | src/app/audit/page.tsx:198-203 | The new report is last, and no other entry has its path. |
| AuditReports.UpsertReportMembers | src/app/audit/page.tsx:198-203 | Every old entry under another path survives. Nothing but old entries and the new report is in the result. |
| AuditReports.UpsertReportKeepsOrder | src/app/audit/page.tsx:420-425 | The upsert of `a + b` is the filtered `a`, then the filtered `b`, then the report. |
| AuditReports.UpsertReportNewPath | src/app/audit/page.tsx:420-425 | A report under a new path is appended and nothing else changes. |
| AuditReports.UpsertReportKeepsPathsUnique | src/app/audit/page.tsx:198-203 | Unique report paths stay unique after an upsert. |
| AuditUploads.MergeOne | src/app/audit/page.tsx:493-502 | The list grows by one exactly when the name is new, and the new file is in the result. When the name is present, the first entry with that name is the one replaced and every other position is unchanged. Old positions keep their names. Entries with other names are unchanged. Nothing but old entries and the new file appears. |
| AuditUploads.MergeUploads | src/app/audit/page.tsx:490-505 | The loop's result equals the left fold `Merge` of the batch into the previous uploads. |
| AuditUploads.MergeKeepsPositions | src/app/audit/page.tsx:490-505 | The merge never shrinks the list, and old positions keep their names. An entry whose name is not in the batch is left as it was. |
| AuditUploads.MergeElements | src/app/audit/page.tsx:490-505 | Every entry after the merge is an old entry or a file of the batch. |
| AuditUploads.MergeKeepsNamesUnique | src/app/audit/page.tsx:489-505 | If upload names were unique, they stay unique. |
| AuditUploads.MergeKeepsFirstOfOtherName | src/app/audit/page.tsx:494-497 | A batch without a given name leaves the first entry of that name in place and unchanged. |
| AuditUploads.MergeLaterFileWins | src/app/audit/page.tsx:493-502 | The last file of the batch with a name is the entry with that name afterwards. |
| AuditUploads.ReadAll | src/app/audit/page.tsx:478-487 | The result is present exactly when every read succeeded. It has one entry per file, in order, with the file name as name and path and the text as content. |
| AuditUploads.ReadAllNamesArePaths | src/app/audit/page.tsx:481-484 | Every file read has a path equal to its name. |
| AuditSession.NormalizeAddress | src/app/audit/page.tsx:118-126 | The result is trimmed, and empty exactly when the input is blank. A non-empty result starts with `0x`. An input already prefixed keeps its trimmed form; any other non-blank input gets `0x` in front. |
| AuditSession.NormalizeAddressKeepsNormal | src/app/audit/page.tsx:129-132 | An address that is trimmed and empty or `0x`-prefixed is left unchanged. |
| AuditSession.NormalizeAddressIdempotent | src/app/audit/page.tsx:128-132 | `handleCheck` normalising the address again, after `handleAddressChange` stored it, changes nothing. |
| AuditSession.SingleFileRequest | src/app/audit/page.tsx:165-175 | The single-file request is the editor text as `Contract.sol`, with contract name `Contract`, not multi-file. |
| AuditSession.MultiContractName | src/app/audit/page.tsx:391-393 | The name is never empty. Without a main contract it is `MultiContract`. Otherwise it is the main contract's name with the first `.sol` removed, or `MultiContract` when that leaves nothing. |
| AuditSession.FinishToast | src/app/audit/page.tsx:205-212 | The toast is a success exactly when the analysis completed or a single-file analysis was cancelled. Completion says "Analysis completed". A cancelled single-file analysis says "Analysis cancelled" and a failed one "Error during analysis". A multi-file analysis that does not complete says "Analysis failed", as `handleMultiFileAnalysis` does at page.tsx lines 427-430. |
| AuditSession.SettleReports | src/app/audit/page.tsx:198-203 | A cancelled or failed analysis leaves the reports unchanged. Unique report paths stay unique. |
| AuditSession.SettleReportsCompleted | src/app/audit/page.tsx:177-203 | A completed analysis leaves exactly one report under its file name, last in the list. That report has a heading and ends with the analyser's text. Every report under another name survives. |
| AuditSession.DecimalString | src/app/audit/page.tsx:507 | The file count is rendered as decimal digits that denote exactly that number, with no leading zero except for 0 itself. |
| AuditSession.AuditState.constructor | src/app/audit/page.tsx:35-44 | The initial state cells are empty, including the abort controller and the uploads initialised at page.tsx lines 114-116, the editor holds the sample contract it is given, `contractCode` is empty, and the state is valid. |
| AuditSession.AuditState.AddressChange | src/app/audit/page.tsx:118-126 | The stored address is the normalised input. |
| AuditSession.AuditState.Check | src/app/audit/page.tsx:128-150 | A rejected address probes nothing, keeps the chain information and raises "Invalid contract address". Otherwise the probe gets the normalised address. A probe that returns sets the chain information without a toast. A probe that throws leaves it cleared and raises "Failed to fetch contract information". |
| AuditSession.AuditState.EditorChange | src/app/audit/page.tsx:704-711 | The new text, or the empty string when the editor gives none, becomes both the editor content and `contractCode`. A text that differs from the previous `contractCode` empties the report list; the same text keeps it. The state stays valid. |
| AuditSession.AuditState.BeginSingleFileAnalysis | src/app/audit/page.tsx:152-175 | Blank editor text sends no request, raises "Please enter contract code", and leaves the flag cleared and no controller. Otherwise it sends the single-file request with a fresh controller and sets the flag. |
| AuditSession.AuditState.BeginMultiFileAnalysis | src/app/audit/page.tsx:375-396 | An empty upload list sends no request, raises "Please upload contract files first", and changes nothing. Otherwise it sends all uploads under the multi-file contract name, fresh controller, flag set. |
| AuditSession.AuditState.FinishAnalysis | src/app/audit/page.tsx:198-216 | The report list is settled by the outcome and the toast is `FinishToast`. The flag is cleared, the controller is dropped, and the state stays valid. |
| AuditSession.AuditState.CancelAnalysis | src/app/audit/page.tsx:219-223 | An existing controller is marked aborted. No controller, no change. |
| AuditSession.AuditState.RemoveFile | src/app/audit/page.tsx:359-373 | Uploads with that path are removed and the report list is emptied. `abort()` is called exactly when an analysis was running with a controller. The flag ends cleared with no controller, and the state stays valid. |
| AuditSession.AuditState.RemoveReport | src/app/audit/page.tsx:437-439 | Reports with that path are removed and the state stays valid. |
| AuditSession.AuditState.HandleFiles | src/app/audit/page.tsx:461-512 | Reports, flag and controller are cleared, and `abort()` is called exactly when a controller was present. A failed read keeps the uploads and raises "Failed to process files". Otherwise the batch is merged and the toast reports the file count. Upload names stay unique and each path equals its name. |
| AIConfiguration.WithProvider | src/components/audit/HeaderAIConfig.tsx:26-33 | The provider and the model change and every key is kept. Language and prompt mode are unchanged. |
| AIConfiguration.WithKey | src/components/audit/HeaderAIConfig.tsx:36-48 | Only the current provider's key takes the new value and every other field is kept. An unrecognised provider changes nothing. |
| AIConfiguration.WithKeyOverwrites | src/components/audit/HeaderAIConfig.tsx:36-48 | Editing the key twice keeps only the second value. |
| AIConfiguration.ProviderRoundTripKeepsKeys | src/components/audit/HeaderAIConfig.tsx:26-33 | Switching provider and back restores every key. Only the selected model is reset. |
| AIConfiguration.EffectiveLanguage | src/components/audit/HeaderAIConfig.tsx:164 | The language is never empty: the stored language when set, otherwise "english". |
| AIConfiguration.ValidateSave | src/components/audit/HeaderAIConfig.tsx:52-61 | A rejection for a provider other than Gemini names that provider's key. A rejection for Gemini asks for a key or the `NEXT_PUBLIC_GEMINI_API_KEY` variable. |
| AIConfiguration.ValidateSaveAccepts | src/components/audit/HeaderAIConfig.tsx:50-62 | Save is accepted exactly when the key has a non-white-space character, or, for Gemini only, when the environment key is set. |
| AIConfiguration.ResetConfig | src/components/audit/HeaderAIConfig.tsx:276-285 | The reset installs Gemini with its first model, blank keys, the stored language `"english"` and the enhanced prompt. |
| AIConfiguration.ResetThenSave | src/components/audit/HeaderAIConfig.tsx:274-285 | Right after a reset, saving succeeds exactly when the environment key is set. |
| AIConfiguration.CurrentModelName | src/components/audit/HeaderAIConfig.tsx:69-80 | An unrecognised provider shows "AI Model". Otherwise the name is the provider's label or the name of the first model whose id is selected. |
| AIConfiguration.CurrentModelNameFirstMatch | src/components/audit/HeaderAIConfig.tsx:70-77 | The first matching model with a non-empty name is the one shown. |
| AIConfiguration.CurrentModelNameEmptyFirstMatch | src/components/audit/HeaderAIConfig.tsx:71-77 | A first match with an empty name shows the provider label, even when a later model also matches. |
| AIConfiguration.CurrentModelNameFallback | src/components/audit/HeaderAIConfig.tsx:70-79 | With no matching model the provider label is shown. |
| AIConfiguration.ConfigHolder.constructor | src/components/audit/HeaderAIConfig.tsx:22 | The dialog starts from the configuration and the stored copy it is given. |
| AIConfiguration.ConfigHolder.ProviderChange | src/components/audit/HeaderAIConfig.tsx:26-33 | The configuration becomes `WithProvider` with the provider's default model. |
| AIConfiguration.ConfigHolder.KeyChange | src/components/audit/HeaderAIConfig.tsx:36-48 | The configuration becomes `WithKey` of the typed value. |
| AIConfiguration.ConfigHolder.SelectModel | src/components/audit/HeaderAIConfig.tsx:120-125 | Only the selected model changes. |
| AIConfiguration.ConfigHolder.SetSuperPrompt | src/components/audit/HeaderAIConfig.tsx:141-146 | Only the prompt mode changes. |
| AIConfiguration.ConfigHolder.SelectLanguage | src/components/audit/HeaderAIConfig.tsx:165 | Only the language changes. |
| AIConfiguration.ConfigHolder.Save | src/components/audit/HeaderAIConfig.tsx:50-67 | The verdict is `ValidateSave` of the current key. The configuration is stored exactly when accepted; otherwise storage keeps its old value. |
| AIConfiguration.ConfigHolder.Reset | src/components/audit/HeaderAIConfig.tsx:274-285 | Storage is cleared and the reset configuration installed. |
| ChainServices.Lookup | src/utils/chainServices.ts:5 | An entry is found exactly when the lower-cased name is a key of the table, and it is that key's entry. |
| ChainServices.GetChainId | src/utils/chainServices.ts:4-8 | The result is `undefined` exactly for an unknown chain; otherwise the entry's id. |
| ChainServices.GetRpcUrl | src/utils/chainServices.ts:11-15 | An unknown chain throws "Unsupported chain: " with the name as given. A known one returns its default RPC URL. |
| ChainServices.GetApiScanConfig | src/utils/chainServices.ts:18-28 | Throws exactly for an unknown chain. Otherwise returns the explorer's API URL and its key, or `""` when it has none. |
| ChainServices.GetExplorerUrl | src/utils/chainServices.ts:31-35 | The result is "#" exactly for an unknown chain. Otherwise it is the explorer's `/address/` page, which ends with the address. |
| ChainServices.GetExplorerTokenUrl | src/utils/chainServices.ts:38-42 | The result is "#" exactly for an unknown chain. Otherwise it is the explorer's `/token/` page, which ends with the address. |
| ChainServices.LookupIgnoresCase | src/utils/chainServices.ts:4-42 | A chain name and its lower-cased form give the same results, when lower-casing is idempotent on the name. The error message still quotes the name as given. |
| ChainServices.AvaxCExplorerBytecodeUrl | src/utils/chainServices.ts:45-47 | The URL is the Snowtrace prefix, the address and the C-Chain code suffix, with the address exactly between them. |
| ChainServices.AuroraExplorerBytecodeUrl | src/utils/chainServices.ts:50-52 | The URL is the Aurora smart-contracts prefix followed by exactly the address. |
| ChainServices.BytecodeUrlsDetermineAddress | src/utils/chainServices.ts:45-52 | Each bytecode URL determines the address it was built from. |

## Left out

- The `loading` flag, the AI-config modal's open state and the active tab are left out. They drive only rendering and never feed the modelled state.
- The sample Solidity contract that the editor starts with is not reproduced; it is the constructor's `sampleContract` parameter.
- `handleViewReport`, `handleDownloadReport`, the drag-and-drop event plumbing and the reset of the file input element are left out. They touch only the DOM or the browser's download machinery.
- The analysis overlay's gating (page.tsx lines 845-877 and 1080-1110) is not modelled. Any handler may run between a `Begin…` method and `FinishAnalysis`, where the page leaves only the cancel button reachable.
- The `ContractInfoCard` component and every piece of JSX rendering are left out.
- `checkContractOnChains`, `analyzeContract`, `findMainContract`, `ethers.isAddress`, `getModelName`/`getAIConfig`, `getApiKey`, `getProviderInfo` and the model tables are not part of this model. Their results are parameters.
- The `CHAINS` table is a `map`, so inherited object properties that a JavaScript lookup such as `CHAINS["constructor"]` would find are not modelled.
- `String.prototype.toLowerCase` is an uninterpreted function of the `Registry`. Unicode case mapping is not modelled.
- The analysis is not run concurrently. Each handler is a method whose steps run in order. Interleavings exist only between a `Begin…` call and its `FinishAnalysis`, where the caller may invoke other handlers.
- The abort controller datatype records only that `abort()` was called. `CancelAnalysis` marks it as aborted. `RemoveFile` and `HandleFiles` drop the controller and report the call through their `aborted` result. The `AbortSignal` plumbing into the analyser is represented by the `Aborted` outcome.
- `localStorage` is the `stored` field, holding the configuration itself rather than its JSON text.
- The success toast of `handleSave` and the `onClose` call are the `Accepted` verdict.
- AIConfiguration.ConfigHolder.Reset: requires a non-empty Gemini model table. With an empty `GEMINI_MODELS` the source would throw at `GEMINI_MODELS[0].id` after `localStorage.removeItem` had already run; the table is a fixed constant that is not part of this model.
- AIConfiguration.ConfigHolder.ProviderChange: requires a known provider, because the select only offers the keys of `PROVIDERS`.
- `console.error` logging is left out.
