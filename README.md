# Taradnudbaan AHP / Scrapy dashboard — a Dafny model

This project models the client-side logic of a React dashboard that plans
Scrapy spiders with a generative-language service, runs them (in
simulation), ranks Thai Legal Execution Department (LED) auction assets with
the Analytic Hierarchy Process (AHP), and browses exported files in Google
Drive. The model covers the following parts, one Dafny module each:

- `Wrappers`, `Text`, `Json`, `Types`: the shared records of `types.ts`. These
  modules also hold the JavaScript string and value semantics that the
  handlers rely on: `includes`, `startsWith`, `trim`, `||`, `join`,
  `JSON.stringify` and ASCII `toLowerCase`.
- `Service`: every exported function of `services/geminiService.ts`. Each
  function is split in two:
  - a pure request builder: which model, which prompt and which settings;
  - a reply interpreter: the `||` fallbacks, `JSON.parse` of a default literal,
    and grounding chunks defaulting to `[]`.

  The remote reply is a parameter, `Result<Reply>`, where `Err` is a rejected
  call. `JSON.parse` is a parameter too: a `Parser`, constrained only on
  `"{}"` and `"[]"`.
- `App`: the shell's project list, view and selection (`App.tsx`), as a class
  whose fields are the component's state.
- `DriveExplorer`: the breadcrumb walk over parent links, the search filter and
  the folder navigation (`components/DriveExplorer.tsx`).
- `ChatBot`: the floating assistant's transcript, routing and session handle
  (`components/AIChatBot.tsx`).
- `ProjectDetail`: the detail screen (`components/ProjectDetail.tsx`). This
  covers:
  - the refactor warning;
  - the preview table headers;
  - the AHP join and sort;
  - the upsert progress counter;
  - the two CSV exports;
  - the simulated run log.
- `ProjectWizard`: the three-step creation wizard
  (`components/ProjectWizard.tsx`).
- `DataInsights`: the ranking screen (`components/DataInsights.tsx`). This
  covers the daily-sync counter, the score tiers, the top-three strategy
  request and the provincial breakdown.
- `Dashboard`: the overview (`components/Dashboard.tsx`). This covers the
  running count, the status label, the health colour, the demo badge and the
  upsert banner.
- `LogViewer`: the log screen (`components/LogViewer.tsx`). This covers line
  classes and the diagnosis handler.

Every `async` handler is split at each of its `await`s:

- a `Start…`/`Send` method runs the part before the call and returns the
  request;
- a method per intermediate `await` (`RunStep` for each pause of a spider run,
  `AhpRecords` for the sample records an AHP run may fetch first) runs the code
  between two `await`s;
- a `Finish…` method is the continuation. It takes the call's outcome as a
  parameter, and its `finally` part clears the loading flag in every case.

Each piece acts on the state it finds, so a second run started while the first
is still waiting is expressible. The detail screen's `RunSpider`, `Preview` and
`RunAhp` compose the pieces of one handler with nothing in between, and state
what that uninterrupted run leaves behind.

Timers are modelled as explicit tick methods. `Math.random` values and
formatted clock times are parameters.

## Model

| member | source | states |
|---|---|---|
| Types.ParseStatus | types.ts:7 | a text is a status iff it is one of the four literals 'active', 'paused', 'failed', 'deploying' |
| Types.StatusRoundTrip | types.ts:7 | writing a status and reading it back gives the same status, and a status read from a text writes back as that text |
| Types.SevenViews | types.ts:26-34 | there are exactly seven views, pairwise distinct, and distinct views have distinct names |
| Text.Lower | components/AIChatBot.tsx:40-42 | lower-casing keeps the length and maps each character independently |
| Text.LowerIdempotent | components/DriveExplorer.tsx:75-76 | lower-casing twice is lower-casing once, so lower-casing the search term and the name meet |
| Text.OrElse | services/geminiService.ts:52 | `a \|\| fallback` on strings: a present non-empty string wins, otherwise the fallback |
| Text.NatToString | services/geminiService.ts:60 | the decimal text of a count is non-empty and made of digits |
| Text.NatToStringRoundTrip | services/geminiService.ts:60 | reading the decimal text of a count back gives the count |
| Text.JoinAppend | services/geminiService.ts:38 | joining a concatenation puts exactly one separator at the seam |
| Text.JoinContainsEach | services/geminiService.ts:38 | every element is contained in the joined text |
| Json.Keys | components/ProjectDetail.tsx:148 | the keys of an object, one per member, in member order |
| Json.Lookup | components/ProjectDetail.tsx:240 | a property read finds a value iff the key is among the keys, and the value is one of that key's members |
| Json.EscapeChar | services/geminiService.ts:115 | the escape written for a character is never empty |
| Json.UnescapeStep | services/geminiService.ts:115 | reading an escaped character back restores it and continues with the rest |
| Json.EscapeRoundTrip | services/geminiService.ts:115 | `JSON.stringify`'s string escaping is undone exactly by reading it back |
| Json.QuotePlain | components/ProjectDetail.tsx:151 | a string with no quote, backslash or control character is written as itself between double quotes |
| Json.EscapePlain | components/ProjectDetail.tsx:151 | such a string needs no escaping at all |
| Service.SpiderPromptMentionsInputs | services/geminiService.ts:33-53 | the spider prompt carries the URL, the fields joined by ", " in order, each field, and the Drive sentence |
| Service.SpiderRequestDependsOnlyOnDriveFlag | services/geminiService.ts:35 | two spider requests for the same URL and fields are equal iff their Drive flags are; the intent never reaches the request |
| Service.IgnoredParameters | services/geminiService.ts:98-102 | the refactor request ignores the Drive flag and the sample-record request ignores the spider code |
| Service.IntentPromptMentionsInputs | services/geminiService.ts:9-28 | the intent-analysis prompt carries the URL and the intent |
| Service.ProvincialPromptMentionsInputs | services/geminiService.ts:58-93 | the provincial prompt carries the item count in decimal and the intent |
| Service.RecordPromptsMentionInputs | services/geminiService.ts:98-141 | the sample-record prompt carries the intent; the AHP prompt carries the intent and the records as `JSON.stringify` writes them |
| Service.CodeAndLogPromptsMentionInputs | services/geminiService.ts:146-221 | the refactor prompt carries intent, logs and code; the diagnosis prompt carries the logs; a search chat sends the query unchanged |
| Service.TextFallbacks | services/geminiService.ts:52 | an absent or empty reply text yields '# Error generating LED spider' for a new spider and the unchanged input code for a refactor; present text is returned; a rejected call stays rejected |
| Service.EmptyReplyGivesEmptyValue | services/geminiService.ts:27 | with absent or empty reply text the four JSON operations yield `{}` or `[]` rather than an error |
| Service.GroundedReplies | services/geminiService.ts:184-187 | grounded calls never yield empty text; the strategy, log and search texts are the reply's text when it is non-empty and their own fallback otherwise; their sources are the first candidate's grounding chunks, and missing chunks give `[]` |
| Service.StrategySummaryKeepsOrder | services/geminiService.ts:165-188 | the strategy request sends one summary per asset, in the given order, and its prompt carries the stringified summaries |
| Service.AssetSummaryFields | services/geminiService.ts:167 | each summary has exactly the keys id, loc, gap, type, with the asset's own values |
| Service.JsonReply | services/geminiService.ts:27 | a rejected call stays rejected; otherwise the result is what the parser makes of the reply text or the default literal, and a parse failure is the only other error |
| Service.TextReply | services/geminiService.ts:52 | a rejected call stays rejected; a non-empty reply text is passed through unchanged, an absent or empty one gives the fallback |
| Service.GroundingChunks | services/geminiService.ts:186 | the sources are the first candidate's grounding chunks when that whole path is present, and none otherwise |
| Service.GroundedReply | services/geminiService.ts:184-187 | a rejected call stays rejected; a non-empty reply text is passed through unchanged, an absent or empty one gives the fallback; the sources are the grounding chunks |
| App.Apply | App.tsx:70-80 | an edit changes only the field it names (status, code or Drive flag) and keeps every other field |
| App.UpdateById | App.tsx:71 | an update keeps the list's length |
| App.UpdateOnlyMatching | App.tsx:70-80 | position by position, records with the id become the edited record and all others stay as they were |
| App.UpdateIdempotent | App.tsx:71 | applying the same update twice equals applying it once |
| App.UpdateNoMatch | App.tsx:75 | an id that names no project leaves the list unchanged |
| App.FindProject | App.tsx:105 | a project is found iff some project has the id, and it is the first such project |
| App.NavLabel | App.tsx:82-87 | a label is found iff some entry has the view, and it is that entry's label |
| App.HeaderTitle | App.tsx:173 | 'System Configuration' for settings, the non-empty sidebar label when there is one, else 'System OverView' |
| App.HeaderTitles | App.tsx:82-87 | the four sidebar views show their own labels; the wizard and detail screens show 'System OverView' |
| App.AppState.constructor | App.tsx:24-26 | the shell starts on the dashboard with no selection |
| App.AppState.AddProject | App.tsx:65-68 | the new project goes first, the rest keep their order, and the dashboard is shown |
| App.AppState.Update | App.tsx:70-80 | the list becomes the per-id update of the old list; view and selection are unchanged |
| App.AppState.SelectProject | App.tsx:96-97 | the selection becomes the id and the detail view is shown; the list is unchanged |
| App.AppState.Navigate | App.tsx:142 | only the view changes |
| App.AppState.DetailView | App.tsx:104-114 | the detail screen shows a project iff the selected id names one, and it is the first with that id; otherwise not-found |
| DriveExplorer.Find | components/DriveExplorer.tsx:58-61 | a file is found iff a null-free id names one, and it is the first such file |
| DriveExplorer.TrailShape | components/DriveExplorer.tsx:63-71 | a trail is empty iff there is no current folder, ends at the current folder, lists files root first with each entry the parent of the next, and starts at an entry without a parent file |
| DriveExplorer.Breadcrumbs | components/DriveExplorer.tsx:63-71 | the loop builds exactly that trail, given acyclic parent links |
| DriveExplorer.FilteredFiles | components/DriveExplorer.tsx:73-81 | with an empty search the listing is the current folder's children; otherwise it is every file whose lower-cased name or project contains the lower-cased search |
| DriveExplorer.FilteredIsSubsequence | components/DriveExplorer.tsx:74 | the listing is an order-preserving subsequence of the files |
| DriveExplorer.SearchIgnoresFolder | components/DriveExplorer.tsx:77-79 | a non-empty search lists the same files whichever folder is open |
| DriveExplorer.BackTarget | components/DriveExplorer.tsx:222-224 | back goes to the folder's parent, or to the root when the parent is missing or empty |
| DriveExplorer.Explorer.constructor | components/DriveExplorer.tsx:41-42 | the explorer starts at the root with an empty search |
| DriveExplorer.Explorer.SetSearch | components/DriveExplorer.tsx:177 | only the search changes |
| DriveExplorer.Explorer.GoHome | components/DriveExplorer.tsx:204 | the root crumb opens the root |
| DriveExplorer.Explorer.SelectCrumb | components/DriveExplorer.tsx:213 | a crumb opens that folder |
| DriveExplorer.Explorer.GoBack | components/DriveExplorer.tsx:222-224 | back opens the back target of the current folder |
| DriveExplorer.Explorer.Open | components/DriveExplorer.tsx:236 | opening a folder enters it; opening any other file changes nothing |
| DriveExplorer.Explorer.Reset | components/DriveExplorer.tsx:348 | the search is cleared, the root is open, and the listing is exactly the root files |
| DriveExplorer.FixtureRoots | components/DriveExplorer.tsx:46-56 | ids "1" and "2" name the two root folders |
| DriveExplorer.RootedAtFirstTwo | components/DriveExplorer.tsx:66-69 | files whose parent links all name one of two parentless entries have acyclic links |
| DriveExplorer.FixtureParents | components/DriveExplorer.tsx:46-56 | every shipped file is at the root or inside folder "1" or "2" |
| DriveExplorer.FixtureAcyclic | components/DriveExplorer.tsx:46-56 | the shipped files have acyclic parent links, so the breadcrumb walk ends |
| ChatBot.SearchRouting | components/AIChatBot.tsx:40-42 | routing ignores case, and a query with 'latest' anywhere, in capitals or not, goes to search |
| ChatBot.Turn | components/AIChatBot.tsx:36-62 | search is used iff the lower-cased input has 'search', 'what is the current' or 'latest'; a turn fails iff the call fails or, off search, no session exists; replies are model messages with non-empty text that carry sources iff searched |
| ChatBot.Appended | components/AIChatBot.tsx:58-61 | a reply is appended as it is; a failure appends 'Connection issue. Please re-open the chat.' with no sources |
| ChatBot.Assistant.constructor | components/AIChatBot.tsx:8-14 | the chat starts closed and idle with no session and only the greeting |
| ChatBot.Assistant.Open | components/AIChatBot.tsx:17-21 | opening creates a session only when the chat was closed and none exists |
| ChatBot.Assistant.Close | components/AIChatBot.tsx:91 | closing keeps the session and the transcript |
| ChatBot.Assistant.SetInput | components/AIChatBot.tsx:150 | only the input changes |
| ChatBot.Assistant.Send | components/AIChatBot.tsx:27-35 | a send is accepted iff the input is not blank and no turn is loading; an accepted send appends the user message, clears the input and starts loading |
| ChatBot.Assistant.Finish | components/AIChatBot.tsx:36-65 | the settled turn appends exactly one message, a failure drops the session, and loading ends with no turn left in flight in every outcome |
| ChatBot.TurnAppendsTwo | components/AIChatBot.tsx:30-65 | an accepted turn grows the transcript by exactly two, the user's message then a model message, and leaves earlier entries alone |
| ChatBot.NoSessionMeansFailure | components/AIChatBot.tsx:51-62 | once the session is gone every non-search turn fails, whatever the reply |
| ProjectDetail.RefactorWarningFollowsEdits | components/ProjectDetail.tsx:187-192 | the warning needs Drive enabled; disabling Drive clears it, and code naming 'GoogleDrivePipeline' or 'pydrive2' never shows it |
| ProjectDetail.DedupProperties | components/ProjectDetail.tsx:279-281 | deduplication keeps exactly the same members with no repeats |
| ProjectDetail.AllKeysStep | components/ProjectDetail.tsx:280 | scanning one more row appends that row's keys |
| ProjectDetail.AllKeysMembers | components/ProjectDetail.tsx:280 | a key is scanned iff some row has it |
| ProjectDetail.Headers | components/ProjectDetail.tsx:277-282 | the headers hold every key of every row exactly once, first seen first, and are empty with no rows |
| ProjectDetail.FindAsset | components/ProjectDetail.tsx:240 | a record is found iff one has a strictly equal `property_id`, and it is the first |
| ProjectDetail.AttachAssets | components/ProjectDetail.tsx:239-241 | one entry per score, in order, each paired with its found record |
| ProjectDetail.Insert | components/ProjectDetail.tsx:242 | inserting into a non-increasing list keeps it non-increasing and adds exactly that entry |
| ProjectDetail.HeadIsMax | components/ProjectDetail.tsx:242 | the head of a non-increasing list has the largest score |
| ProjectDetail.SortByScore | components/ProjectDetail.tsx:242 | the sort's output is non-increasing in score and a permutation of its input |
| ProjectDetail.RankingShape | components/ProjectDetail.tsx:239-242 | the ranking has one entry per score, each paired with its first matching record, ordered by non-increasing score |
| ProjectDetail.DoubleQuotes | components/ProjectDetail.tsx:165 | doubling quotes never shortens the text |
| ProjectDetail.QuoteFieldRoundTrip | components/ProjectDetail.tsx:165 | a quoted field (section 2 of RFC 4180) reads back as the original text |
| ProjectDetail.UndoubleRoundTrip | components/ProjectDetail.tsx:165 | undoubling inverts quote doubling |
| ProjectDetail.CodeCsv | components/ProjectDetail.tsx:164-165 | the code export starts with its fixed header line |
| ProjectDetail.CodeCsvKeepsCode | components/ProjectDetail.tsx:165 | the code export's third field reads back as the spider code exactly |
| ProjectDetail.Cell | components/ProjectDetail.tsx:151 | a falsy or missing cell is written `""`, any other value as `JSON.stringify` writes it |
| ProjectDetail.RunResultsLines | components/ProjectDetail.tsx:147-152 | the header line is the first row's keys; then one line per row, over those headers |
| ProjectDetail.RunResultsCsv | components/ProjectDetail.tsx:146-153 | there is no export iff there are no rows; otherwise the lines joined by newlines |
| ProjectDetail.MissingCellsAreEmptyStrings | components/ProjectDetail.tsx:151 | a missing or falsy cell appears in its line as `""` |
| ProjectDetail.Steps | components/ProjectDetail.tsx:121-128 | a run has six step lines; the first is the crawl of the project's target URL, the last two close the spider and dump its stats |
| ProjectDetail.RandomIn | components/ProjectDetail.tsx:102-103 | `Math.floor(r * span) + base` lies in [base, base + span) |
| ProjectDetail.DetailScreen.constructor | components/ProjectDetail.tsx:45-63 | the screen starts with no preview, no logs, no ranking, no upsert and no toast |
| ProjectDetail.DetailScreen.StartUpsert | components/ProjectDetail.tsx:90-95 | an upsert starts at 0 with the toast hidden and 21 ticks to go; preview, run and ranking are untouched |
| ProjectDetail.DetailScreen.UpsertTick | components/ProjectDetail.tsx:96-110 | a tick adds 5 below 100; at 100 it stops, shows the toast and draws stats in [50, 249] and [2, 16]; preview, run and ranking are untouched |
| ProjectDetail.DetailScreen.HideToast | components/ProjectDetail.tsx:378 | only the toast is hidden |
| ProjectDetail.DetailScreen.CloseModal | components/ProjectDetail.tsx:571 | the preview and the run modal close; everything else, running flags included, is untouched |
| ProjectDetail.DetailScreen.StartRun | components/ProjectDetail.tsx:114-118 | the modal opens, running starts, the log restarts with the three opening lines and the preview empties |
| ProjectDetail.DetailScreen.RunStep | components/ProjectDetail.tsx:130-136 | after the k-th pause the k-th stamped step is appended to the log as it then is; after the sixth the sample-record request goes out |
| ProjectDetail.DetailScreen.FinishRun | components/ProjectDetail.tsx:136-143 | records fill the preview and the success line gives their number; a failure appends the error line; running ends either way |
| ProjectDetail.DetailScreen.RunSpider | components/ProjectDetail.tsx:114-144 | an uninterrupted run leaves 3 opening lines, 6 stamped steps, then one success or error line; results fill the preview only on success; the modal stays open and running ends |
| ProjectDetail.DetailScreen.StartPreview | components/ProjectDetail.tsx:216-220 | the preview opens and loads, and the sample-record request goes out |
| ProjectDetail.DetailScreen.FinishPreview | components/ProjectDetail.tsx:221-227 | the preview holds the fetched records, or none after a failure, and loading ends |
| ProjectDetail.DetailScreen.Preview | components/ProjectDetail.tsx:216-228 | an uninterrupted preview shows the fetched records, or none after a failure, and loading ends |
| ProjectDetail.DetailScreen.StartAhp | components/ProjectDetail.tsx:231-238 | analysing starts; with an empty preview the sample records are asked for, otherwise the preview is sent for scoring |
| ProjectDetail.DetailScreen.AhpRecords | components/ProjectDetail.tsx:235-238 | fetched records become the preview and are sent for scoring; a failure ends the analysis |
| ProjectDetail.DetailScreen.FinishAhp | components/ProjectDetail.tsx:238-248 | scores replace the ranking with the ranked join over the captured records; a failure keeps it; analysing ends |
| ProjectDetail.DetailScreen.RunAhp | components/ProjectDetail.tsx:230-249 | in an uninterrupted run, sample records are fetched and stored only when the preview is empty; the ranking is replaced only when scoring succeeds; analysing ends |
| ProjectDetail.UpsertRun | components/ProjectDetail.tsx:90-112 | a started upsert, ticked until it stops, ends at 100 with the toast shown and stats in range |
| ProjectWizard.FieldsOf | components/ProjectWizard.tsx:38 | reading fields succeeds iff `fields_to_extract` is an array, one text per element; otherwise a TypeError |
| ProjectWizard.StringFieldsPassThrough | components/ProjectWizard.tsx:38 | a list of strings reaches the prompt unchanged |
| ProjectWizard.SuggestedName | components/ProjectWizard.tsx:51 | a string `suggested_name` becomes the project name |
| ProjectWizard.NewProject | components/ProjectWizard.tsx:48-59 | the finished project has the wizard's URL, intent and code, the suggested name, status active, health 100 and the Drive flag |
| ProjectWizard.Wizard.constructor | components/ProjectWizard.tsx:13-19 | the wizard starts at step 1, idle, with empty inputs, Drive off and nothing in flight |
| ProjectWizard.Wizard.SetUrl | components/ProjectWizard.tsx:100 | at step 1, only the URL changes |
| ProjectWizard.Wizard.SetIntent | components/ProjectWizard.tsx:112 | at step 1, only the intent changes |
| ProjectWizard.Wizard.SetSaveToDrive | components/ProjectWizard.tsx:121 | at step 1, only the Drive flag changes |
| ProjectWizard.Wizard.StartAnalysis | components/ProjectWizard.tsx:21-23 | a request goes out iff URL and intent are non-empty, and then loading starts; the inputs are kept |
| ProjectWizard.Wizard.FinishAnalysis | components/ProjectWizard.tsx:24-33 | any parsed analysis moves to step 2, whatever it holds; a failure stays put; loading ends either way; the inputs are kept |
| ProjectWizard.Wizard.FinishAnalysisChecked | components/ProjectWizard.tsx:24-33 | corrected: step 2 is reached only with an analysis whose `fields_to_extract` is an array, so step 2 can always draw its panel; any other reply stays put like a failure |
| ProjectWizard.Wizard.StartGeneration | components/ProjectWizard.tsx:35-38 | the request carries the analysis' fields and the Drive flag, or is a TypeError when they cannot be read; when step 2 can be drawn the request always goes out |
| ProjectWizard.Wizard.FinishGeneration | components/ProjectWizard.tsx:39-46 | step 3 is reached only with generated code from a request that went out, otherwise the step is kept; loading ends; a generation awaited at step 2 finishes from step 2 with code asked for the current inputs |
| ProjectWizard.Wizard.Back | components/ProjectWizard.tsx:186-191 | back from step 2 returns to step 1 and keeps everything else, a generation in flight included |
| ProjectWizard.Wizard.BackWhenIdle | components/ProjectWizard.tsx:186-194 | back disabled while loading, like the generate button: a generation in flight is then always awaited at step 2 for the current inputs |
| ProjectWizard.EmptyAnalysisHasNoFields | components/ProjectWizard.tsx:25-27 | an analysis reply without text is read as `{}`, which has no fields to list |
| ProjectWizard.EmptyAnalysisReachesStepTwo | components/ProjectWizard.tsx:141-166 | as written, that reply moves the wizard to step 2, where the fields cannot be mapped over |
| ProjectWizard.EmptyAnalysisStaysAtStepOne | components/ProjectWizard.tsx:24-33 | with the checked continuation, the same reply leaves the wizard idle at step 1 with its analysis unchanged |
| ProjectWizard.BackDuringGeneration | components/ProjectWizard.tsx:186-191 | generate, Back, flip the Drive box, reply: step 3 is reached from step 1 with code asked for the other Drive flag |
| ProjectWizard.Wizard.Finish | components/ProjectWizard.tsx:48-61 | the project handed over is the finished record of the wizard's state |
| ProjectWizard.GenerationRequestMentionsFields | components/ProjectWizard.tsx:37-38 | a request that goes out carries the fields joined by ", " |
| DataInsights.Increment | components/DataInsights.tsx:84 | the increment is the least whole step that covers the total within duration / interval ticks |
| DataInsights.SyncIncrement | components/DataInsights.tsx:81-84 | the per-tick step, defined by the ceiling formula, is 1505 for 94016 records, 2500 ms and 40 ms ticks |
| DataInsights.SyncLinear | components/DataInsights.tsx:87-98 | for the first 63 ticks the count is ticks × 1505 |
| DataInsights.SyncOvershootThenClamp | components/DataInsights.tsx:87-98 | the count is 94815 (over the total) after tick 63 and exactly 94016 from tick 64 on |
| DataInsights.ScoreTier | components/DataInsights.tsx:383-385 | premium iff score ≥ 9.0, blue iff 8.5 ≤ score < 9.0, grey iff score < 8.5 |
| DataInsights.TierMonotone | components/DataInsights.tsx:383-385 | a higher score never gets a lower tier |
| DataInsights.TopThree | components/DataInsights.tsx:122 | the strategy sends the first three assets, or all of them when there are fewer |
| DataInsights.ProvincialIntent | components/DataInsights.tsx:106-108 | the first project's non-empty intent, else 'General LED Investment' |
| DataInsights.Provinces | components/DataInsights.tsx:109 | the reply's province list, or the empty list when it is missing or falsy |
| DataInsights.EmptyReplyBreaksProvinceList | components/DataInsights.tsx:109 | as written, an empty reply parses to `{}` and leaves no array for the list the view maps over |
| DataInsights.ProvincesAlwaysRenderable | components/DataInsights.tsx:254 | with the default, a missing or array list is always renderable, and an empty reply gives the empty list |
| DataInsights.InsightsScreen.constructor | components/DataInsights.tsx:56-65 | the screen starts idle on the ranking view with the alert hidden, no report, no provinces and no insight |
| DataInsights.InsightsScreen.StartSync | components/DataInsights.tsx:75-79 | the sync starts at 0 with the alert hidden and its timer running for exactly 64 ticks; strategy and provinces are untouched |
| DataInsights.InsightsScreen.SyncTick | components/DataInsights.tsx:86-99 | a tick moves the count to the clamped next value, stops the timer exactly when the count had reached the total, and uses up one tick; nothing else changes |
| DataInsights.InsightsScreen.SyncSettled | components/DataInsights.tsx:90-94 | after the timer stops, syncing ends at exactly 94016 and the alert shows; strategy and provinces are untouched |
| DataInsights.InsightsScreen.HideAlert | components/DataInsights.tsx:214 | only the alert is hidden |
| DataInsights.InsightsScreen.ShowRanking | components/DataInsights.tsx:235 | only the view changes, back to the ranking |
| DataInsights.InsightsScreen.StartStrategy | components/DataInsights.tsx:119-123 | the strategy request carries the top three assets |
| DataInsights.InsightsScreen.FinishStrategy | components/DataInsights.tsx:123-129 | a report replaces the old one; a failure keeps it; analysing ends |
| DataInsights.InsightsScreen.CloseReport | components/DataInsights.tsx:314 | only the report is cleared |
| DataInsights.InsightsScreen.StartProvincial | components/DataInsights.tsx:102-108 | the provincial view is shown first; the request carries 94016 and the default intent |
| DataInsights.InsightsScreen.FinishProvincial | components/DataInsights.tsx:109-116 | a result stores its province list, with the corrected `\|\| []` default, and its insight; a failure or a null result keeps the old ones; analysing ends |
| DataInsights.FixtureStrategy | components/DataInsights.tsx:67-73 | the three strategy assets all score at least 8.5; the tiers are premium, premium, blue, blue, grey |
| Dashboard.ActiveProjects | components/Dashboard.tsx:75 | the filter keeps exactly the active projects and never grows the list |
| Dashboard.ActiveCountAppend | components/Dashboard.tsx:75 | the running count adds up over a concatenation |
| Dashboard.ActiveCountBounds | components/Dashboard.tsx:75 | the count is at most the length, 0 iff none runs, the length iff all run |
| Dashboard.AddedProjectRuns | App.tsx:66 | adding a wizard project (always active) raises the count by one |
| Dashboard.EditsAndActiveCount | App.tsx:70-80 | code and Drive edits keep the count; setting active never lowers it; setting another status never raises it |
| Dashboard.StatusLabel | components/Dashboard.tsx:131 | 'กำลังทำงาน' iff active, 'ล้มเหลว' iff failed, 'หยุดพัก' iff paused or deploying |
| Dashboard.HealthTier | components/Dashboard.tsx:137 | green iff health > 80, amber iff 50 < health ≤ 80, red iff health ≤ 50 |
| Dashboard.HealthTierMonotone | components/ProjectDetail.tsx:513 | better health never shows a worse colour |
| Dashboard.FullHealthIsGreen | components/ProjectDetail.tsx:513 | a project at health 100, as every new one is, shows green |
| Dashboard.DemoBadgeExactly | components/Dashboard.tsx:107 | the demo badge shows exactly for ids that start with 'demo-' |
| Dashboard.StartUpsert | components/Dashboard.tsx:16-18 | the upsert starts and the old result disappears |
| Dashboard.CompleteUpsert | components/Dashboard.tsx:21-23 | completion ends the upsert with 1420 updated and 85 inserted |
| Dashboard.DismissResult | components/Dashboard.tsx:24 | dismissing hides the result and nothing else |
| Dashboard.UpsertCycle | components/Dashboard.tsx:16-26 | start, complete and dismiss show the fixed result and return to idle |
| LogViewer.ClassOf | components/LogViewer.tsx:72-74 | a line is an error iff it has '[ERROR]', a warning iff it has '[WARNING]' but no error tag, info iff only '[INFO]', plain otherwise |
| LogViewer.LineHasItsTag | components/LogViewer.tsx:10-17 | a line contains its own tag; an error-tagged line is an error and a tagged line is never plain |
| LogViewer.MockLogClasses | components/LogViewer.tsx:10-17 | in the shown log the error line is red, the warning line at least amber, and the info lines are never plain |
| LogViewer.DiagnosisMentionsEveryLine | components/LogViewer.tsx:22 | every log line reaches the diagnosis prompt |
| LogViewer.SourceLinks | components/LogViewer.tsx:100-108 | one link per source, each showing the title or, when that is empty, the URI |
| LogViewer.LogScreen.constructor | components/LogViewer.tsx:7-8 | the screen starts idle with no analysis |
| LogViewer.LogScreen.StartAnalyze | components/LogViewer.tsx:19-22 | analysing starts and the request carries the log joined by newlines |
| LogViewer.LogScreen.FinishAnalyze | components/LogViewer.tsx:22-28 | an answer replaces the analysis; a failure keeps the previous one; analysing ends |
| LogViewer.SourcesAfterDiagnosis | components/LogViewer.tsx:94 | sources show exactly when the reply had grounding chunks; a failure keeps the previous sources |

## Findings

| source | as written | input that shows it | evidently intended | confidence | as-written member | corrected member |
|---|---|---|---|---|---|---|
| components/ProjectWizard.tsx:186-191 | the Back button of step 2 has no `disabled`, so it can be pressed while the spider is generated; the continuation's `setStep(3)` then runs from step 1 | at step 2 press generate, press Back, tick or untick the Drive box, then the code arrives: the wizard is at step 3 and `handleFinish` saves code asked for with the other Drive flag | disable Back while loading, as the generate button beside it is | not executed; medium | ProjectWizard.BackDuringGeneration | ProjectWizard.Wizard.BackWhenIdle |
| components/ProjectWizard.tsx:25-27 | `handleStartAnalysis` moves to step 2 with whatever the service parsed, and line 166 maps over `analysis.fields_to_extract` | an analysis reply without text: the service parses `{}`, the wizard shows step 2, and `.map` of `undefined` throws while rendering, so neither Back nor Generate is ever offered | move to step 2 only with an analysis that lists its fields | not executed; medium | ProjectWizard.EmptyAnalysisReachesStepTwo | ProjectWizard.Wizard.FinishAnalysisChecked |
| components/DataInsights.tsx:109 | the province list is stored as the reply's `top_provinces` with no default, and line 254 maps over it | a reply with no text: the service parses `{}`, the list becomes `undefined`, and `.map` throws while rendering | default a missing list to `[]`, as the service does for the other list-valued replies | not executed; high | DataInsights.EmptyReplyBreaksProvinceList | DataInsights.ProvincesAlwaysRenderable |

`DataInsights.InsightsScreen.FinishProvincial` stores the corrected
`DataInsights.Provinces`. `ProjectWizard.Wizard.Back` stays as written; with
`ProjectWizard.Wizard.BackWhenIdle` in its place, every wizard method keeps
`GenerationCurrent`, so `FinishGeneration` only moves from step 2 to step 3.
`ProjectWizard.Wizard.FinishAnalysis` also stays as written; with
`ProjectWizard.Wizard.FinishAnalysisChecked` in its place, every wizard method
keeps `StepTwoRenders`, so `StartGeneration` always sends its request.

## Left out

- The remote model calls and chat sessions' server side. Replies are parameters.
- The response schemas in `services/geminiService.ts` are modelled only as part of each request. They guarantee nothing about the reply.
- Wall-clock time: interval and timeout durations, the 800 ms step delays, and the auto-save debounce (`components/ProjectDetail.tsx:71-88`). Ticks and timeouts are explicit method calls.
- `Math.random` values and `toLocaleTimeString` stamps are parameters.
- Number formatting (`toLocaleString`, `toFixed`) and percentage widths are not modelled.
- DOM, `Blob` and URL downloads; `alert`; scrolling; `console.error`.
- `handleAIRefactor`, `handleExportAHPData` and `DriveExplorer`'s `handleExport` are not modelled. Neither are its `viewMode`, `isExporting` and display-only fields, or the detail screen's activity feed colours.
- `SystemSettings` and `HowToUse` are not part of this model. Neither is the initial project list of `App.tsx`.
- Text.Lower: folds ASCII letters only; `toLowerCase`'s full Unicode case mapping is not modelled.
- Json.Keys: objects are taken to have distinct keys, in insertion order. `Object.keys`'s integer-key ordering is not modelled, and neither are the keys of non-object rows.
- `JSON.parse` is a parameter, constrained only on `"{}"` and `"[]"`. Lone surrogates in `JSON.stringify` are not modelled.
- ProjectDetail.SortByScore: scores are reals, so the `NaN` comparisons of non-numeric scores are not modelled. The sort is specified as non-increasing and a permutation; stability is not proved.
- ProjectDetail.DetailScreen.AhpRecords: the sample-record reply is taken as an array of records, or as a failure; `FinishAhp` likewise takes the scores as an array of entries.
- ProjectDetail.DetailScreen.FinishRun: the sample-record reply is taken as an array of records, or as a failure. A reply that parses to something else is not modelled: an object would log "Extracted undefined items" and be stored as the preview.
- ProjectDetail.DetailScreen.FinishPreview: the same array assumption as `FinishRun`.
- Json.JNum: a number is carried as the text `String(n)` prints for it, and the `Parser` is trusted to deliver that form. A parser that kept `-0`, `0.0` or `1.50` as written would make `Falsy` and `Stringify` differ from JavaScript, which treat them as `0`, `0` and `1.5`.
- ProjectWizard.SuggestedName: a missing or non-string `suggested_name` becomes "" rather than `undefined`.
- ChatBot.Turn: on the session path, a missing session is a failure of the turn. The model does not distinguish a synchronous `TypeError` from a rejected call, because both reach the same `catch`.
- DataInsights.InsightsScreen.FinishProvincial: stores the corrected list `top_provinces || []` (`DataInsights.Provinces`), where line 109 stores `top_provinces` with no default, `undefined` for a reply without one. `DataInsights.EmptyReplyBreaksProvinceList` shows the as-written value. `marketInsight` is `None` where the source holds `''` or `undefined`; both render the same fallback.
- Dashboard.StatusLabel: badge colours and icons are left out; only the label text is modelled.
