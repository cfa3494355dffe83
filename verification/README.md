# RightLane client state, in Dafny

RightLane is a single-page web app. It walks a user through a self-assessment
wizard, sends the resulting profile to a language model for an entitlement
report, and then lets the user browse that report and chat with the assistant
"Sheli". This project models the client-side state and data shaping behind
those screens. It has four components and the helpers they share.

- **The wizard** (`wizard.dfy`, module `Wizard`, class `Assessment`).
  - Its step list is derived live from the selected sectors.
  - The step index moves with gated next/back buttons.
  - Profile updates are shallow-merge patches.
  - The sector picker and yes/no cards toggle the profile.
  - The `isAnalyzing` flag brackets the analysis request.
  - It also chooses the screen and the hint for each step.
- **The report browser** (`report.dfy`, module `ReportBrowser`, class `ReportView`).
  - It derives the authority chips, the AND-filtered list and the grouping by authority.
  - It computes the total value, the urgent counter and the documents checklist.
  - Its state holds the tab, the authority multi-select and the query.
  - It holds two progress maps, written through to storage on every toggle.
- **The chat widget** (`chat.dfy`, module `Chat`, class `ChatWidget`).
  - The transcript is append-only.
  - It has an open flag, a loading flag and an input buffer.
  - The send path has a guard; the focus-on-record and external-trigger paths do not.
- **The session** (`app.dfy`, module `AppShell`, class `App`).
  - It holds the current page and owns the report and the profile.
  - It persists both when an assessment completes.
  - It fills two one-shot hand-off slots that the chat widget consumes and clears.
  - `renderContent` maps the page to a view.
- **Shared pieces**:
  - `types.dfy` holds the records of `types.ts`, the profile patch merge, and the browser storage (module `Persistence`).
  - `services.dfy` says what the two language-model wrappers of `gemini.ts` resolve to for each outcome of the remote call.
  - `seqs.dfy` holds the filter, the membership toggle and the first-occurrence de-duplication.
  - `text.dfy` holds lower-casing, the substring test, `trim`, and the decimal text of an index.

Modelling choices:

- **The sector catalog.** `SECTORS` is not part of this model. The wizard takes
  the catalog as a parameter, a sequence of (id, label) pairs. The step-count
  property assumes distinct ids.
- **The profile.** `Partial<UserProfile>` is modelled as the optional
  `selectedSectors` list plus a map from attribute name to value. A patch is a
  profile of the same shape.
- **Asynchronous calls.** Each awaited call is split into two methods. The
  first issues the request (the model returns it). The second receives the
  outcome, which is a parameter. Examples: `StartAnalysis`/`FinishAnalysis`,
  `BeginSend`/`FinishReply`.
- **Storage.** `localStorage` is a class holding a map from key to parsed
  value. `JSON.stringify` and `JSON.parse` are taken as exact inverses. A
  stored value of the wrong kind reads as absent.
- **Effects.** React effects become explicit methods:
  - the mount effects are `App.Hydrate` and the `ReportView` constructor;
  - the chat widget's hand-off effects are `App.DeliverFocus` and `App.DeliverTrigger`.
- **Group order.** The grouped records are rendered in `Object.entries` order.
  For keys that are not integer-like, that is insertion order. The model
  assumes that authority names are not integer-like and are not
  `Object.prototype` property names.
- **Behaviour the model follows as written:**
  - The external trigger sends without the blank and loading guard of the
    send button (ChatWidget.tsx:41-55).
  - An absent `selectedSectors` does not disable the next button. Only a
    present, empty list does (Assessment.tsx:392).
  - The steps-done badge of `ReportView` counts keys, not completed steps
    (ReportView.tsx:86). `ReportView.StepsDone` is that key count; the count
    of completed steps is `DoneCount` (see Findings).
  - A caught failure of the analysis request resolves to the empty report
    (gemini.ts:101, 121-128), which the wizard hands on like any result
    (Assessment.tsx:46-47). The session then replaces the saved report with
    the empty one and shows the dashboard (App.tsx:29-33).
  - Both language-model wrappers build the client and serialise their context
    before entering their `try` (gemini.ts:8-13, 34-52), so an error there
    rejects. A rejected chat request escapes `handleSend` before the reply is
    appended and before loading is lowered (ChatWidget.tsx:69-71). Loading
    then stays raised and every send is blocked (ChatWidget.tsx:64) until the
    reply to an external trigger, which has no loading guard, resolves
    (ChatWidget.tsx:49-54).
  - Laying the groups out one after another gives a permutation of the
    filtered list, not the list itself. `ReportBrowser.GroupingReorders` shows
    this on the report A, B, A.

## Model

| member | source | states |
|---|---|---|
| Types.Merge | Assessment.tsx:29-31 | the merged profile has the patch's value for every patched attribute and the old value for every other one, its keys are the union of both, and a present `selectedSectors` in the patch replaces the selection |
| Types.MergeAssociative | Assessment.tsx:29-31 | two patches applied in turn have the same effect as their merge applied once |
| Types.MergeIdempotent | Assessment.tsx:29-31 | applying the same patch twice is applying it once |
| Persistence.Storage.Set | ReportView.tsx:32 | `setItem` overwrites one key and leaves every other key alone |
| Seqs.Filter | ReportView.tsx:52-60 | `filter` keeps only elements of the input that satisfy the predicate, and never lengthens the list |
| Seqs.FilterIsSubseq | ReportView.tsx:52-60 | `filter` keeps the input order |
| Seqs.ToggleMembers | Assessment.tsx:88-91 | the includes/filter/append toggle flips the membership of the toggled value and keeps every other value's membership |
| Seqs.ToggleNoDup | ReportView.tsx:42-46 | a list without duplicates never gains one by toggling |
| Seqs.ToggleTwiceMembers | ReportView.tsx:42-46 | toggling the same value twice restores every value's membership |
| Seqs.ToggleTwiceRestores | Assessment.tsx:88-91 | toggling an absent value on and off gives back the very same list |
| Seqs.DistinctMembers | ReportView.tsx:50 | `Array.from(new Set(xs))` holds exactly the values of `xs` |
| Seqs.DistinctNoDup | ReportView.tsx:50 | `Array.from(new Set(xs))` holds each value once |
| Seqs.DistinctFirstOccurrenceOrder | ReportView.tsx:50 | `Array.from(new Set(xs))` lists values in order of their first occurrence in `xs` |
| Text.ContainsInfix | ReportView.tsx:57 | a string found in a part is found in any string built around that part |
| Text.TrimEmptyIffBlank | ChatWidget.tsx:64 | `s.trim()` is empty exactly when every character of `s` is ECMAScript white space |
| Text.ParseNatToString | ReportView.tsx:29 | the decimal text of an index reads back as that index |
| Text.NatToStringInjective | ReportView.tsx:29 | distinct indices render as distinct texts |
| Text.SplitAtLastSeparator | ReportView.tsx:29 | a key `prefix-suffix` whose suffix has no dash splits at its last dash in one way only |
| Services.ChatReply | gemini.ts:7-30 | the conversation wrapper resolves to the answer text when there is one, to the no-answer apology when the text is missing or empty, and to the error apology when the call fails inside the `try`, so a resolved reply is never empty; it rejects exactly when the set-up ahead of the `try` fails |
| Services.WithSearchLinks | gemini.ts:112-119 | each parsed card keeps every field except `sources`, which becomes its own sources (or none) followed by the search citations |
| Services.AnalysisReport | gemini.ts:33-129 | the analysis wrapper resolves to the empty report for no text, unparseable text, a non-array or an error inside the `try`, and otherwise to one card per parsed item with the same id and authority; it rejects exactly when the set-up ahead of the `try` fails |
| Wizard.SectorStepsMembers | Assessment.tsx:33-37 | the steps between the two fixed ones and the summary are exactly the labels of the catalog entries whose id is selected |
| Wizard.SelectedCount | Assessment.tsx:35 | with distinct catalog ids, the number of sector steps is the number of catalog ids the selection names |
| Wizard.StepsCount | Assessment.tsx:33-37 | with distinct catalog ids, the step list is 3 plus the number of selected catalog ids long, so unknown and repeated ids add nothing |
| Wizard.StepsIgnoreSelectionOrder | Assessment.tsx:35 | two selections with the same members (in particular a permutation) give the same step list |
| Wizard.SectorStepsFollowCatalog | Assessment.tsx:35 | the sector steps appear in catalog order |
| Wizard.SectorToggle | Assessment.tsx:87-92 | the sector card flips the membership of its id, keeps every other id's, never adds a duplicate, appends a newly chosen id at the end, and leaves the other attributes alone |
| Wizard.SectorToggleTwiceSameSteps | Assessment.tsx:87-92 | pressing the same sector card twice gives back the same step list |
| Wizard.FlagToggle | Assessment.tsx:57 | a yes/no card flips the truthiness of its attribute (an absent one becomes true), leaves every other attribute and the selection alone, and two presses restore the reading |
| Wizard.FixedStepScreens | Assessment.tsx:72-349 | the first step shows the sector picker and its hint, the second the personal form and its hint, the last the summary with the analyzing flag; past the end nothing is shown and the closing encouragement is the hint |
| Wizard.SectorStepScreen | Assessment.tsx:352-362 | a sector step carries a label from the catalog, and its screen and hint are those of its label |
| Wizard.KnownLabels | Assessment.tsx:162-318 | each of the six known sector labels gets its own form and its own hint |
| Wizard.Assessment.constructor | Assessment.tsx:15-27 | the wizard starts on step 0, not analyzing, with the given profile or the defaults (no sectors, age 30, employee, ...) |
| Wizard.Assessment.UpdateProfile | Assessment.tsx:29-31 | the profile becomes the merge of the patch into it; the step and the analyzing flag are kept |
| Wizard.Assessment.NextStep | Assessment.tsx:40 | the step becomes exactly one more and nothing else changes |
| Wizard.Assessment.PrevStep | Assessment.tsx:41 | the step becomes `max(0, step - 1)` and nothing else changes |
| Wizard.Assessment.ClickNext | Assessment.tsx:389-392 | the next button moves forward exactly when the bar is shown (not last step, not analyzing) and it is not disabled (step 0 with a present, empty selection), and a step in range stays in range |
| Wizard.Assessment.ClickBack | Assessment.tsx:389-391 | the back button moves back exactly when the bar is shown and the step is not 0, and a step in range stays in range |
| Wizard.Assessment.ToggleSector | Assessment.tsx:87-92 | the selection is toggled through a profile patch; the step and the analyzing flag are kept |
| Wizard.Assessment.ToggleFlag | Assessment.tsx:55-57 | the attribute is flipped through a profile patch; the step list, the screen and the hint do not change |
| Wizard.Assessment.StartAnalysis | Assessment.tsx:43-46 | the analyzing flag is raised, which hides the navigation bar, and the current profile is what gets submitted |
| Wizard.Assessment.FinishAnalysis | Assessment.tsx:43-53 | the analyzing flag is lowered on every outcome; whenever the wrapper resolves, the completion hand-off carries its report (the empty one for a caught failure) and the submitted profile; a rejection hands nothing on |
| ReportBrowser.FilteredSpec | ReportView.tsx:52-60 | the filtered list is the order-preserving subsequence of records that pass the tab, the authority and the query conditions, each kept as often as the report holds it |
| ReportBrowser.NoFilterKeepsAll | ReportView.tsx:14-16 | the filtered list holds every record when no authority or query filter is set and the tab is not the critical one; on the documents tab this list is not shown |
| ReportBrowser.QueryIgnoresCase | ReportView.tsx:55-57 | the search test gives the same answer for a query and its lower-cased form |
| ReportBrowser.QueryInTitle | ReportView.tsx:55-57 | a query found in the title, ignoring case, never hides a record |
| ReportBrowser.AuthoritiesSpec | ReportView.tsx:50 | the chips hold every authority of the report, nothing else, each once, in first-occurrence order |
| ReportBrowser.GroupSpec | ReportView.tsx:62-66 | a group holds exactly the records of its authority, in list order |
| ReportBrowser.FlattenCounts | ReportView.tsx:204 | laying out the groups of distinct keys gives each record whose authority is a key as often as the list holds it |
| ReportBrowser.GroupByAuthority | ReportView.tsx:62-66 | the reduce creates keys in first-occurrence order, one group per key holding that authority's records in order, and the groups together are a permutation of the list |
| ReportBrowser.GroupingReorders | ReportView.tsx:204 | for authorities A, B, A the keys are A, B, the A group is records 1 and 3, and the laid-out groups differ from the list |
| ReportBrowser.TotalSplit | ReportView.tsx:68 | any filter splits the total into the part it keeps and the part it hides, so the total never depends on the filters |
| ReportBrowser.TotalExample | ReportView.tsx:68 | 3000, 1500 and an absent value total 4500 |
| ReportBrowser.CriticalCountIsCriticalTab | ReportView.tsx:85 | the urgent counter is the length of the critical tab with no authority or query filter |
| ReportBrowser.DocumentsListSpec | ReportView.tsx:177 | the checklist holds exactly the report's records that list a document, in report order, whatever the filters |
| ReportBrowser.FlipSpec | ReportView.tsx:30 | a flip negates its key's reading (absent reads false), records the key, and leaves every other entry alone |
| ReportBrowser.FlipTwice | ReportView.tsx:37 | flipping a key twice restores the reading of every key |
| ReportBrowser.StepKeyInjective | ReportView.tsx:29 | distinct (record, step) pairs get distinct progress keys, even for ids with dashes |
| ReportBrowser.DocKeyInjective | ReportView.tsx:36 | distinct (record, document) pairs get distinct keys |
| ReportBrowser.KeyCountCountsUnchecked | ReportView.tsx:86 | the counter as written shows one step done after a step is checked and unchecked |
| ReportBrowser.KeyCountFlip | ReportView.tsx:86 | a press adds one to the counter as written the first time its step is pressed and leaves it alone afterwards |
| ReportBrowser.DoneAtMostKeys | ReportView.tsx:86 | the counter as written never undercounts the steps done |
| ReportBrowser.DoneCountFlip | ReportView.tsx:86 | each step press moves the count of completed steps by exactly one, up or down |
| ReportBrowser.DoneCountFlipTwice | ReportView.tsx:86 | two presses on the same step give back the steps-done count |
| ReportBrowser.ReportView.constructor | ReportView.tsx:13-26 | the view starts on the all tab with no authorities and no query, and reads both progress maps back from storage |
| ReportBrowser.ReportView.Groups | ReportView.tsx:62-66 | the rendered groups are those of the current filtered list |
| ReportBrowser.ReportView.ToggleStep | ReportView.tsx:28-33 | only the pressed step's reading flips, the whole new map is written to the progress key, and storage keeps agreeing with the screen; the badge as written goes up by one exactly when the step was never pressed and never goes down, while the count of completed steps moves by one |
| ReportBrowser.ReportView.ToggleDoc | ReportView.tsx:35-40 | only the pressed document's reading flips and the whole new map is written to the documents key |
| ReportBrowser.ReportView.ToggleAuthority | ReportView.tsx:42-46 | the authority is added when absent and removed when present; every other authority's membership is kept, and the chips do not change |
| ReportBrowser.ReportView.ClearAuthorities | ReportView.tsx:48 | the selection is emptied, so a record is listed exactly when it passes the tab and the query |
| ReportBrowser.ReportView.SetTab | ReportView.tsx:124 | the tab changes and the checklist is shown exactly on the documents tab; the total, the urgent counter, the checklist and the chips do not change |
| ReportBrowser.ReportView.SetQuery | ReportView.tsx:136 | the query changes; the total, the urgent counter, the checklist, the chips and the choice of checklist or groups do not |
| Chat.IntroMentions | ChatWidget.tsx:34 | the focus introduction names the record's title and authority |
| Chat.SendBlockedIff | ChatWidget.tsx:124 | sending is blocked exactly while loading or when the input is white space only |
| Chat.SendBlockedExamples | ChatWidget.tsx:64 | empty and all-space inputs block, a word between spaces does not, and loading blocks anything |
| Chat.ChatWidget.constructor | ChatWidget.tsx:22-27 | the widget starts closed and idle with an empty input and the greeting as the only message |
| Chat.ChatWidget.SetInput | ChatWidget.tsx:117 | typing replaces the input and nothing else |
| Chat.ChatWidget.BeginSend | ChatWidget.tsx:63-69 | a blocked send changes nothing; otherwise the untrimmed input is appended as the user's, the input is cleared, loading starts and the request carries the input and the report |
| Chat.ChatWidget.FinishReply | ChatWidget.tsx:69-71 | a resolved reply is appended as one non-empty assistant message and loading ends; on a rejection nothing is appended and loading stays raised, so sending stays blocked |
| Chat.ChatWidget.FocusRecord | ChatWidget.tsx:31-38 | the panel opens and exactly one templated assistant message is appended, with no request and loading unchanged |
| Chat.ChatWidget.Trigger | ChatWidget.tsx:41-55 | the panel opens, the message is appended as the user's and sent, with no blank or loading check |
| Chat.ChatWidget.Close | ChatWidget.tsx:89 | the panel closes and the transcript is untouched |
| Chat.ChatWidget.ToggleOpen | ChatWidget.tsx:134 | the launcher negates the open flag and the transcript is untouched |
| AppShell.RenderContent | App.tsx:48-67 | the Assessment page mounts the wizard on the current profile, the Dashboard page the report browser on the current report, and every other page (Chat included) shows Home |
| AppShell.SessionRoundTrip | App.tsx:17-34 | what the completion handler writes, the next mount reads back |
| AppShell.ProgressWritesKeepSession | ReportView.tsx:32-39 | the progress writes never change the report or profile a reload would read |
| AppShell.App.constructor | App.tsx:10-15 | the session starts on Home with an empty report, no profile, both slots empty, and the chat widget in its initial state |
| AppShell.App.Hydrate | App.tsx:17-26 | the report and the profile are each replaced only when storage holds one |
| AppShell.App.AssessmentComplete | App.tsx:28-34 | the session adopts the report and the profile, writes both keys, shows the dashboard, and a reload would restore it |
| AppShell.App.FocusRight | App.tsx:36-38 | the focus slot is filled |
| AppShell.App.AskSheli | App.tsx:40-42 | the trigger slot is filled |
| AppShell.App.EditProfile | App.tsx:44-46 | the page becomes Assessment, which mounts the wizard on the current profile |
| AppShell.App.StartFromHome | App.tsx:51 | Home's start button shows the Assessment page |
| AppShell.App.Navigate | App.tsx:71 | the layout's navigation sets the page |
| AppShell.App.ClearFocusedRight | App.tsx:77 | the focus slot is emptied |
| AppShell.App.ClearTriggerMessage | App.tsx:78 | the trigger slot is emptied |
| AppShell.App.DeliverFocus | App.tsx:75-77 | a filled focus slot becomes one introduction in the chat and is cleared; an empty one does nothing |
| AppShell.App.DeliverTrigger | App.tsx:74-78 | a non-empty trigger is sent with the current report as context and cleared; an empty or absent one is neither sent nor cleared |
| AppShell.App.ChatSend | App.tsx:73-74 | a chat request is grounded on the current report and is issued exactly when sending is not blocked; then the untrimmed input is appended as the user's, the input is cleared and loading starts, and a blocked send changes nothing; the panel stays as it was |
| AppShell.App.MountAssessment | App.tsx:52-57 | the wizard starts on step 0 from the session profile, or the defaults when there is none |
| AppShell.App.MountReportView | App.tsx:58-64 | the report browser shows the session report and reads the saved progress |
| AppShell.App.CompleteAnalysis | App.tsx:28-34 | whenever the wrapper resolves, the session adopts its report and the submitted profile and shows a restorable dashboard; a caught failure leaves the empty report in the session and in storage; only the report and profile keys are written, so saved progress survives; a rejection leaves the session and storage untouched |

## Left out

- Lower-casing covers ASCII letters only. The Unicode case mappings of `toLowerCase` are not modelled.
- `numericValue` is an integer. Floating-point amounts and `NaN` (which `|| 0` also maps to 0) are not modelled.
- Parsing and serializing are not modelled. Malformed stored text, which would make `JSON.parse` throw on mount, is not modelled either.
- Key order of `Object.entries` is modelled as insertion order. Integer-like authority names, which JavaScript lists first, are not modelled, and neither are authority names that collide with `Object.prototype` properties.
- Not modelled: the chat scrolling effect, `window.print()`, the percentage progress bar and `toLocaleString` formatting.
- The JSX markup, the theme and the Home, Layout and avatar components are not modelled. The only exceptions are Home's start button and the layout's page links, which are modelled as `App.StartFromHome` and `App.Navigate`.
- Interleaving of pending requests is not modelled: a reply arriving after the user navigated away, or two triggered requests in flight. Each request is a begin step followed by a finish step.
- The wire format of the remote calls is not modelled: the system prompt, the JSON schema and the report context serialized into the prompt. The calls' outcomes are parameters.
- `onComplete` throwing inside the `try` is not modelled. It would be caught like a failed request, after the session had been partly updated.
- The contents of `SECTORS` are not modelled; the catalog is a parameter. Only the six sector labels that have their own screen are constants.
- ReportBrowser.GroupByAuthority: the groups laid out in key order are stated to be a permutation of the filtered list, not the list itself, because they are equal only when each authority's records are contiguous.
- AppShell.App.Navigate: accepts any page. The layout's links only offer Home, Assessment and Dashboard.

## Findings

| source | as written | input that shows it | evidently intended | confidence | as-written member | corrected member |
|---|---|---|---|---|---|---|
| ReportView.tsx:86 | the "steps done" badge shows `Object.keys(checkedSteps).length`, the number of steps ever toggled | check step 0 of record `r1`, then uncheck it: the badge shows 1 step done and none is | count the steps whose entry is `true` | not executed | ReportBrowser.KeyCountCountsUnchecked | ReportBrowser.DoneCountFlip |
