# VeriDAI front end: session store, mock engine and the views built on them

VeriDAI is a single-page demo of a deepfake detector. Every visitor has one
session store (`useUIStore`). It holds:

- the sign-in state and the auth prompt flag;
- the current analysis item;
- a history of completed analyses, at most 200 entries, newest first;
- a daily quota that starts at 15 and is raised by referral credits;
- a secure-mode flag.

Three handlers submit media:

- the upload panel's file picker and drop zone (`onFiles`);
- its URL field (`analyseFromUrl`);
- the extension demo's context-menu action (`runImageAnalysis`).

Each handler classifies its input and then runs the same protocol:

1. An anonymous visitor gets a `processing` placeholder and an auth prompt.
2. A signed-in user with no quota left is turned away and nothing changes.
3. Otherwise a `pending` item becomes current and the quota drops by one.
4. The mock engine `fakeAnalyse` produces the result.
5. The `done` item replaces the current item and is prepended to the history.

The engine is a weighted score of five uniform draws. It reports three
issues, each gated by a threshold. The dashboard aggregates the history:

- the average trust score and the image/video shares;
- the five most recent items;
- label counts in first-seen order and the five most frequent labels;
- per-metric means.

The analysis drawer renders the current item. The extension demo also places
its context menu inside the viewport.

Modules:

- `SessionStore` (session_store.dfy):
  - the store as a value `UIState`, and its mutators as a reducer `Apply`/`Run`;
  - the class `UIStore`, whose methods update its fields in place and are
    proved equal to `Apply`.
- `Engine` (engine.dfy): `fakeAnalyse` as a function of its five draws.
- `Submission` (submission.dfy):
  - the protocol as the pure function `Submit`;
  - the method `SubmitTo`, which performs it on a `UIStore` and is proved to
    reach the state `Submit` computes.
- `UploadPanel` (upload_panel.dfy):
  - URL validation and classification;
  - the class `Panel` with its own fields (`url`, `urlErr`, `uploading`) and
    its two handlers.
- `ExtensionShowcase` (extension_showcase.dfy): the context-image submission
  and the menu placement clamp.
- `App` (app.dfy): the header toggle and the dashboard aggregates. The two
  `forEach` loops become methods with loop invariants. Each is proved equal
  to a declarative definition: counts as multiset multiplicities over the
  first-seen order, means as sums over counts.
- `AnalysisDrawer` (analysis_drawer.dfy): what the drawer shows for an item,
  and the Close button.
- `Text`, `Numbers`, `Items`, `Wrappers`: trimming, ASCII lower-casing and
  substring search; `Math.round`; the item records; `Option`/`Result`.

## Model

| member | source | states |
|---|---|---|
| SessionStore.Prepend | src/hooks/useUIStore.ts:39 | the new entry is first, then the old history in order, truncated to 200 entries |
| SessionStore.PrependEvictsOldest | src/hooks/useUIStore.ts:39 | prepending to a full history of 200 drops exactly its oldest entry |
| SessionStore.Apply | src/hooks/useUIStore.ts:33-48 | every mutator keeps quota and credits non-negative and the history at most 200; credits never drop; only addHistory touches the history |
| SessionStore.RunKeepsInv | src/hooks/useUIStore.ts:33-48 | any sequence of mutators keeps the store invariant |
| SessionStore.CreditsNeverDecrease | src/hooks/useUIStore.ts:43 | no sequence of mutators lowers referralCredits |
| SessionStore.Referrals | src/hooks/useUIStore.ts:43 | n referral events form a sequence of n addReferralCredit calls |
| SessionStore.ReferralsAddN | src/hooks/useUIStore.ts:43 | n referral credits add exactly n to both credits and quota and change nothing else |
| SessionStore.DecrementFloors | src/hooks/useUIStore.ts:41 | decrementQuota lowers a positive quota by one and leaves a zero quota (and the whole state) unchanged |
| SessionStore.ToggleTwice | src/hooks/useUIStore.ts:47 | toggling secure mode twice restores the state |
| SessionStore.LoginKeepsPlaceholder | src/components/AuthModal.tsx:13-16 | signing in sets the user and closes the prompt; the current placeholder item, history and quota stay as they were |
| SessionStore.SettersArePointUpdates | src/hooks/useUIStore.ts:35-45 | setAnalysisItem, setUser and setAuthOpen replace only their own field |
| SessionStore.UIStore.constructor | src/hooks/useUIStore.ts:31-48 | the store starts with quota 15, no credits, empty history, no item, no user, prompt closed, secure mode off |
| SessionStore.UIStore.SetAuthOpen | src/hooks/useUIStore.ts:35 | only authOpen changes, to the argument |
| SessionStore.UIStore.SetAnalysisItem | src/hooks/useUIStore.ts:37 | only the current item changes, to the argument |
| SessionStore.UIStore.AddHistory | src/hooks/useUIStore.ts:39 | the history becomes Prepend of the old history; nothing else changes |
| SessionStore.UIStore.DecrementQuota | src/hooks/useUIStore.ts:41 | the quota becomes max(0, quota - 1); nothing else changes |
| SessionStore.UIStore.AddReferralCredit | src/hooks/useUIStore.ts:43 | credits and quota each grow by one; nothing else changes |
| SessionStore.UIStore.SetUser | src/hooks/useUIStore.ts:45 | only the user changes, to the argument |
| SessionStore.UIStore.ToggleSecureMode | src/hooks/useUIStore.ts:47 | only secureMode changes, to its negation |
| Engine.WeightedSum | src/lib/fakeAnalyse.ts:9 | the score's 0.3/0.1/0.2/0.25/0.15 weights applied to a five-entry metrics record in key order; Engine.Score proves the score is this sum of the metrics the result carries |
| Engine.Score | src/lib/fakeAnalyse.ts:9 | the weights sum to 1: the score of valid draws lies in [0, 1), equal draws give that draw, and the score is the same 0.3/0.1/0.2/0.25/0.15 weighted sum of the metrics the result carries |
| Engine.MetricsCarryDraws | src/lib/fakeAnalyse.ts:4-35 | looking up authenticity, lighting, texture, biological or compression in the metrics record gives the draw of that name |
| Engine.GatesReadCarriedMetrics | src/lib/fakeAnalyse.ts:10-35 | each issue is reported iff the carried metric of the same name is below its threshold: texture 0.45, biological 0.5, compression 0.4 |
| Engine.TextureIssue | src/lib/fakeAnalyse.ts:11-17 | the texture issue record; its severity formula and range are stated by Engine.SeverityRanges, its gate by Engine.Issues |
| Engine.BiologicalIssue | src/lib/fakeAnalyse.ts:18-24 | the biological issue record; its severity formula and range are stated by Engine.SeverityRanges, its gate by Engine.Issues |
| Engine.CompressionIssue | src/lib/fakeAnalyse.ts:25-31 | the compression issue record; its severity formula and range are stated by Engine.SeverityRanges, its gate by Engine.Issues |
| Engine.Metrics | src/lib/fakeAnalyse.ts:35 | the keys are authenticity, lighting, texture, biological, compression in that order, each once, and every value of valid draws lies in [0, 1); that each key holds its own draw is Engine.MetricsCarryDraws |
| Engine.Gate | src/lib/fakeAnalyse.ts:32 | `filter(Boolean)` keeps an entry exactly when its gate holds |
| Engine.Issues | src/lib/fakeAnalyse.ts:10-32 | texture_inconsistency is reported iff texture < 0.45, biological_anomaly iff biological < 0.5, compression_artifacts iff compression < 0.4; at most three issues |
| Engine.FakeAnalyse | src/lib/fakeAnalyse.ts:1-38 | the result carries those metrics and issues, and a score in [0, 1) for valid draws |
| Engine.TypeIgnored | src/lib/fakeAnalyse.ts:1 | the media type argument does not affect the result |
| Engine.IssueOrder | src/lib/fakeAnalyse.ts:10-32 | issues come in the order texture, biological, compression, so no id repeats |
| Engine.SeverityRanges | src/lib/fakeAnalyse.ts:10-31 | each severity is its formula and lies in (0.6, 1.05], (0.5, 1.0] and (0.4, 0.8] respectively |
| Engine.SeverityExceedsOne | src/lib/fakeAnalyse.ts:14 | severity is not clamped: a texture draw of 0 gives severity 1.05 |
| Submission.NewItem | src/components/UploadPanel.tsx:23-35 | the placeholder and pending items carry no score, metrics or issues; what a submission stores is stated by Submission.AnonymousDefers and Submission.AnalysedUpdates |
| Submission.Complete | src/components/UploadPanel.tsx:39 | `{ ...item, status: 'done', ... }`; what the completed item holds is stated by Submission.CompleteIsEngineDone and Submission.AnalysedUpdates |
| Submission.Submit | src/components/UploadPanel.tsx:16-43 | a visitor is asked to sign in, a user without quota is refused and anyone else is analysed, each exactly in its case; user, credits, prompt and secure mode are never touched. The full effect of each branch is stated by Submission.AnonymousDefers, Submission.NoQuotaNoChange and Submission.AnalysedUpdates |
| Submission.StartSubmit | src/components/UploadPanel.tsx:35-37 | while the engine runs, the pending item is current and, with quota left, the quota is already one lower; nothing else has changed |
| Submission.FinishSubmit | src/components/UploadPanel.tsx:38-41 | after the engine returns, its `done` snapshot of the pending item is current and heads the history; the quota and everything else are untouched |
| Submission.SubmitComposes | src/components/UploadPanel.tsx:34-41 | an analysed submission is StartSubmit followed by FinishSubmit: the quota is spent before the engine runs and not again |
| Submission.SubmitTo | src/components/UploadPanel.tsx:20-41 | performing the store calls of the protocol on the store leaves it in the state, with the outcome, that Submit computes; when the engine runs, the store during that call is StartSubmit's in-flight state |
| Submission.AnonymousDefers | src/components/UploadPanel.tsx:20-28 | an anonymous submission asks for sign-in and only sets the current item to the `processing` placeholder with the submitted id, name, type and time and no results |
| Submission.NoQuotaNoChange | src/components/UploadPanel.tsx:30-33 | a signed-in user without quota is refused and the store is unchanged |
| Submission.AnalysedUpdates | src/components/UploadPanel.tsx:34-41 | with quota, the quota drops by exactly one and the `done` item keeps id, name, type and time, takes the engine's score, metrics and issues, becomes current and heads the history; nothing else changes |
| Submission.SubmitKeepsInv | src/components/UploadPanel.tsx:16-43 | every submission keeps the store invariant |
| Submission.CompleteIsEngineDone | src/components/UploadPanel.tsx:39 | the completed item is `done` with exactly the metrics authenticity, lighting, texture, biological and compression in that order, each in [0, 1), a score in [0, 1) that is their 0.3/0.1/0.2/0.25/0.15 weighted sum, and an issue list |
| Submission.SubmitKeepsEngineHistory | src/components/UploadPanel.tsx:39-41 | submissions only ever add such engine results to the history |
| Submission.LastUnitOfQuota | src/components/UploadPanel.tsx:30-41 | with a quota of one, the first submission is analysed and spends it, the second is refused and changes nothing |
| UploadPanel.HasHttpScheme | src/components/UploadPanel.tsx:65 | the case-insensitive `^https?://` test; UploadPanel.WithHttpsScheme states what it decides |
| UploadPanel.CheckUrl | src/components/UploadPanel.tsx:61-73 | the validation and classification steps; their contract is UploadPanel.CheckUrlSpec |
| UploadPanel.FileMediaType | src/components/UploadPanel.tsx:19 | a file is a video iff its MIME type starts with "video", otherwise an image |
| UploadPanel.WithHttpsScheme | src/components/UploadPanel.tsx:65 | the result has an http(s) scheme in any letter case; the input is returned unchanged iff it already had one, otherwise "https://" is put in front; the extension's secure-link action (src/components/ExtensionShowcase.tsx, line 51) uses the same rule |
| UploadPanel.WithHttpsSchemeIdempotent | src/components/UploadPanel.tsx:65 | normalising twice is normalising once |
| UploadPanel.Find | src/components/UploadPanel.tsx:71 | `find` gives nothing iff no listed extension occurs, else the first listed extension that occurs |
| UploadPanel.SchemeDoesNotMatter | src/components/UploadPanel.tsx:65-71 | adding the scheme never creates or removes an extension match |
| UploadPanel.SchemeKeepsAllowlist | src/components/UploadPanel.tsx:65-73 | putting "https://" in front changes neither whether a listed extension occurs nor whether a video extension does |
| UploadPanel.CheckUrlBlank | src/components/UploadPanel.tsx:62-63 | a blank input, and only a blank one, is refused with "Enter a URL" |
| UploadPanel.CheckUrlRejects | src/components/UploadPanel.tsx:67-72 | a non-blank input is refused with "Needs direct image/video URL" iff no listed extension occurs in its lower-case form |
| UploadPanel.CheckUrlAcceptsKind | src/components/UploadPanel.tsx:73 | an accepted URL is a video iff a video extension occurs in the trimmed input |
| UploadPanel.CheckUrlSpec | src/components/UploadPanel.tsx:61-73 | blank input is "Enter a URL"; otherwise the URL is rejected with "Needs direct image/video URL" iff none of the nine extensions occurs in its lower-case form; an accepted URL has an http(s) scheme, is the trimmed input with or without "https://" in front, and is a video iff a video extension occurs |
| UploadPanel.Panel.constructor | src/components/UploadPanel.tsx:11-13 | the field is empty, there is no error and the panel is not busy |
| UploadPanel.Panel.OnFiles | src/components/UploadPanel.tsx:16-43 | an absent or empty file list changes nothing; otherwise the first file is submitted under its name and MIME-derived type, the store ends as Submit says, and the busy flag ends false unless the quota refused |
| UploadPanel.Panel.AnalyseFromUrl | src/components/UploadPanel.tsx:60-96 | a validation failure sets its message and leaves the store alone; otherwise the URL is submitted, a quota refusal sets "Daily limit reached", and only a completed analysis clears the field |
| UploadPanel.Panel.SubmitRequest | src/components/UploadPanel.tsx:74-93 | after validation the store ends in the state Submit computes; a quota refusal sets "Daily limit reached", otherwise the error is cleared and the panel is not busy; the field is cleared only after a completed analysis |
| UploadPanel.AnonymousFileScenario | src/components/UploadPanel.tsx:19-28 | an anonymous visitor dropping a JPEG sees a `processing` image placeholder; history and quota untouched |
| ExtensionShowcase.ContextImageName | src/components/ExtensionShowcase.tsx:32 | the file is named context-image.png iff the blob type contains "png", else context-image.jpg |
| ExtensionShowcase.RunImageAnalysis | src/components/ExtensionShowcase.tsx:28-48 | a failed fetch changes nothing; otherwise the blob is submitted as an image under the context-image name and the store ends as Submit says |
| ExtensionShowcase.ContextSubmissionIsImage | src/components/ExtensionShowcase.tsx:34-46 | any item the action puts in the store is an image with the context-image name, and a completed one heads the history |
| ExtensionShowcase.MenuHeight | src/components/ExtensionShowcase.tsx:59-62 | the image menu is estimated at 142 px, the link menu at 100 px |
| ExtensionShowcase.ClampAxis | src/components/ExtensionShowcase.tsx:63-69 | the coordinate is at least the 12 px margin, the menu fits before the far margin whenever the viewport is large enough, and a position already inside is kept |
| ExtensionShowcase.ClampAxisIsProjection | src/components/ExtensionShowcase.tsx:63-69 | the clamp equals max(12, min(v, extent - size - 12)): the near margin wins when the viewport is too small |
| ExtensionShowcase.ClampAxisIdempotent | src/components/ExtensionShowcase.tsx:63-69 | clamping a clamped position changes nothing when the viewport holds the menu |
| ExtensionShowcase.ClampMenu | src/components/ExtensionShowcase.tsx:55-69 | the 220 px wide menu is placed within the margins on both axes when it fits, and at the pointer when the pointer position already fits |
| App.NextView | src/components/App.tsx:56 | the header button goes from the dashboard to home and from anywhere else to the dashboard |
| App.NextViewInvolution | src/components/App.tsx:56 | pressing it twice returns to the starting view |
| App.ScoreSumBounds | src/components/App.tsx:110 | the sum of unit scores (missing score as 0) lies between 0 and the number of items |
| App.ScoreSum | src/components/App.tsx:110 | the `reduce` of the scores, a missing score as 0; bounded by App.ScoreSumBounds |
| App.AvgScore | src/components/App.tsx:110 | an empty history averages 0 |
| App.AvgScoreIsPercent | src/components/App.tsx:110 | with scores in [0, 1] the average trust is a percentage 0..100 |
| App.EngineAvgScoreIsPercent | src/components/App.tsx:110 | for a history of engine results the average trust is 0..100 |
| App.CountType | src/components/App.tsx:130-131 | the filtered count is at most the history length; App.CountTypesPartition states that the two counts cover the history |
| App.CountTypesPartition | src/components/App.tsx:130-131 | every item is counted as exactly one of image or video |
| App.SharePct | src/components/App.tsx:126-131 | a share exists iff the history is non-empty and is then 0..100 |
| App.SharesSum | src/components/App.tsx:130-131 | the rounded image and video shares add up to 100 or 101 |
| App.SharesCanSumTo101 | src/components/App.tsx:130-131 | one image among eight items shows 13% and 88% |
| App.Recent | src/components/App.tsx:111 | the recent list is the first min(5, total) items of the history |
| App.FirstSeen | src/components/App.tsx:113-114 | the object's key order holds each label once, and exactly the labels that occur |
| App.FirstSeenOrder | src/components/App.tsx:113-114 | keys are ordered by the position where each label first occurs |
| App.LabelsOf | src/components/App.tsx:113 | an item without issues contributes no labels, otherwise exactly one label per issue |
| App.AllLabelsAppend | src/components/App.tsx:113 | the labels of a concatenated history are the concatenated labels |
| App.IssueCounts | src/components/App.tsx:112-113 | `Object.entries(issueCounts)` for the history; stated by App.IssueCountsSpec and computed by App.CountIssues |
| App.Entries | src/components/App.tsx:112-114 | one entry per distinct label in first-seen order, its count the number of occurrences |
| App.EntriesCover | src/components/App.tsx:112-114 | a label has an entry iff it occurs, and every count is positive |
| App.EntriesOrder | src/components/App.tsx:112-114 | entries are distinct and in first-occurrence order |
| App.IssueCountsSpec | src/components/App.tsx:112-114 | issueCounts has one entry per label of the history with its occurrence count, in first-occurrence order |
| App.NoIssuesExcluded | src/components/App.tsx:113 | items without issues do not affect the counts |
| App.Bump | src/components/App.tsx:113 | incrementing `issueCounts[label]` from 0 when absent makes the label a key; App.TallyBump states that it counts one more occurrence and keeps first-seen order |
| App.CountEntryIssues | src/components/App.tsx:113 | the inner `forEach` adds the item's labels to the counting object |
| App.CountIssues | src/components/App.tsx:112-114 | the nested loops compute exactly the declarative issue counts |
| App.Insert | src/components/App.tsx:114 | insertion adds exactly the one entry |
| App.InsertSorted | src/components/App.tsx:114 | inserting into a list sorted by descending count keeps it sorted |
| App.SortByCount | src/components/App.tsx:114 | `sort((a,b)=>b[1]-a[1])` yields a permutation sorted by descending count |
| App.InsertWithCount | src/components/App.tsx:114 | insertion keeps the relative order of entries with equal count |
| App.SortByCountStable | src/components/App.tsx:114 | the sort is stable: the entries of each count keep their input order |
| App.StableTies | src/components/App.tsx:114 | two tied entries appear in the sorted list in their input order |
| App.TopIssues | src/components/App.tsx:114 | exactly min(5, n) entries for n counted labels, sorted by descending count, a prefix of the sorted counts |
| App.TopIssuesAreLargest | src/components/App.tsx:114 | every label left out of the top list has a count no larger than any shown |
| App.SortedEntriesTies | src/components/App.tsx:112-114 | tied labels in the sorted counts are in first-occurrence order |
| App.TopIssuesTies | src/components/App.tsx:112-114 | tied labels in the top list are shown in the order they first occur in the history |
| App.SumFor | src/components/App.tsx:116-119 | the sum for a key absent from the metrics is 0 |
| App.CountFor | src/components/App.tsx:116-119 | a key is counted at least once iff it occurs |
| App.MetricAverages | src/components/App.tsx:116-120 | the averages for the history; stated by App.Averages and App.AveragesInUnit and computed by App.SumMetrics |
| App.Averages | src/components/App.tsx:120 | one mean per distinct key in first-seen order, its sum over its count |
| App.AllMetricsAppend | src/components/App.tsx:117-119 | the metrics of a concatenated history are the concatenated metrics |
| App.NoMetricsExcluded | src/components/App.tsx:118 | items without metrics do not affect the averages |
| App.SumForBounds | src/components/App.tsx:116-119 | sums of unit values lie between 0 and the count |
| App.AveragesInUnit | src/components/App.tsx:120 | the means of unit values lie in [0, 1] |
| App.EngineMetricAveragesInUnit | src/components/App.tsx:120 | for a history of engine results every metric mean lies in [0, 1], so every bar is 0..100% |
| App.AddMetric | src/components/App.tsx:118 | the metric's key becomes present; App.SummedAdd states that its sum grows by the value and its count by one, keys in first-seen order |
| App.SumEntryMetrics | src/components/App.tsx:118 | the inner `forEach` adds the item's metrics to the sums object |
| App.SumMetrics | src/components/App.tsx:116-120 | the loops compute exactly the declarative metric averages |
| AnalysisDrawer.Loading | src/components/AnalysisDrawer.tsx:14 | the loader shows iff the status is pending or processing |
| AnalysisDrawer.ScorePercent | src/components/AnalysisDrawer.tsx:38 | a missing score shows 0, a unit score 0..100 |
| AnalysisDrawer.SeverityLabel | src/components/AnalysisDrawer.tsx:136 | the label is the severity percentage rounded to the nearest integer |
| AnalysisDrawer.SeverityBarWidth | src/components/AnalysisDrawer.tsx:139 | the bar is the label clamped to 100 |
| AnalysisDrawer.OverflowingSeverityClamped | src/components/AnalysisDrawer.tsx:136-139 | severity 1.05 reads "sev 105" over a full bar |
| AnalysisDrawer.EngineSeverityLabels | src/components/AnalysisDrawer.tsx:136 | engine severities read between 40 and 105 |
| AnalysisDrawer.ShownSuggestion | src/components/AnalysisDrawer.tsx:144 | a suggestion shows iff present and non-empty |
| AnalysisDrawer.Row | src/components/AnalysisDrawer.tsx:132-144 | a row shows the issue's label, description and severity label, with a bar of at most 100 |
| AnalysisDrawer.Rows | src/components/AnalysisDrawer.tsx:132 | one row per issue, in order |
| AnalysisDrawer.Render | src/components/AnalysisDrawer.tsx:12-50 | nothing without an item; loader iff in flight; results iff done; sign-up hint iff no user; radar iff the metrics are non-empty; issue list iff the issues are non-empty |
| AnalysisDrawer.ErrorShowsNothing | src/components/AnalysisDrawer.tsx:32-34 | an item in the error status shows neither the loader nor results |
| AnalysisDrawer.InFlightShowsLoader | src/components/AnalysisDrawer.tsx:12-14 | while the engine runs, the drawer shows the pending item's name and type with the loader and no results |
| AnalysisDrawer.PlaceholderShowsLoader | src/components/AnalysisDrawer.tsx:12-14 | after an anonymous submission, the drawer shows the loader and the sign-up hint and no results |
| AnalysisDrawer.Close | src/components/AnalysisDrawer.tsx:22 | Close clears the current item only, and the drawer then renders nothing |
| Numbers.Round | src/components/AnalysisDrawer.tsx:69 | `Math.round` is the nearest integer, halves rounded up |
| Numbers.RoundPercent | src/components/App.tsx:110 | a unit value rounds to a percentage 0..100 |
| Text.TrimStart | src/components/UploadPanel.tsx:62 | leading whitespace is removed and the result starts with a non-whitespace character or is empty |
| Text.Trim | src/components/UploadPanel.tsx:62 | `trim()` is TrimEnd after TrimStart; stated by Text.TrimStart, Text.TrimEnd and Text.TrimEmptyIffBlank |
| Text.TrimEnd | src/components/UploadPanel.tsx:62 | trailing whitespace is removed and the result ends with a non-whitespace character or is empty |
| Text.TrimEmptyIffBlank | src/components/UploadPanel.tsx:62-63 | the trimmed input is empty iff the input is all whitespace |
| Text.Lower | src/components/UploadPanel.tsx:68 | lower-casing keeps the length and folds each character on its own, A-Z to a-z |
| Text.Contains | src/components/UploadPanel.tsx:71 | `includes` holds iff the pattern occurs at some position |

## Left out

- Timers and asynchrony are left out: the engine's random delay, the 500/600 ms delay before the auth prompt, and `await`. The model runs one submission at a time to completion. Interleaved submissions and a handler's stale copy of `user` and `dailyRemaining` are not modelled.
- Randomness, `crypto.randomUUID()` and `Date.now()` are parameters: the five draws, the item id and the creation time.
- Submission.SubmitTo: the auth prompt itself is not modelled. The `AuthRequired` outcome stands for the timer that opens it.
- `fetch`/`blob()` in `runImageAnalysis` become an optional blob type. No failure is modelled after the blob is read: apart from `crypto.randomUUID` (see below), the rest of the handler cannot throw.
- `alert`, `console.error`, the clipboard referral button and the paste listener are left out: they are browser I/O. So are the menu's mousedown and Escape listeners.
- UploadPanel.Panel.AnalyseFromUrl: the `catch` branch ('Failed to analyse URL') is not modelled: with the id as a parameter, nothing in its `try` block can throw. `crypto.randomUUID` is absent outside secure contexts and would throw there; that failure is not modelled. The same holds for the `catch` of `runImageAnalysis`.
- UploadPanel.Panel.OnFiles and UploadPanel.Panel.AnalyseFromUrl: `uploading` is modelled only at the end of a call. The `true` it holds while the engine runs is not modelled.
- `openLinkSecure` (src/components/ExtensionShowcase.tsx, lines 50-53) is not modelled as an operation. It first calls `setSecureUrl`, which the store does not define, so the call throws before `setSecureMode` and `toggleSecureMode` are reached. Only its scheme rule (`UploadPanel.WithHttpsScheme`) and the store's `toggleSecureMode` are modelled.
- ExtensionShowcase.ClampMenu: only the initial placement in `onContext` is modelled. The context menu's re-measuring effect, its open/close state and which item it targets are not.
- The `processing` placeholder left after sign-in is modelled as it is: SessionStore.LoginKeepsPlaceholder shows that sign-in neither resumes nor drops it. The sign-in form is modelled only by its effect on the store.
- Numbers are exact reals, not IEEE doubles. Rounding in `Math.round` and the score sums carry no floating-point error.
- Text.Lower lower-cases ASCII letters only. Lower-casing any other character never creates or removes a match of the ASCII extensions, and the case-insensitive scheme test without the `u` flag folds no other character onto an ASCII letter.
- Text.IsWhitespace lists the ECMAScript WhiteSpace and LineTerminator code points explicitly. Space separators added to Unicode after that list are not included.
- App.LabelsOf: the contract states only the number of labels. That each label is its issue's `label`, in order, is stated by the definition alone.
- App.FirstSeen: JavaScript objects enumerate integer-like keys ("0", "42") before other keys, in ascending numeric order. The model keeps first-insertion order for every key. Objects also inherit `Object.prototype` names: `issueCounts["constructor"]` reads an inherited function, so `(fn || 0) + 1` would concatenate strings rather than count. The model treats every key as absent until it is set. Issue labels and metric keys in this program come from the engine, are never integer-like and never name an `Object.prototype` member.
- The GSAP and framer-motion animations, the radar chart's trigonometry, the score badge hue, `useIsMobile` and all styling are left out: they are presentation only.
- Nothing sets an item's status to `error`. The status exists in the data model and in the drawer (AnalysisDrawer.ErrorShowsNothing), but no transition produces it.
