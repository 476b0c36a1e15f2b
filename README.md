# SentinelAI content-moderation dashboard, modelled in Dafny

SentinelAI is a browser dashboard for content moderation. A user types text.
A remote generative model sorts it into hate speech, offensive language or
safe/neutral, with a confidence and an explanation. The dashboard keeps a
history of results and shows statistics over it.

This project models the logic around that one remote call:

- the session store of the application component (`App.Session`). It has five
  state cells: `history`, `currentAnalysis`, `isLoading`, `error` and
  `activeTab`. Its transitions are the stages of `handleAnalyze`, the
  history-select callback and the tab buttons;
- the category statistics derived from the history (`App.StatsOf`, a fold that
  mirrors the `reduce`) and the quick-stat lookups of the side panel;
- the classification client `analyzeText` (`GeminiService.AnalyzeText`): the
  empty-input guard, the response schema, and the assembly of the result;
- the analytics view (`StatsSection`): `hasData`, the flagged rate, the total,
  and the choice between the charts and the empty state;
- the scanner view (`DetectionDashboard`): the input cell and its updates, the
  submit guard, the disabled button, the category label of the result card,
  and which parts are visible;
- JavaScript's `String.prototype.trim` (`JsString.Trim`), which both guards
  use. It is checked against an independent definition of a blank string.

The remote call is not modelled. The model takes what it returns as a
parameter, `GeminiService.Call`: either a parsed reply or a thrown error whose
message may be missing. `crypto.randomUUID()` and `Date.now()` are parameters
`id` and `now`. One `handleAnalyze` run is `Begin`, then `Succeed` or `Fail`,
then `Finish`. `App.Session.HandleAnalyze` composes the four.

At these points the code behaves as follows, and so does the model:

- The flagged rate is a percentage from 0 to 100
  (components/StatsSection.tsx:29).
- The category label of the reply is stored without any check
  (geminiService.ts:58). A label outside the enumeration is kept as it is. So
  `AnalysisResult.category` is a `string` in the model. The statistics and
  the card label treat any such label like `Uncertain`.
- The stored `text` is the input as typed (geminiService.ts:57).
- A blank input passed to `handleAnalyze` reaches the client, which rejects
  it, and the store shows "Input text cannot be empty" as the error. The
  form's guard keeps such input from being submitted.
- The scanner form is mounted only while the scanner tab is open
  (App.tsx:115-122). Leaving the tab discards the typed input, and the form
  starts empty when the tab is opened again (components/DetectionDashboard.tsx:14).

## Model

| member | source | states |
|---|---|---|
| `Types.Value` | types.ts:2-7 | each enumeration member stands for a non-empty string: "Hate Speech", "Offensive Language", "Safe / Neutral", "Uncertain" |
| `Types.Parse` | types.ts:2-7 | a label maps to the member whose string it is; a label that no member's string equals maps to none |
| `JsString.LeadingSpace` | geminiService.ts:8 | the length of the longest all-white-space prefix: every character before it is white space, and the next one is not |
| `JsString.TrailingSpace` | geminiService.ts:8 | the length of the longest all-white-space suffix, in the same sense from the end |
| `JsString.Trim` | geminiService.ts:8 | `trim()` gives the empty string exactly when every character is white space; otherwise the result neither starts nor ends with white space and is no longer than the input |
| `GeminiService.SchemaCategories` | geminiService.ts:29-33 | the schema allows exactly three labels; each is the string of an enumeration member, and these are all members except `Uncertain` |
| `GeminiService.SchemaProperties` | geminiService.ts:28-46 | the schema describes four distinct properties, one per field of the reply |
| `GeminiService.RequiredFields` | geminiService.ts:48 | the schema requires exactly the properties it describes: every one of them, and no other name |
| `GeminiService.AnalyzeText` | geminiService.ts:7-64 | blank input is rejected with "Input text cannot be empty", whatever the service would have done; otherwise a reply resolves and a thrown error rejects with its message; a result keeps the input verbatim, takes id and timestamp from the environment, and copies category, confidence, explanation and keywords unchanged |
| `GeminiService.SchemaReplyIsPublished` | geminiService.ts:26-58 | a reply whose label the schema allows yields a result in one of the three published categories, never `Uncertain` |
| `App.FailureText` | App.tsx:24-25 | the shown error is never empty: the thrown message if it is present and non-empty, the fixed "Failed to analyze text. Please try again." otherwise |
| `App.Lookup` | App.tsx:33-40 | the `or 0` fallback of `acc[key]` and `counts[key]`: a key the accumulator holds reads as its count, any other key as 0 |
| `App.Tally` | App.tsx:32-35 | the `reduce` ends with a key for exactly the keys it started with and the categories that occur in the history |
| `App.TallyCounts` | App.tsx:32-35 | the `reduce` adds to every key of its accumulator exactly the number of history entries with that category; the accumulator is a map, so names that a plain JavaScript object inherits (such as "constructor") are not modelled, which cannot affect the three category names the statistics read |
| `App.CountAppend` | App.tsx:23 | the count of a category over two joined histories is the sum of their counts |
| `App.CountSingle` | App.tsx:23 | a single result counts once towards its own category and nowhere else |
| `App.StatsOf` | App.tsx:31-42 | exactly three buckets, in the order hate speech, offensive, safe; each names its category and holds the number of history entries of that category (0 when there are none) |
| `App.BucketsBounded` | App.tsx:32-41 | the three counts add up to at most the history length, and to exactly it iff every entry is of one of the three published categories |
| `App.StatsBounded` | App.tsx:37-41 | the values of the three buckets add up to at most the history length |
| `App.StatsAfterPrepend` | App.tsx:23 | prepending a result to the history adds one to its own category's bucket and leaves the other buckets unchanged |
| `App.StatsOfOneEach` | App.tsx:31-42 | a history with one result of each published category gives three buckets of one |
| `App.FindValue` | App.tsx:94-96 | the `find` with its `or 0` fallback: the value of the first bucket with the name, or 0 when no bucket has it |
| `App.QuickStatsOf` | App.tsx:94-96 | the clean, offensive and hate-speech figures are each the value of the first bucket of that category, or 0 |
| `App.QuickStatsMatchBuckets` | App.tsx:94-96 | the side panel's clean, offensive and hate-speech figures are the safe, offensive and hate-speech counts of the history |
| `App.Session.constructor` | App.tsx:11-15 | the store starts with an empty history, nothing displayed, not loading, no error, on the scanner tab |
| `App.Session.Stats` | App.tsx:31-42 | the memoised statistics are those of the current history: one bucket per published category, each the count of that category |
| `App.Session.Begin` | App.tsx:18-19 | loading is set and the error cleared; history, displayed result and tab are unchanged |
| `App.Session.Succeed` | App.tsx:21-23 | the result is displayed and prepended to the history: the length grows by one and the newest entry comes first; nothing else changes |
| `App.Session.Fail` | App.tsx:24-25 | the error becomes the failure text of the thrown message; history, displayed result, loading flag and tab are unchanged |
| `App.Session.Finish` | App.tsx:26-28 | loading is cleared and nothing else changes |
| `App.Session.HandleAnalyze` | App.tsx:17-29 | after a run loading is off and the tab unchanged; on a resolved analysis the result is displayed, prepended to the history and no error shows; on a rejection history and display are unchanged and the failure text shows; blank input shows the empty-input message and changes neither; the store invariant holds throughout |
| `App.Session.SelectFromHistory` | App.tsx:124-127 | the chosen entry is displayed and the scanner tab opens; history, loading flag, error and statistics are unchanged |
| `App.Session.SetActiveTab` | App.tsx:57-75 | only the tab changes; the statistics are unchanged |
| `StatsSection.HasData` | components/StatsSection.tsx:13 | there is data iff the history count is positive |
| `StatsSection.FlaggedRate` | components/StatsSection.tsx:29 | the rate is a fraction in percent: 0 without data; with data it is 100 times the first two buckets over the history count, and it is at most 100 when the two buckets do not exceed that count |
| `StatsSection.Render` | components/StatsSection.tsx:13-103 | "Total Scanned" shows the history count; the shown rate is the flagged rate of the data; the charts show iff the count is positive; the empty state shows a rate of 0 |
| `StatsSection.FlaggedRateOfHistory` | components/StatsSection.tsx:29 | fed from the store, the rate is at most 100, is 0 for an empty history, and is otherwise 100 times the number of hate-speech and offensive results over the history length |
| `StatsSection.PanelOfHistory` | components/StatsSection.tsx:13-103 | the analytics view of a session shows its history length and a rate of at most 100, shows charts exactly when the history is non-empty, and then shows 100 times the hate-speech and offensive results over the history length |
| `StatsSection.ThreeScans` | App.tsx:17-42 | three answered scans (hate speech, safe, offensive) give one result per bucket and a flagged rate of 200/3 percent |
| `DetectionDashboard.Dashboard.constructor` | components/DetectionDashboard.tsx:14 | the input starts empty |
| `DetectionDashboard.Dashboard.Change` | components/DetectionDashboard.tsx:72 | typing sets the input to the new value |
| `DetectionDashboard.Dashboard.Clear` | components/DetectionDashboard.tsx:85 | Clear empties the input |
| `DetectionDashboard.Dashboard.LoadSample` | components/DetectionDashboard.tsx:92 | Load Sample sets the input to the fixed sample sentence |
| `DetectionDashboard.SwitchTab` | App.tsx:57-122 | a navigation button changes only the tab; the scanner keeps its form only when its tab stays open, and otherwise shows a new form with an empty input |
| `DetectionDashboard.SelectItem` | App.tsx:115-127 | selecting a history entry displays it on the scanner tab with history, loading flag and error unchanged; the form is new and empty unless the scanner tab was already open |
| `DetectionDashboard.InputLostOnReturn` | App.tsx:115-122 | text typed in the scanner is gone after a visit to another tab: the input is empty and the button disabled |
| `DetectionDashboard.Submitted` | components/DetectionDashboard.tsx:16-21 | submit passes the text on iff it has a non-space character, and passes it untrimmed |
| `DetectionDashboard.SubmitDisabled` | components/DetectionDashboard.tsx:100 | the button is disabled iff loading or the input is blank |
| `DetectionDashboard.CategoryLabel` | components/DetectionDashboard.tsx:23-57 | the label is the fallback "Neutral" exactly when the category is not hate speech, offensive or safe |
| `DetectionDashboard.LabelsSeparateSchema` | components/DetectionDashboard.tsx:23-57 | the three labels the service may return get three different card labels, none of them "Neutral" |
| `DetectionDashboard.Render` | components/DetectionDashboard.tsx:100-151 | the error banner shows a non-empty error and only that; the card shows iff there is a result and loading is over, with its label, confidence times 100, explanation, and the flagged terms iff there are some |
| `DetectionDashboard.EnabledSubmitReachesService` | components/DetectionDashboard.tsx:16-21 | an enabled button passes the text on, and the client's empty-input guard then lets the call through |
| `DetectionDashboard.SampleIsSubmittable` | components/DetectionDashboard.tsx:92 | the sample sentence is not blank, so submitting it passes it on unchanged |
| `DetectionDashboard.ScanSample` | components/DetectionDashboard.tsx:16-21 | Load Sample, submit and an answer: the history holds one result with the sample text and the reply's category, the card shows the category's label, no error shows, and the button is enabled |
| `DetectionDashboard.FailedScan` | App.tsx:24-25 | a scan whose call throws leaves the history empty, shows no card, and shows a non-empty error whatever the thrown message |

## Left out

- The remote model call, its prompt and configuration, and the API key (geminiService.ts:5, 12-51): these are foreign calls. The model takes their outcome as the parameter `Call`.
- `JSON.parse` (geminiService.ts:53): a parse failure is a `Threw` outcome. A parsed object that lacks a field, or holds a field of the wrong type, is not modelled. Fields are assumed present and typed, as the schema requires. An empty response text parses to `{}`, which gives a result whose fields are undefined; this case is not modelled.
- `crypto.randomUUID()` and `Date.now()` (geminiService.ts:56, 62): these are environment readings, taken as parameters. Uniqueness of identifiers is not modelled.
- Overlapping requests: `handleAnalyze` awaits across the call and does nothing to stop a second submit. Only the disabled button does that. A run is modelled as one whole `HandleAnalyze`, and interleavings are not modelled.
- `App.Session.SelectFromHistory`: requires the item to be in the history. The only caller is the history list, which passes one of its own entries (components/HistoryList.tsx:55).
- The rounding of percentages with `toFixed(0)` (components/StatsSection.tsx:29, components/DetectionDashboard.tsx:138). Rates are exact fractions of integers and confidences are exact reals.
- Floating point: `confidence` is a real number and the flagged rate an exact fraction, not IEEE doubles; the division that computes the rate is not rounded.
- The history list view (components/HistoryList.tsx): it only renders. Its time formatting uses a locale API.
- Cosmetic output: chart drawing, icons, CSS classes and colours (also the colours in the statistics and the card theme), the fixed "98.4" accuracy figure, the `StatCard` markup, and the rendering of the panel each tab shows.
- The character counter under the text area (components/DetectionDashboard.tsx:77): it counts UTF-16 units. Strings here are sequences of code points.
