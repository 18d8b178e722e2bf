# MedBot front end: the logic under the views, in Dafny

This project models the parts of the MedBot clinical decision-support front end that are logic rather than rendering, and proves properties about them:

- the two offline converters that turn CSV reports into `drugs.json` and `metrics.json`;
- the browser session store: the access token and the user, kept in `localStorage`;
- the `apiFetch` HTTP wrapper: how it builds a request and what a failed response becomes;
- the sign-in form's submit;
- the dashboard's form handlers, summary tiles, prediction and history actions, and tab rule;
- the risk gauge's colour bands and dial configuration.

Modules, one per source file, plus four small libraries:

| file | module | models |
|---|---|---|
| `wrappers.dfy` | `Wrappers` | `Option` / `Result` |
| `text.dfy` | `Text` | `String.prototype.trim`, `split` on one character, `Array.prototype.join`, ASCII lower-casing of header names, decimal numerals |
| `string_order.dfy` | `StringOrder` | the default `Array.prototype.sort` order, an insertion sort, uniqueness of a strictly sorted list |
| `ordered_set.dfy` | `OrderedSet` | a JavaScript `Set` of strings: no repetitions, insertion order |
| `drugs_json.dfy` | `DrugsJson` | `scripts/generate_drugs_json.mjs` |
| `metrics_json.dfy` | `MetricsJson` | `scripts/generate_metrics_json.mjs` |
| `auth.dfy` | `Auth` | `lib/auth.ts` |
| `api.dfy` | `Api` | `lib/api.ts` |
| `auth_page.dfy` | `AuthPage` | `app/auth/page.tsx` |
| `dashboard.dfy` | `Dashboard` | `app/dashboard/page.tsx` |
| `risk_gauge.dfy` | `RiskGauge` | `components/RiskGauge.tsx` |

Each piece takes the form of its source:

- Loops become methods with loop invariants, proved against a specification function:
  - the drugs loop, `GenerateDrugsJson`;
  - the two nested loops of `parseCSV`, `ParseLine` and `ParseCsv`.
- State becomes classes whose methods state the whole new state:
  - the storage map, `Auth.SessionStore`;
  - the form state, `AuthPage.AuthForm`;
  - the page state, `Dashboard.DashboardPage`, through a `State()` snapshot.
- Pure expressions become functions and lemmas:
  - `processGroupNames`, `find`;
  - the path and body choice;
  - `stats`, `join`, `slice`;
  - the gauge.

An asynchronous handler is split at its `await`:

- a "begin" method holds what happens before the request, for example `loading` set and `error` cleared;
- a "finish" method holds what happens after it;
- a composite method runs both around `Api.ApiFetch`.

Library behaviour the model does not implement is a parameter:

- The network is a function from `Api.Request` to `Api.Reply`.
- `parseFloat` is `MetricsJson.NumberParser`, where `None` stands for `NaN`.
- `JSON.stringify` / `JSON.parse` of the user is `Auth.UserCodec`. The lemmas that need a round trip assume it as `Auth.RoundTrips`.
- Number-to-text in template literals is a function `real -> string`.
- JSON request bodies stay symbolic: `Api.Json(payload)` stands for `JSON.stringify(payload)`.

Behaviour of the code worth noting:

- The auto-tab effect (`app/dashboard/page.tsx:93-101`) forces the "ADR Predictions" tab whenever a prediction is held and another tab is open. There is no one-shot flag. As a result, while a prediction is held no other tab can be selected (`Dashboard.DashboardPage.ClickTab`).
- Submit on the sign-in page does no local validation or error rewording (`app/auth/page.tsx:19-37`). Empty credentials are sent as they are.
- `apiFetch` uses the response text verbatim (`lib/api.ts:25-28`):
  - no decoding of structured errors;
  - no suppression of HTML;
  - no truncation.
- The base URL is used as configured, with no scheme or trailing-slash normalisation (`lib/api.ts:3`).
- The mean arterial pressure is only a default value (93). No handler recomputes it.

## Model

| member | source | states |
|---|---|---|
| Text.TrimStartShape | scripts/generate_drugs_json.mjs:22 | the leading part of `trim()` keeps a suffix, removes only white space, and stops at the first other character |
| Text.TrimEndShape | scripts/generate_drugs_json.mjs:22 | the trailing part of `trim()` keeps a prefix, removes only white space, and stops at the last other character |
| Text.TrimEmptyIff | scripts/generate_drugs_json.mjs:22-23 | a line trims to `''` (and is skipped) exactly when it is all white space |
| Text.TrimInfix | scripts/generate_drugs_json.mjs:22 | `trim()` yields an infix of its input with only white space before and after it |
| Text.SplitCount | scripts/generate_metrics_json.mjs:13 | `split('\n')` yields one more piece than there are newlines |
| Text.SplitJoin | scripts/generate_drugs_json.mjs:16 | joining the pieces of a split with the separator gives the input back |
| Text.SplitAfterFirst | scripts/generate_drugs_json.mjs:16-21 | a first line without the separator is the first piece, and the rest is split on its own |
| Text.LowerAsciiIdempotent | lib/api.ts:9 | lower-casing a name that is already lower case changes nothing |
| DrugsJson.LeadingField | scripts/generate_drugs_json.mjs:31-32 | `/^([^,]+),/` fails exactly when the line has no comma or starts with one; otherwise it captures the non-empty, comma-free text before the first comma |
| DrugsJson.StripQuotes | scripts/generate_drugs_json.mjs:35-37 | one surrounding pair of `"` is removed when the name starts and ends with `"`; a lone `"` becomes empty; any other name is unchanged |
| DrugsJson.ExtractName | scripts/generate_drugs_json.mjs:22-40 | a line never contributes an empty name |
| DrugsJson.NameOfLine | scripts/generate_drugs_json.mjs:39 | every name a data line yields is in the set of names |
| DrugsJson.LineOfName | scripts/generate_drugs_json.mjs:39 | every name in the set comes from some data line (the witness index is returned) |
| DrugsJson.CollectNames | scripts/generate_drugs_json.mjs:17-42 | the Set filled by the loop has no repetitions and holds exactly the extracted names |
| DrugsJson.Collect | scripts/generate_drugs_json.mjs:17-42 | the contents of the Set after the loop, in insertion order; its properties are stated by `DrugsJson.CollectNames` and `DrugsJson.CollectLength` |
| DrugsJson.CollectLength | scripts/generate_drugs_json.mjs:21-40 | each data line adds at most one name to the Set |
| DrugsJson.NamesOf | scripts/generate_drugs_json.mjs:17-42 | the set of names the data lines yield; none of them is empty |
| DrugsJson.DrugsJsonOf | scripts/generate_drugs_json.mjs:16-50 | the output record: `drugs` is a rearrangement of the Set contents and `total` is their number |
| DrugsJson.DrugsSorted | scripts/generate_drugs_json.mjs:44-50 | `drugs` is strictly ascending, hence free of duplicates, and `total` is its length |
| DrugsJson.DrugsAreDataNames | scripts/generate_drugs_json.mjs:21-44 | a name is listed exactly when some line after the header yields it |
| DrugsJson.DrugsDependOnlyOnNames | scripts/generate_drugs_json.mjs:39-44 | two files with the same set of extracted names give the same output, whatever the order or repetition of lines |
| DrugsJson.HeaderIgnored | scripts/generate_drugs_json.mjs:21 | replacing the header line does not change the output |
| DrugsJson.NoFieldNoName | scripts/generate_drugs_json.mjs:22-32 | a blank line, a line without a comma and a line starting with a comma contribute nothing |
| DrugsJson.NameIsFirstField | scripts/generate_drugs_json.mjs:31-37 | a contributed name is the trimmed text before the first comma with one quote pair removed |
| DrugsJson.FirstFieldIsName | scripts/generate_drugs_json.mjs:31-40 | conversely, when the trimmed text before the first comma is still non-empty after quote removal, the line contributes exactly that name |
| DrugsJson.LoneQuoteDropped | scripts/generate_drugs_json.mjs:31-40 | a line whose trimmed text starts with a lone `"` and a comma contributes nothing: the quote passes both `startsWith` and `endsWith`, and slicing it leaves `''` |
| DrugsJson.GenerateDrugsJson | scripts/generate_drugs_json.mjs:16-50 | the loop and the sort give exactly `DrugsJsonOf(csv)`: strictly sorted, `total` its length, and a name is listed exactly when a data line yields it |
| MetricsJson.Lines | scripts/generate_metrics_json.mjs:13 | the trimmed input always has at least one line (the header) |
| MetricsJson.Headers | scripts/generate_metrics_json.mjs:14 | one header per comma-separated cell of the first line, each header being that cell trimmed |
| MetricsJson.RawCell | scripts/generate_metrics_json.mjs:21 | the trimmed cell when the line has column j, else `''` (an empty cell trims to `''` as well) |
| MetricsJson.CellValue | scripts/generate_metrics_json.mjs:21-25 | the stored value: `parseFloat` of the trimmed text unless the header is `Group` or the text does not parse; its meaning is stated by `MetricsJson.RowValue` |
| MetricsJson.EntryOf | scripts/generate_metrics_json.mjs:19-27 | the row object after the first n columns are assigned; its keys and values are stated by `MetricsJson.EntryKeys` and `MetricsJson.EntryLastWins` |
| MetricsJson.Rows | scripts/generate_metrics_json.mjs:17-29 | one entry for each line after the first |
| MetricsJson.ParseRows | scripts/generate_metrics_json.mjs:17-29 | one entry per line after the header |
| MetricsJson.EntryKeys | scripts/generate_metrics_json.mjs:19-27 | the keys of an entry are exactly the header names |
| MetricsJson.EntryLastWins | scripts/generate_metrics_json.mjs:26 | under a repeated header the last column's value is kept |
| MetricsJson.EntryGroupIsText | scripts/generate_metrics_json.mjs:23-26 | the `Group` value is always a string |
| MetricsJson.RowCount | scripts/generate_metrics_json.mjs:13-29 | the number of entries is the number of newlines in the trimmed input |
| MetricsJson.RowShape | scripts/generate_metrics_json.mjs:17-29 | every entry has exactly the header names as keys, and its `Group`, if any, is a string |
| MetricsJson.RowValue | scripts/generate_metrics_json.mjs:20-26 | a value is a number exactly when its header is not `Group` and the trimmed cell parses; otherwise it is the trimmed cell text, and a missing cell is `''` |
| MetricsJson.ParseLine | scripts/generate_metrics_json.mjs:19-27 | the inner loop builds exactly the specified entry, whose keys are the headers |
| MetricsJson.ParseCsv | scripts/generate_metrics_json.mjs:12-31 | the outer loop returns exactly the specified entries, one per line after the header, in input order |
| MetricsJson.GroupName | scripts/generate_metrics_json.mjs:35-37 | `Sex: 1` becomes `Male`, `Sex: 2` becomes `Female`, every other value is unchanged |
| MetricsJson.Regroup | scripts/generate_metrics_json.mjs:34-39 | the result has a `Group` key holding the renamed group (undefined when it was missing); every other key and value is unchanged |
| MetricsJson.ProcessGroupNames | scripts/generate_metrics_json.mjs:33-41 | same length and order; each entry regrouped |
| MetricsJson.ProcessGroupNamesIdempotent | scripts/generate_metrics_json.mjs:36-37 | renaming twice is renaming once |
| MetricsJson.FindOverall | scripts/generate_metrics_json.mjs:49 | the index of the first entry whose `Group` is `Overall`; no earlier entry has it, and None means no entry has it |
| MetricsJson.MetricsOf | scripts/generate_metrics_json.mjs:49-54 | `overall` is the first `Overall` entry or the empty record, and `groups` is the full processed list |
| MetricsJson.GenerateMetricsJson | scripts/generate_metrics_json.mjs:44-54 | the output's groups are the processed rows, one per data line, and `overall` is empty or one of them |
| Auth.TokenLookup | lib/auth.ts:6-9 | a token exactly when there is a window and the key is stored, and then the stored text |
| Auth.UserLookup | lib/auth.ts:21-30 | null without a window, or when the key is absent or empty; otherwise the decoder's answer (null when parsing fails) |
| Auth.Stored | lib/auth.ts:11-14 | both keys written with the token and the encoded user; every other entry kept |
| Auth.Cleared | lib/auth.ts:16-19 | both keys gone; every other entry kept |
| Auth.SessionStore.constructor | lib/auth.ts:6-30 | a store over the given storage, with or without a window, and the given user codec |
| Auth.SessionStore.GetToken | lib/auth.ts:6-9 | null without a window; otherwise the stored token, null when absent |
| Auth.SessionStore.GetUser | lib/auth.ts:21-30 | null without a window or when the user entry is absent or empty; otherwise what the codec decodes, null when it does not parse |
| Auth.SessionStore.SetAuth | lib/auth.ts:11-14 | in a window the storage becomes `Stored(...)`; without one nothing changes and the call fails |
| Auth.SessionStore.ClearAuth | lib/auth.ts:16-19 | in a window the storage becomes `Cleared(...)`; without one nothing changes and the call fails |
| Auth.TokenAfterSet | lib/auth.ts:6-13 | after `setAuth(t, u)` the token read back is `t` |
| Auth.UserAfterSet | lib/auth.ts:11-30 | after `setAuth(t, u)` the user read back is `u`, for a round-tripping codec |
| Auth.NothingAfterClear | lib/auth.ts:6-30 | after `clearAuth()` neither getter finds anything |
| Auth.ClearUndoesSet | lib/auth.ts:11-19 | clearing after a sign-in leaves what clearing alone leaves |
| Auth.SetOverwrites | lib/auth.ts:11-14 | a second sign-in replaces the first entirely |
| Auth.SignInThenRead | lib/auth.ts:6-30 | on a store object: sign in, then both getters return what was stored |
| Api.Base | lib/api.ts:3 | the configured base when non-empty, else `http://localhost:8000`; never empty |
| Api.HeaderAppend | lib/api.ts:9 | header names are lower-cased; a repeated name joins values with `", "`; other names untouched |
| Api.LowerNames | lib/api.ts:9 | the lower-cased names of an init list, position by position |
| Api.HeadersOf | lib/api.ts:9 | `new Headers(init)`: the init pairs appended in order; its keys are stated by `Api.HeadersKeys`, `Api.HeaderNamesLower` and `Api.HeaderGivenOnce` |
| Api.HeaderNamesLower | lib/api.ts:9 | every name in a Headers object is lower case |
| Api.HeadersKeys | lib/api.ts:9 | the Headers object has exactly the lower-cased names of its init list |
| Api.HeaderGivenOnce | lib/api.ts:9 | a name given once keeps its value |
| Api.Builds | lib/api.ts:9-23 | the request property: URL is base ++ path; method as given; `authorization` is `Bearer <token>` exactly for a truthy token (set, replacing any given value); `content-type` is `application/json` and the body is the JSON payload exactly when `json` is given, else the caller's body; every other header as the Headers object holds it |
| Api.BuildsUnique | lib/api.ts:9-23 | the request property below determines the request completely |
| Api.BuildRequest | lib/api.ts:9-23 | URL is base ++ path; bearer header exactly for a truthy token; JSON content type and JSON body exactly when `json` is given, else the caller's body unchanged; every other header as the Headers object holds it (names lower-cased, a repeated name joined with `", "`) |
| Api.Describe | app/auth/page.tsx:33 | `String(e?.message or e)`: the message, or the error name when the message is empty; the text is empty only when both are |
| Api.FailureMessage | lib/api.ts:25-28 | the response text when non-empty (a failed read counts as empty), else `Request failed (<status>)`; never empty |
| Api.FailureMessageStatus | lib/api.ts:27 | the fallback message carries the status: its digits read back to the status code |
| Api.Outcome | lib/api.ts:19-29 | a rejected fetch passes its error on; a non-ok status fails with the failure message; an ok status yields the parsed body |
| Api.FailedResponseMessage | lib/api.ts:25-28 | a non-ok response always fails with a non-empty message, the response text when there is one |
| Api.OkResponsePassesThrough | lib/api.ts:25-29 | an ok response with a parsed body returns it and raises nothing |
| Api.ApiFetch | lib/api.ts:5-30 | the request satisfies the construction property, and the result is the outcome of the transport's reply |
| AuthPage.EndpointPath | app/auth/page.tsx:23 | `/api/auth/login` exactly for the login tab, `/api/auth/signup` exactly for signup |
| AuthPage.RequestBody | app/auth/page.tsx:24-27 | the credentials as typed; a login body exactly on the login tab; on signup `admin_code` is null exactly when the code is blank, else the code |
| AuthPage.BodiesShareCredentials | app/auth/page.tsx:24-27 | the login body is `{username, password}`; the signup body adds `admin_code`, null for a blank code |
| AuthPage.AuthForm.constructor | app/auth/page.tsx:12-17 | initial state: login tab, empty fields, no error, not loading |
| AuthPage.AuthForm.SelectTab | app/auth/page.tsx:45-48 | only the tab changes |
| AuthPage.AuthForm.SetUsername | app/auth/page.tsx:55 | only the username changes |
| AuthPage.AuthForm.SetPassword | app/auth/page.tsx:60 | only the password changes |
| AuthPage.AuthForm.SetAdminCode | app/auth/page.tsx:70 | only the admin code changes |
| AuthPage.AuthForm.BeginSubmit | app/auth/page.tsx:19-27 | error cleared, loading set (button disabled); path and body chosen from the form |
| AuthPage.AuthForm.FinishSubmit | app/auth/page.tsx:29-36 | on success the session is stored, then the landing route is taken; on failure the error text is shown and storage and route stay; loading always ends false |
| AuthPage.AuthForm.Submit | app/auth/page.tsx:19-37 | the request satisfies `Api.Builds` for a POST of the JSON body to base ++ path, with no validation: the JSON content type is set, and a token already in storage is sent as a bearer header even to login and signup; after it, loading is false; on success with a window the session is stored and the landing route taken, on success without a window the storage write's error is shown and nothing is stored, on failure the error text is shown |
| AuthPage.FailedSubmitShowsMessage | app/auth/page.tsx:32-33 | a non-ok answer always shows a non-empty error |
| Dashboard.StatsOf | app/dashboard/page.tsx:103-109 | patients = predictions = 1 exactly when a prediction is held, else 0; medications is the drug count; labs is 1 exactly when creatinine is non-null |
| Dashboard.DefaultStats | app/dashboard/page.tsx:43-73 | the initial form shows 0 patients, 0 drugs, 0 predictions and 1 lab |
| Dashboard.AddedDrugs | app/dashboard/page.tsx:493-499 | a blank name changes nothing; otherwise the trimmed name is appended and the rest kept in place |
| Dashboard.AddTwiceKeepsBoth | app/dashboard/page.tsx:497 | duplicates are allowed: adding a name twice lists it twice more |
| Dashboard.Spliced | app/dashboard/page.tsx:519-522 | in range, exactly the element at idx goes, the others keep their order and the length drops by one; out of range nothing changes |
| Dashboard.SplicedMultiset | app/dashboard/page.tsx:519-522 | removal loses exactly that one element |
| Dashboard.RemoveUndoesAdd | app/dashboard/page.tsx:493-522 | removing the entry just added restores the list |
| Dashboard.ToggledShape | app/dashboard/page.tsx:468-471 | after the toggle: no repetitions, the label present exactly when checked, every other label kept |
| Dashboard.Toggled | app/dashboard/page.tsx:468-471 | `new Set(list)` then `add` or `delete` of the label, back to an array; its shape is stated by `Dashboard.ToggledShape` |
| Dashboard.ToggleOnPresent | app/dashboard/page.tsx:468-471 | checking a label already listed changes nothing |
| Dashboard.ToggleOnOff | app/dashboard/page.tsx:468-471 | unchecking after checking equals unchecking |
| Dashboard.DeleteAppended | app/dashboard/page.tsx:470 | deleting a label just appended to the set gives the set before it |
| Dashboard.WithField | app/dashboard/page.tsx:330 | an edit replaces exactly one key of the form; every other key and both lists are kept |
| Dashboard.EditKeepsStats | app/dashboard/page.tsx:428 | only a creatinine edit can change the tiles |
| Dashboard.DrugEditsMoveStats | app/dashboard/page.tsx:103-109 | adding a drug raises the medication tile by one; removing one lowers it by one |
| Dashboard.Take | app/dashboard/page.tsx:604 | `slice(0, n)`: a prefix, of length n or the whole list |
| Dashboard.ShownContributors | app/dashboard/page.tsx:603-604 | the SHAP list shows the first contributors in order: all of them when there are at most ten, exactly ten otherwise, none when absent |
| Dashboard.ShownAdminRecords | app/dashboard/page.tsx:761-772 | access denied exactly for non-admins; otherwise at most the first 25 records, in order |
| Dashboard.KindOf | app/dashboard/page.tsx:308 | the upload kind is `csv` exactly for the CSV method; used by `Dashboard.DashboardPage.ClickUpload` |
| Dashboard.PatientName | app/dashboard/page.tsx:163 | `Patient <age>y/<gender>` |
| Dashboard.ValueText | app/dashboard/page.tsx:163 | a template-literal substitution: `undefined` for a missing key, `null`, `true`/`false`, a string as is, a number through the number formatter |
| Dashboard.HistoryPayloadOf | app/dashboard/page.tsx:158-166 | the name, the form and the prediction as they are, and the recommendations joined with `"; "` |
| Dashboard.ClinicalRecommendationsText | app/dashboard/page.tsx:166 | missing or empty recommendations give `""`; otherwise the length is the parts plus two per separator |
| Dashboard.DefaultPatientName | app/dashboard/page.tsx:44-45 | the default form is saved as `Patient <65>y/M` |
| Dashboard.DashboardPage.constructor | app/dashboard/page.tsx:33-85 | the initial page state, with the default form |
| Dashboard.DashboardPage.Mount | app/dashboard/page.tsx:87-90 | no truthy token sends the browser to `/auth`; the stored user is read |
| Dashboard.DashboardPage.AutoTab | app/dashboard/page.tsx:93-101 | a held prediction forces the "ADR Predictions" tab; nothing else changes |
| Dashboard.DashboardPage.ClickTab | app/dashboard/page.tsx:261 | a tab click followed by the effect: while a prediction is held the tab stays "ADR Predictions" |
| Dashboard.DashboardPage.ShowDashboard | app/dashboard/page.tsx:211 | only the view changes |
| Dashboard.DashboardPage.SetMedName | app/dashboard/page.tsx:487 | only the drug-name input changes |
| Dashboard.DashboardPage.SetUploadMethod | app/dashboard/page.tsx:280-292 | only the upload method changes |
| Dashboard.DashboardPage.SetUploadFile | app/dashboard/page.tsx:303 | only the chosen file changes |
| Dashboard.DashboardPage.AddDrug | app/dashboard/page.tsx:493-499 | a blank name changes nothing at all; otherwise the drug list becomes `AddedDrugs(...)` and the input is cleared |
| Dashboard.DashboardPage.RemoveDrug | app/dashboard/page.tsx:519-522 | only the drug list changes, to `Spliced(...)` |
| Dashboard.DashboardPage.ToggleComorbidity | app/dashboard/page.tsx:468-471 | only the comorbidity list changes, to `Toggled(...)` |
| Dashboard.DashboardPage.EditField | app/dashboard/page.tsx:330-428 | only the form changes, to `WithField(...)` |
| Dashboard.DashboardPage.BeginPrediction | app/dashboard/page.tsx:111-113 | error cleared and the busy flag set; nothing else changes |
| Dashboard.DashboardPage.FinishPrediction | app/dashboard/page.tsx:117-130 | on success the prediction is kept and its tab shown; on failure the error text is kept; busy flag cleared either way |
| Dashboard.DashboardPage.RunPredictionJson | app/dashboard/page.tsx:111-131 | POSTs `{patient_data}`; ends not busy, with the prediction on its tab or the error text |
| Dashboard.DashboardPage.ClickUpload | app/dashboard/page.tsx:306-309 | a disabled button (predicting, or no file) does nothing; otherwise the request satisfies `Api.Builds` for a form POST of the chosen file to `upload?kind=csv` exactly for the CSV method (else `json`), and the whole new page state is that after `UploadAndPredict`: the prediction on its tab on success, the error text on failure, not busy, nothing else changed |
| Dashboard.DashboardPage.UploadAndPredict | app/dashboard/page.tsx:133-156 | with no file nothing changes and nothing is sent; otherwise POSTs the file as form data to `upload?kind=...` and settles like the JSON action |
| Dashboard.DashboardPage.SaveToHistory | app/dashboard/page.tsx:158-170 | nothing is sent exactly when there is no prediction; otherwise POSTs the history payload |
| Dashboard.DashboardPage.OpenHistory | app/dashboard/page.tsx:172-175 | the history view, and the rows replace the list on success |
| Dashboard.DashboardPage.OpenAdmin | app/dashboard/page.tsx:177-180 | the admin view, and the records replace the list on success |
| Dashboard.DashboardPage.LoadMetrics | app/dashboard/page.tsx:182-185 | the metrics document is kept on success |
| Dashboard.DashboardPage.LoadFromHistory | app/dashboard/page.tsx:738-743 | the record's form and prediction, the dashboard view and the predictions tab |
| Dashboard.DashboardPage.Logout | app/dashboard/page.tsx:187-190 | the session is cleared, then the route is `/auth`; without a window nothing changes |
| Dashboard.LoggedOutHasNoSession | app/dashboard/page.tsx:187-190 | after logout no truthy token and no user can be read |
| RiskGauge.BandOf | components/RiskGauge.tsx:12-21 | emerald exactly below 0.3, amber exactly on [0.3, 0.7), red exactly from 0.7 up, unclamped |
| RiskGauge.Rank | components/RiskGauge.tsx:12-21 | the bands in increasing risk |
| RiskGauge.BarColor | components/RiskGauge.tsx:12-21 | the bar colour of each band: `#10b981`, `#f59e0b`, `#ef4444` |
| RiskGauge.Gradient | components/RiskGauge.tsx:12-21 | the gradient string computed for each band (lines 14, 17 and 20); the component never renders it, and the card background stays `#ffffff` (line 25) |
| RiskGauge.BandMonotone | components/RiskGauge.tsx:12-21 | a higher score never gets a lower band |
| RiskGauge.ColorsTellBands | components/RiskGauge.tsx:13-19 | the three bar colours differ |
| RiskGauge.GaugeValue | components/RiskGauge.tsx:8 | the dial shows the score times 100 |
| RiskGauge.BandFromGauge | components/RiskGauge.tsx:8-18 | the band read from the dial value: below 30 emerald, from 70 red |
| RiskGauge.NoClamping | components/RiskGauge.tsx:8-20 | a score above 1 is red and the dial value exceeds the axis end |
| RiskGauge.StepsTileAxis | components/RiskGauge.tsx:61-82 | the three steps cover `[0, 100]` end to end, each starting where the previous one stops |
| RiskGauge.StepBoundariesAreThresholds | components/RiskGauge.tsx:80-82 | the inner step boundaries are the colour thresholds times 100 |
| RiskGauge.StepOf | components/RiskGauge.tsx:79-83 | a value on the axis falls in a step that contains it |
| RiskGauge.BandMatchesStep | components/RiskGauge.tsx:12-21 | for a score in [0, 1], the bar's band is the band of the step under the needle |
| RiskGauge.ThresholdInRedStep | components/RiskGauge.tsx:87 | the threshold line at 90 lies in the red step |

## Left out

- File reading and writing, console logging and `process.exit` in both scripts. The scripts are functions from the file contents to the output record.
- The `generated_at` timestamp of `drugs.json`: it is not deterministic.
- MetricsJson.EntryOf: row objects are maps, so a header named `__proto__` becomes a key like any other. In the script, `entry['__proto__'] = value` goes through the prototype setter and creates no own key, so `MetricsJson.EntryKeys` and `MetricsJson.RowShape` do not hold for that header.
- Key order in the JSON objects. Entries are maps, so order and the `{ ...item, Group }` spread placement are not represented.
- `parseFloat` is a parameter, so its acceptance of prefixes such as `"12abc"` and its results `Infinity` and `-0` are not modelled.
- `JSON.stringify` and `JSON.parse` are parameters. A parsed `AuthResponse` or `PredictionResponse` is assumed to have the declared shape.
- DrugsJson.GenerateDrugsJson: sorting compares characters as code points. JavaScript compares UTF-16 code units, so the order differs only for strings containing characters outside the Basic Multilingual Plane.
- The network: `fetch` is the transport parameter. Overlapping requests, the order in which independent promises settle, and React effect scheduling are not modelled. Each handler is one step, split at its `await`.
- The `setTimeout` of the predict actions, which sets the tab after 100 ms, and the scrolling. The tab switch is modelled as done when the action settles. The auto-tab effect forces the same tab anyway.
- Header value normalisation by `Headers` (trimming of surrounding HTTP white space) and its name validation. Only the lower-casing of names and the joining of repeated names are modelled.
- Saving to history when the request fails: the rejection is unhandled and changes no page state. The `alert` is left out.
- Risk scores are exact reals. Double rounding at 0.3 and 0.7, `toFixed` and the percentage formatting are left out.
- `test_frontend_browser.js`, `app/landing/page.tsx` and `app/layout.tsx`, JSX rendering, Plotly options other than the axis, steps and threshold, `next/image` and router internals. Navigation is recorded as the target path only.
- Patient data loaded from a history record is assumed to carry both lists. A missing list is treated as empty, as every reader but the remove button does with `|| []`.
- Dashboard.DashboardPage.OpenAdmin: the panel button is only shown to admins. The handler is modelled without that guard, and `Dashboard.ShownAdminRecords` states the admin check.
- The user menu text (`user?.username || "User"`, role upper-casing) is presentational.
