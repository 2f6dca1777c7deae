# A verified model of the LeetCode clone's problem, run and statistics logic

This project models in Dafny the core of a small LeetCode-style web application
(an Express back end and a React front end). It covers:

- the problem controller (`createProblem`, `updateProblem`, `deleteProblem`). It
  checks every reference solution against the test cases on a Judge0 code-execution
  service before storing anything;
- the run-code handler `executeCode`;
- the user statistics handlers (profile projection, difficulty pie, topic counts,
  activity heat map);
- the problem page, the edit-problem modal and the two problem schemas (the shared
  zod schema and the one inside the create form);
- the problem table (search, filters, pages of five), the playlist page and the
  two profile pages;
- the problem store and the success rate of the submission store.

Each source file is one module. Shared helpers live in `Wrappers` (an `Option`),
`Text` (ASCII `trim`, case mapping, `includes`, `split`/`join`), `Seqs` (filter,
slice, flatten, dedup) and `Tally`. `Tally` is a JavaScript object used as a
counter: an insertion-ordered list of `(key, count)` pairs. `Judge0` holds the
execution service's data types. Its three calls are passed to the model as
function values.

Code that changes state step by step is modelled as methods with loops and
invariants, proved against specification functions:

- the result scan of the language loop;
- the verdict map of `executeCode`;
- the three counting loops of the statistics handlers;
- the tag set of the problem table;
- the streak scan of the profile page.

Objects whose fields are updated in place are classes: the table's paging state,
the create form's loading flag, the edit modal's example and test-case rows, and
the problem store.

## Model

| member | source | states |
|---|---|---|
| ProblemsController.BuildSubmissions | Backend/src/controllers/problems.controller.js:25-30 | one submission per test case, in order, carrying the solution, the language id, the input as stdin and the output as expected output |
| ProblemsController.FirstRejected | Backend/src/controllers/problems.controller.js:54-66 | `None` exactly when every status id is 3; otherwise the lowest position whose status is not 3 |
| ProblemsController.ScanResults | Backend/src/controllers/problems.controller.js:206-213 | the loop stops at the first result that is not Accepted, and finishes without stopping exactly when all are Accepted |
| ProblemsController.RunLanguage | Backend/src/controllers/problems.controller.js:176-214 | one language's run: unsupported without a language id, thrown when a call fails or test cases are missing, else passed or the first failing position |
| ProblemsController.FirstStop | Backend/src/controllers/problems.controller.js:176-214 | the loop over the languages in entry order, stopping at the first one that does not pass |
| ProblemsController.CreateProblem | Backend/src/controllers/problems.controller.js:3-96 | non-admins get 403; a missing solution map gives 401 and an empty one no answer. Otherwise only the first language is run: if it passes, the problem is stored under a fresh id with 201; if not, 400 (unsupported language or failing test case) or 401 (a thrown call), with nothing stored. The store changes only on a 201 |
| ProblemsController.UpdateProblem | Backend/src/controllers/problems.controller.js:161-242 | non-admins get 403 and an unknown id 404, before any language runs. The row is overwritten with 200 exactly when every language, in entry order, passes (a missing map counts as empty). Otherwise the first language that stops gives 400 or 500, and nothing changes |
| ProblemsController.FirstStopFacts | Backend/src/controllers/problems.controller.js:176-214 | the language loop's verdict is "all passed" exactly when every language passes; otherwise it names the first language that did not pass, all earlier ones having passed |
| ProblemsController.RunLanguageVerdict | Backend/src/controllers/problems.controller.js:206-213 | once the service answers, a language passes exactly when every result is Accepted; a failing one is reported at the lowest 1-based failing position |
| ProblemsController.DeleteProblem | Backend/src/controllers/problems.controller.js:244-274 | an unknown id gives 404 and no change; otherwise 200, that id gone, every other row kept |
| Judge0.Tokens | Backend/src/controllers/problems.controller.js:43 | one token per receipt, in order, read from the receipt's `token` |
| ExecuteCode.RunSubmissions | Backend/src/controllers/executeCode.controller.js:25-29 | one submission per stdin entry, in order, with the same code and language id and no expected output |
| ExecuteCode.ValidRequest | Backend/src/controllers/executeCode.controller.js:10-15 | the guard: stdin a non-empty array and expected outputs an array of the same length |
| ExecuteCode.Passes | Backend/src/controllers/executeCode.controller.js:41-44 | a test passes when the trimmed stdout equals the trimmed expected output, two undefined values being equal |
| ExecuteCode.Report | Backend/src/controllers/executeCode.controller.js:40-56 | test number i+1; passed exactly when trimmed stdout equals the trimmed expected output (the status is never consulted); stdout and expected output trimmed and the status description copied; stderr and compile output copied, and null exactly when missing or empty; memory "m KB" only for a non-zero memory; time "t s" only for a non-empty time |
| ExecuteCode.JudgeResults | Backend/src/controllers/executeCode.controller.js:39-60 | one report per result, in order; `allPassed` is false exactly when some test did not pass |
| ExecuteCode.TokensAsWritten | Backend/src/controllers/executeCode.controller.js:33 | the tokens as the code reads them: one per receipt, all undefined |
| ExecuteCode.ExecuteAsWritten | Backend/src/controllers/executeCode.controller.js:4-74 | the handler as written: 400 exactly for an invalid request, never a 500, and a 200 that never carries reports |
| ExecuteCode.Execute | Backend/src/controllers/executeCode.controller.js:4-74 | 400 exactly when stdin is not a non-empty array or expected outputs are not an array of the same length. Otherwise 500 exactly when the submit or the poll fails, and else the reports and the overall flag of the polled results |
| ExecuteCode.AsWrittenNeverReports | Backend/src/controllers/executeCode.controller.js:43-44 | as written, a valid request whose poll returns results is never answered |
| ExecuteCode.AsWrittenLosesTokens | Backend/src/controllers/executeCode.controller.js:33 | as written, no token reaches the poll |
| ExecuteCode.AsWrittenSendsNoReports | Backend/src/controllers/executeCode.controller.js:63-71 | as written, the 200 never carries the reports, and a failed call is swallowed without an answer |
| UserStats.ProfileEntries | Backend/src/controllers/user.controllers.js:34-38 | one entry per solved row, in order, with id and title copied and `difficuilty` renamed to `difficulty` |
| UserStats.CountDifficulties | Backend/src/controllers/user.controllers.js:91-98 | each counter is the number of rows of its difficulty, and the three add up to the number of rows |
| UserStats.SolvedProblemsStats | Backend/src/controllers/user.controllers.js:100-106 | exactly three slices, Easy, Medium and Hard in that order, with those counts, summing to the number of rows |
| UserStats.CountTags | Backend/src/controllers/user.controllers.js:131-133 | the inner loop adds 1 per tag of one problem to the running tally |
| UserStats.TopicCounts | Backend/src/controllers/user.controllers.js:129-134 | the counts are the tally of every tag occurrence of every solved problem |
| UserStats.TopicChartFacts | Backend/src/controllers/user.controllers.js:136-139 | one entry per distinct tag, in order of first occurrence; each value is the tag's number of occurrences, at least 1; the values sum to the number of tag occurrences |
| UserStats.DailyCounts | Backend/src/controllers/user.controllers.js:165-170 | the daily counts are the tally of each row's count under its date key |
| UserStats.HeatmapFacts | Backend/src/controllers/user.controllers.js:165-175 | one entry per distinct date; a date's count is the sum of its rows' counts; the counts sum to the total of all rows; positive rows give positive days |
| UserStats.SolvedProblemsActivity | Backend/src/controllers/user.controllers.js:148-176 | a missing or empty user id gives 401 and nothing else; otherwise the heat map of the rows |
| ProblemPage.SnippetFor | Frontend/src/page/ProblemPage.jsx:54 | the language's snippet when the problem has one, otherwise "" |
| ProblemPage.TestcasesView | Frontend/src/page/ProblemPage.jsx:46 | input and output copied from the problem's test cases, in order; none when the problem has none |
| ProblemPage.OnProblemLoaded | Frontend/src/page/ProblemPage.jsx:43-48 | with a problem and a selected language, the code becomes that language's snippet and the test cases are shown; otherwise nothing changes |
| ProblemPage.ChangeLanguage | Frontend/src/page/ProblemPage.jsx:51-55 | the selected language becomes the new one and the code its snippet or "" |
| ProblemPage.RunRequestFor | Frontend/src/page/ProblemPage.jsx:57-67 | stdin and expected outputs both come from the problem's test cases: equal length, position i from test case i. Missing test cases throw and send nothing |
| ProblemPage.RunClick | Frontend/src/page/ProblemPage.jsx:211-216 | no request while a run is in progress |
| ProblemPage.RunRequestMeetsGuard | Frontend/src/page/ProblemPage.jsx:61-62 | the page's request passes the handler's guard exactly when the problem has at least one test case |
| EditProblemModal.Row.Empty | Frontend/src/components/EditProblemModal.jsx:214 | a new row has empty input and output |
| EditProblemModal.EnsureArray | Frontend/src/components/EditProblemModal.jsx:27 | an array is kept and anything else becomes [] |
| EditProblemModal.OrDefault | Frontend/src/components/EditProblemModal.jsx:30-35 | `x \|\| d`: a missing or empty value gives the default |
| EditProblemModal.LoadForm | Frontend/src/components/EditProblemModal.jsx:29-37 | tags, examples and test cases are always arrays; text fields default to ""; the difficulty is the problem's when non-empty, else "EASY" |
| EditProblemModal.CodeSources | Frontend/src/components/EditProblemModal.jsx:39-42 | the merged map has every key of either map; a reference solution wins over a snippet with the same key |
| EditProblemModal.EditorText | Frontend/src/components/EditProblemModal.jsx:44-46 | the UPPERCASE entry when non-empty, else the lowercase one when non-empty, else "" |
| EditProblemModal.LoadedTextPrecedence | Frontend/src/components/EditProblemModal.jsx:39-46 | a non-empty reference solution is shown over any snippet; a snippet is shown when no solution has that key; an empty solution hides the snippet with the same key |
| EditProblemModal.TrimAll | Frontend/src/components/EditProblemModal.jsx:55 | each piece trimmed, in order |
| EditProblemModal.ParseTags | Frontend/src/components/EditProblemModal.jsx:55 | a tag is kept exactly when it is a non-empty trimmed comma-separated piece; the tags keep the pieces' order; no tag is empty, contains a comma, or has surrounding whitespace |
| EditProblemModal.ParseShownTags | Frontend/src/components/EditProblemModal.jsx:149 | parsing the displayed `join(", ")` of well-formed tags gives the same tags back |
| EditProblemModal.ReplaceTabs | Frontend/src/components/EditProblemModal.jsx:69 | no tab is left; each tab adds three characters; the newlines are kept; text without tabs is unchanged |
| EditProblemModal.ReplaceTabsAppend | Frontend/src/components/EditProblemModal.jsx:69 | the replacement of a concatenation is the concatenation of the replacements |
| EditProblemModal.ReplaceTabsChar | Frontend/src/components/EditProblemModal.jsx:69 | a tab becomes four spaces and any other character stays |
| EditProblemModal.TrimEndAll | Frontend/src/components/EditProblemModal.jsx:71 | each line with its trailing whitespace removed, in order |
| EditProblemModal.Sanitize | Frontend/src/components/EditProblemModal.jsx:68-72 | the Python sanitiser: tabs replaced, then each line's trailing whitespace removed |
| EditProblemModal.SanitizeFacts | Frontend/src/components/EditProblemModal.jsx:68-72 | the Python sanitiser keeps the number of lines, and no line ends in whitespace |
| EditProblemModal.SanitizeHasNoTab | Frontend/src/components/EditProblemModal.jsx:68-72 | the sanitised code has no tab |
| EditProblemModal.AssembleSnippets | Frontend/src/components/EditProblemModal.jsx:63-81 | a language's key is present exactly when its code is not blank; JavaScript and Java are stored trimmed, Python sanitised; no other key |
| EditProblemModal.AssembledUnique | Frontend/src/components/EditProblemModal.jsx:63-81 | the three editor texts determine the snippet object completely |
| EditProblemModal.Submit | Frontend/src/components/EditProblemModal.jsx:59-90 | nothing is sent without a problem; otherwise, for its id, the form, the snippet object assembled from the three editor texts, and the problem's original reference solutions |
| EditProblemModal.EditInput | Frontend/src/components/EditProblemModal.jsx:176-179 | the row at idx gets the new input, shared with the old list; every other row is unchanged |
| EditProblemModal.EditOutput | Frontend/src/components/EditProblemModal.jsx:189-192 | the row at idx gets the new output; every other row is unchanged |
| EditProblemModal.AddRow | Frontend/src/components/EditProblemModal.jsx:270 | one fresh empty row appended, the rest kept in order |
| Seqs.RemoveIndex | Frontend/src/components/EditProblemModal.jsx:200 | exactly the entry at idx is removed and the rest keep their order |
| ProblemSchema.CaseIssues | Frontend/src/schemas/problemSchema.js:11-18 | no issue exactly when every test case has non-empty input and output |
| ProblemSchema.ExampleKeyIssues | Frontend/src/schemas/problemSchema.js:19-35 | no issue exactly when the language key is present with non-empty input and output |
| ProblemSchema.CodeIssues | Frontend/src/schemas/problemSchema.js:36-45 | no issue exactly when JAVASCRIPT, PYTHON and JAVA are present and non-empty |
| ProblemSchema.HeadIssues | Frontend/src/schemas/problemSchema.js:4-10 | no issue exactly when title has ≥ 3 chars, description ≥ 10, difficulty is EASY, MEDIUM or HARD, there is ≥ 1 tag (empty tags allowed), and constraints are non-empty |
| ProblemSchema.FileSchemaIssues | Frontend/src/schemas/problemSchema.js:3-46 | the shared schema reports no issue exactly when its rules hold, examples being keyed by language |
| ProblemSchema.ListedExampleIssues | Frontend/src/components/CreateProblemForm.jsx:454-462 | no issue exactly when there is at least one example and each has non-empty input and output |
| ProblemSchema.FormSchemaIssues | Frontend/src/components/CreateProblemForm.jsx:441-473 | the form's schema reports no issue exactly when its rules hold, examples being a non-empty list |
| ProblemSchema.SchemasDisagreeOnExamples | Frontend/src/components/CreateProblemForm.jsx:454-462 | no input satisfies both schemas' example rules |
| ProblemSchema.BlankRejected | Frontend/src/components/CreateProblemForm.jsx:441-452 | a definition with empty title, description and constraints and one empty test case fails the form's schema, with an issue on the title and on `testcases.0.input` |
| ProblemSchema.DefaultsRejected | Frontend/src/components/CreateProblemForm.jsx:476-496 | the default values fail the form's schema, with an issue on the title and one on `testcases.0.input` |
| ProblemSchema.DefaultValues | Frontend/src/components/CreateProblemForm.jsx:476-496 | the form's initial values |
| ProblemSchema.CreateProblemForm.OnSubmit | Frontend/src/components/CreateProblemForm.jsx:536-547 | `isLoading` goes up and always comes down; the page goes home only when the post succeeds |
| ProblemSchema.CreateProblemForm.Submit | Frontend/src/components/CreateProblemForm.jsx:505-565 | the form's schema gates the submit: data with issues is never posted |
| ProblemTable.SolvedIds | Frontend/src/components/ProblemTable.jsx:53-56 | exactly the ids of the solved problems; none when the list is not an array |
| ProblemTable.AllTags | Frontend/src/components/ProblemTable.jsx:58-62 | the nested loop over tags yields every tag once, in order of first occurrence |
| ProblemTable.AddTags | Frontend/src/components/ProblemTable.jsx:60 | the inner loop over one problem's tags adds each tag not yet listed, keeping first-occurrence order |
| ProblemTable.AllTagsFacts | Frontend/src/components/ProblemTable.jsx:58-62 | the tag list has no duplicates, holds exactly the tags of some problem, and lists them in the order of their first occurrence |
| Seqs.DedupFirstOccurrenceOrder | Frontend/src/components/ProblemTable.jsx:61 | `Array.from(new Set(s))` lists the elements in the order of their first occurrence in s |
| ProblemTable.BaseProblems | Frontend/src/components/ProblemTable.jsx:65-69 | the unwrapped playlist problems when a playlist with an array is active, otherwise all problems |
| ProblemTable.Keep | Frontend/src/components/ProblemTable.jsx:71-76 | the three filter rules: title contains the search, difficulty matches or is ALL, tag present or ALL |
| ProblemTable.FilteredProblems | Frontend/src/components/ProblemTable.jsx:71-76 | the three filters in a row keep what one filter by all three rules keeps: an ordered selection of the base list, keeping a problem exactly when it matches the search, the difficulty and the tag |
| ProblemTable.TotalPages | Frontend/src/components/ProblemTable.jsx:79 | ceil(n / 5) |
| ProblemTable.Page | Frontend/src/components/ProblemTable.jsx:81-83 | the contiguous slice from (page − 1)·5, at most 5 items, empty past the end |
| ProblemTable.PagesPartition | Frontend/src/components/ProblemTable.jsx:79-83 | pages 1 .. totalPages, concatenated, are the filtered list |
| ProblemTable.PrevEnabled | Frontend/src/components/ProblemTable.jsx:298 | Prev is enabled except on page 1 |
| ProblemTable.NextEnabledAsWritten | Frontend/src/components/ProblemTable.jsx:306 | Next as written is enabled on every page other than `totalPages` |
| ProblemTable.NextAsWrittenPassesLastPage | Frontend/src/components/ProblemTable.jsx:306 | with the `===` guard, Next stays enabled past the last page, onto empty pages, and on page 1 of an empty list |
| ProblemTable.NextLeadsToItems | Frontend/src/components/ProblemTable.jsx:304-310 | with the intended guard, Next always leads to the next non-empty page |
| ProblemTable.TableState.ChoosePlaylist | Frontend/src/components/ProblemTable.jsx:113-116 | choosing a playlist shows it from page 1 |
| ProblemTable.TableState.ClearPlaylist | Frontend/src/components/ProblemTable.jsx:145 | clearing returns to all problems on the same page |
| ProblemTable.TableState.Prev | Frontend/src/components/ProblemTable.jsx:296-302 | one page back, except on page 1; the page never drops below 1 |
| ProblemTable.TableState.Next | Frontend/src/components/ProblemTable.jsx:304-310 | with the intended guard, one page forward only while a later page exists; from any page, including one past the last that an un-reset filter leaves, it never moves beyond the last page |
| MyPlaylists.Toggle | Frontend/src/page/MyPlaylists.jsx:24-26 | toggling the open id closes it; toggling any other id opens that one alone |
| MyPlaylists.ToggleTwice | Frontend/src/page/MyPlaylists.jsx:24-26 | toggling twice restores the open id, or closes everything |
| MyPlaylists.HandleSearch | Frontend/src/page/MyPlaylists.jsx:28-31 | exactly the problems whose lowercased title contains the lowercased term, each with all its copies, in order |
| MyPlaylists.AnyMatchesIffFound | Frontend/src/page/MyPlaylists.jsx:39-41 | `some` finds a match exactly when the search is non-empty |
| MyPlaylists.MyPlaylists | Frontend/src/page/MyPlaylists.jsx:33-35 | exactly the playlists whose owner id equals the user's, in order |
| MyPlaylists.ShowPlaylist | Frontend/src/page/MyPlaylists.jsx:36-42 | a blank term keeps a playlist; another term keeps it when some problem title matches |
| MyPlaylists.FilteredPlaylists | Frontend/src/page/MyPlaylists.jsx:36-42 | a playlist is shown exactly when it is the user's and the term is blank or finds a problem |
| MyPlaylists.FilteredPlaylistsFacts | Frontend/src/page/MyPlaylists.jsx:33-42 | shown ⊆ mine ⊆ all, in order; a blank term shows all of mine; otherwise exactly the user's playlists whose search is non-empty |
| ProfilePage.ColorIndex | Frontend/src/page/ProfilePage.jsx:73-77 | 0 for a missing value or a count of 0; otherwise the number of the thresholds 1, 3, 5 and 8 reached; always below 5 |
| ProfilePage.Fill | Frontend/src/page/ProfilePage.jsx:73-77 | the fill is one of the five colours, the lightest for a missing value or a count of 0 |
| ProfilePage.TotalSubs | Frontend/src/page/ProfilePage.jsx:79 | the sum of the day counts |
| ProfilePage.ActiveDays | Frontend/src/page/ProfilePage.jsx:80 | at most the number of entries, and 0 exactly when no entry has a positive count |
| ProfilePage.FoldCountsReached | Frontend/src/page/ProfilePage.jsx:75-76 | over increasing thresholds, the `reduce` counts the thresholds reached |
| ProfilePage.ColorIndexMonotone | Frontend/src/page/ProfilePage.jsx:73-77 | more submissions never give a lighter colour |
| ProfilePage.ActiveSet | Frontend/src/page/ProfilePage.jsx:81 | exactly the dates with a positive count |
| ProfilePage.ActiveDaysBounds | Frontend/src/page/ProfilePage.jsx:79-80 | the active days are at most the entries and at most the total submissions |
| ProfilePage.MaxStreak | Frontend/src/page/ProfilePage.jsx:83-90 | the scan returns the longest run, with the current run ≤ the maximum ≤ the days scanned at every step |
| ProfilePage.LongestIsLongestRun | Frontend/src/page/ProfilePage.jsx:83-90 | no stretch of consecutive active days is longer than the result, and one stretch is exactly that long |
| ProfilePage.ToggleEdit | Frontend/src/page/ProfilePage.jsx:54-57 | the toggle flips; entering edit mode with a loaded profile copies its name (or "") into the buffer |
| ProfilePage.ToggleTwiceKeepsName | Frontend/src/page/ProfilePage.jsx:54-57 | opening and closing the editor leaves the profile's name in the buffer |
| MyProfilePage.Bucket | Frontend/src/page/MyProfilePage.jsx:29 | a missing or empty difficulty goes to "Unknown"; any other is its own bucket |
| MyProfilePage.PieData | Frontend/src/page/MyProfilePage.jsx:26-37 | the entries of the difficulty counter over the solved list (none when it is missing) |
| MyProfilePage.PieDataStep | Frontend/src/page/MyProfilePage.jsx:28-32 | each solved problem adds exactly 1 to its bucket |
| MyProfilePage.PieDataFacts | Frontend/src/page/MyProfilePage.jsx:26-37 | one slice per distinct bucket, each at least 1, each the number of problems in its bucket, summing to the number of solved problems; a missing list gives no slice |
| MyProfilePage.CellColor | Frontend/src/page/MyProfilePage.jsx:98 | EASY, MEDIUM and HARD (after uppercasing) get their colours; any other name gets "#8884d8" |
| MyProfilePage.ColorIgnoresCase | Frontend/src/page/MyProfilePage.jsx:5-9 | the colour does not depend on the name's case, and "Unknown" gets the default |
| SubmissionStore.AcceptedCount | Frontend/src/store/useSubmissionStore.js:43 | counts the submissions whose status is "Accepted": all of them exactly when all are accepted, none exactly when none are |
| SubmissionStore.Rate | Frontend/src/store/useSubmissionStore.js:44 | 0 for no submissions; otherwise 100·accepted/total rounded half up; always 0..100 |
| SubmissionStore.SuccessRate | Frontend/src/store/useSubmissionStore.js:42-44 | the rate of a problem's submissions: between 0 and 100, and 0 without submissions |
| SubmissionStore.RateExtremes | Frontend/src/store/useSubmissionStore.js:42-44 | 100 when every submission is accepted, 0 when none is |
| SubmissionStore.RateMonotone | Frontend/src/store/useSubmissionStore.js:44 | for a fixed total, more accepted submissions never lower the rate |
| SubmissionStore.RateAfter | Frontend/src/store/useSubmissionStore.js:38-50 | the stored rate is the new rate, or the previous one when the request fails |
| ProblemStore.ReplaceById | Frontend/src/store/useProblemStore.js:49 | same length; each entry with the id becomes the server's problem, every other entry stays in place |
| ProblemStore.ReplaceFacts | Frontend/src/store/useProblemStore.js:49 | replacing twice is replacing once; a list without the id is unchanged; ids are kept when the new problem keeps its id |
| ProblemStore.ProblemStore.GetAllProblems | Frontend/src/store/useProblemStore.js:12-24 | the flag goes up and always comes down; the list is replaced only on success |
| ProblemStore.ProblemStore.GetProblemById | Frontend/src/store/useProblemStore.js:26-41 | the flag goes up and always comes down; the open problem is replaced only on success |
| ProblemStore.ProblemStore.UpdateProblem | Frontend/src/store/useProblemStore.js:43-59 | on success, the replaced list, the new open problem and success true; on failure, nothing changed and success false; no flag touched |
| ProblemStore.ProblemStore.GetSolvedProblemByUser | Frontend/src/store/useProblemStore.js:61-70 | the solved list is replaced only on success |

## Left out

- The Judge0 library is not part of this model. `getJudge0LanguageId`,
  `submitBatch` and `pollBatchResults` are function values, and a thrown call is
  `None`. Polling, back-off and the language table are not modelled.
- Prisma database calls are an infallible map from id to stored problem. A
  failing query is not modelled.
- `updateProblem` reads `difficulty` from the body while the column is
  `difficuilty`. The model stores the body as a whole, so this field-level
  mismatch is not represented.
- `Object.entries` lists integer-like keys first. The model keeps insertion
  order for every key, which matches only for non-numeric keys (languages,
  difficulties, tags, ISO dates).
- `trim`, `toLowerCase`, `toUpperCase` and `\s` are modelled for ASCII only.
  Unicode whitespace and case mapping are not captured.
- `Math.round` over a float is modelled as exact rational rounding half up.
  Floating-point error is not captured.
- Dates and time zones are opaque. The heat-map key of a timestamp is the
  parameter `dateKey`, and the streak scan receives the day keys from the start
  date to today.
- Tags that are not an array in `getSolvedProblemsByTopic` (a thrown 500) are
  not modelled. Tag lists are always arrays here.
- In the app, `MyProfilePage.jsx` reads `profile.solvedProblems`, but the profile
  store holds only the user object. `PieDataFacts` covers the missing-list case,
  where the chart is empty.
- React rendering, effects scheduling, toasts, navigation, console output and
  animation are not modelled. A handler's state update is its function's result.
- `EditProblemModal.EditInput`, `EditProblemModal.EditOutput`: the modal copies
  the array and then mutates a shared row object. The model reflects the shared
  rows as a class, so the old list sees the edit too. React's re-render is not
  modelled.
- `ProblemsController.CreateProblem`: the row is created under a caller-chosen
  fresh id. The id generator is not part of this model.
- The other problem-controller handlers (`getAllProblems`, `getProblemById`,
  `getAllProblemsSolvedByUser`) only read the database and are not modelled.

- TopicCounts (`UserStats.TopicCounts`): `topicCount` is a plain object, so a
  tag named like an `Object.prototype` member is not counted as the model counts
  it. "constructor" or "toString" reads the inherited function and stores a
  string; "__proto__" never appears in `Object.entries`. The model is a counter
  with no inherited keys.
- TopicChartFacts (`UserStats.TopicChartFacts`): its "value equals the number of
  occurrences, at least 1" holds for every tag except those prototype-named ones.
- PieDataFacts (`MyProfilePage.PieDataFacts`): the same holds for a difficulty
  named like an `Object.prototype` member in `difficultyCounts`.
- HeadIssues (`ProblemSchema.HeadIssues`): zod's `.min(3)` and `.min(10)` count
  UTF-16 code units, while the model counts characters. A title of two emoji
  (four code units) passes the source's rule but not the model's.
- FileSchemaIssues (`ProblemSchema.FileSchemaIssues`): inherits that length gap of
  `HeadIssues`.
- FormSchemaIssues (`ProblemSchema.FormSchemaIssues`): inherits that length gap of
  `HeadIssues`.

## Findings

| source | as written | input that shows it | evidently intended | confidence | as-written member | corrected member |
|---|---|---|---|---|---|---|
| Backend/src/controllers/executeCode.controller.js:43-44 | `passed` is assigned and read without a declaration, which throws a ReferenceError in an ES module | any valid request whose poll returns one or more results | a per-test `passed` flag declared in the callback | not executed | ExecuteCode.AsWrittenNeverReports | ExecuteCode.JudgeResults |
| Backend/src/controllers/executeCode.controller.js:33 | tokens are read from `res.tokens`, which a receipt does not have | any non-empty receipt list | read `res.token` | not executed | ExecuteCode.AsWrittenLosesTokens | ExecuteCode.Execute |
| Backend/src/controllers/executeCode.controller.js:63-65 | the 200 answer carries only a message; `detailedResults` and `allPassed` are computed and dropped | a valid request whose poll returns [] | send the reports and the overall flag | not executed | ExecuteCode.AsWrittenSendsNoReports | ExecuteCode.Execute |
| Backend/src/controllers/executeCode.controller.js:69-71 | the empty `catch` sends no answer, so a failed call leaves the request hanging | a valid request whose submit fails | answer with an error status | not executed | ExecuteCode.AsWrittenSendsNoReports | ExecuteCode.Execute |
| Frontend/src/components/ProblemTable.jsx:306 | Next is disabled only when `currentPage === totalPages` | an empty filtered list (page 1 of 0), or any page past the last one | disable Next unless a later page exists | not executed | ProblemTable.NextAsWrittenPassesLastPage | ProblemTable.NextLeadsToItems |
