# Mood feedback app: a Dafny model

Attendees of an event pick one of five moods on a web form (optionally with
a name and an email) and a dashboard shows what was submitted. This project
models, in Dafny, the logic of that app:

- the `mood_submissions` table, with its insert shape and column defaults;
- the storage class: insert, "most recent 100, newest first" listing, and
  the per-category statistics;
- the HTTP layer's logic: validating a POST body against the insert schema,
  the 400/500 error mapping, and the CSV export;
- the dashboard's derived views: the trend chart's eight 15-minute buckets,
  the 8x8 intensity heatmap and the ten-item live feed;
- the submission form's state, its submit guards and its reset after success.

Timestamps are integer milliseconds. Moods are strings, because the column
takes any text: the five known moods (`super-happy`, `happy`, `neutral`,
`anxious`, `sad`) exist only in the client and in the reductions, so every
reduction is proved for unknown moods too. The database is a `seq` field of
the `DatabaseStorage` class. The generated UUID and the clock come in as
parameters (`uuid`, `now`), and so does `Date.prototype.toISOString` (`iso`).

Files, one module each: `wrappers.dfy` (Option, Result), `moods.dfy` (the
five identifiers and a five-counter tally), `schema.dfy`, `storage.dfy`,
`routes.dfy`, `trend.dfy`, `heatmap.dfy`, `feed.dfy`, `jsobjects.dfy`
(JavaScript property lookup on an object literal) and `form.dfy`.

Points where the code does less than its own comments or names suggest; the
model follows the code:

- The comment on the `mood` column (shared/schema.ts:8) lists five moods, but
  the column is plain `text` and the insert schema takes any string
  (`Routes.AnyMoodParses`).
- `getMoodStats` (server/storage.ts:67-95) sets `total` to the row count and
  counts only the five listed moods, so the categories can add up to less than
  `total` (`Storage.StatsCategoriesBound`).
- The export route (server/routes.ts:44-57) reads `getMoodSubmissions`, so the
  file holds the 100 most recent rows, not the whole table (`Routes.GetExport`).
- The CSV template (server/routes.ts:54) escapes nothing. Rows read back only
  when no field contains a comma (`Routes.CsvRowRoundTrip`), and lines split
  correctly only when no field contains a line feed (`Routes.ExportLines`).
- The CSV follows RFC 4180 only loosely. Lines end in LF, not CRLF (against
  rule 1 of section 2). Quotes inside fields are not doubled (against rule 7).

## Model

| member | source | states |
|---|---|---|
| `Schema.NewRow` | shared/schema.ts:6-18 | the stored row carries the insert's mood, name and email; `id` and `timestamp` are always assigned by the store; an omitted `consent` becomes true |
| `Storage.StatsOf` | server/storage.ts:67-95 | `total` is the number of rows, and no category counter exceeds it |
| `Storage.CountMood` | server/storage.ts:77-95 | counts the rows whose mood is exactly the given string: never more than the row count, and zero iff no row has that mood |
| `Storage.CategoriesCountKnown` | server/storage.ts:77-95 | the five category counters add up to the number of rows whose mood is one of the five strings |
| `Storage.CountKnownAll` | server/storage.ts:78-94 | every row has a known mood iff the known-mood count equals the row count |
| `Storage.StatsCategoriesBound` | server/storage.ts:67-95 | category sum <= `total`, with equality iff every stored mood is one of the five strings |
| `Storage.StatsOfAppend` | server/storage.ts:74-95 | one more row raises `total` by one and exactly the counter its mood names; a row with an unknown mood raises no counter |
| `Storage.StatsExample` | server/storage.ts:67-95 | happy, sad, happy gives happy 2, sad 1, every other counter 0, total 3 |
| `Storage.InsertNewestFirst` | server/storage.ts:55 | inserting into a newest-first sequence keeps it newest first and adds exactly that element |
| `Storage.SortNewestFirst` | server/storage.ts:55 | the result is ordered by non-increasing timestamp and is a permutation of the rows |
| `Storage.NewestFirstCut` | server/storage.ts:55-56 | cutting a newest-first sequence keeps it newest first; nothing dropped is newer than anything kept |
| `Storage.Recent` | server/storage.ts:51-57 | at most 100 rows (exactly `min(n, 100)`), all from the store, newest first; no omitted row is newer than a returned one |
| `Storage.DatabaseStorage.constructor` | server/storage.ts:101 | a new store is empty and satisfies the unique-id invariant |
| `Storage.DatabaseStorage.CreateMoodSubmission` | server/storage.ts:43-49 | appends exactly the row built from the insert and returns it; earlier rows unchanged; an unavailable database or an id already present (a primary-key violation) fails and stores nothing, and the error says which; ids stay unique |
| `Storage.DatabaseStorage.GetMoodSubmissions` | server/storage.ts:51-57 | the listing is `Recent` of the whole table |
| `Storage.DatabaseStorage.GetMoodStats` | server/storage.ts:59-98 | the loop's result: each counter is the number of rows with exactly that mood, `total` is the row count; an empty table gives all six fields 0 |
| `Routes.RequiredString` | shared/schema.ts:8 | `mood` is accepted iff it is present and a JSON string |
| `Routes.NullableString` | shared/schema.ts:9-10 | `name`/`email` are accepted iff absent, null or a string |
| `Routes.OptionalBool` | shared/schema.ts:12 | `consent` is accepted iff absent or a boolean (not null) |
| `Routes.ParseInsert` | server/routes.ts:11 | the body parses iff it is an object whose four fields pass their checks; on success the mood is the body's string, a string name or email is kept verbatim, an absent or null one becomes absent, and consent is the body's boolean when present and absent otherwise; a failure names at least one field, and for an object body it names exactly the fields whose check fails, in column order |
| `Routes.AnyMoodParses` | shared/schema.ts:8 | a body with any mood string and nothing else parses, with the other fields absent |
| `Routes.PostMood` | server/routes.ts:9-21 | a schema failure gives 400 and stores nothing; a store failure (database unavailable or duplicate id) gives 500 and stores nothing; otherwise the new row is stored and returned; 400 iff the parse failed |
| `Routes.TextOrEmpty` | server/routes.ts:51-52 | a null name or email renders as the empty string; a present value renders verbatim |
| `Routes.CsvRow` | server/routes.ts:50-54 | a row is its six fields joined by commas: id unquoted, then quoted mood, name, email and timestamp, then `true`/`false` unquoted |
| `Routes.Join` | server/routes.ts:55 | the joined text is as long as all parts together plus one separator between each neighbouring pair |
| `Routes.CsvRows` | server/routes.ts:50-54 | one row per submission, in input order |
| `Routes.SplitJoin` | server/routes.ts:55 | splitting a `join` gives back the parts when no part holds the separator |
| `Routes.ExportCsv` | server/routes.ts:49-57 | the document starts with `ID,Mood,Name,Email,Timestamp,Consent\n`, and is exactly that header iff there are no submissions |
| `Routes.ExportLines` | server/routes.ts:49-57 | for at least one submission (`requires \|subs\| > 0`) and no field holding a line feed, the lines are the header and then one row per submission, in order, with no trailing line |
| `Routes.ExportLinesEmpty` | server/routes.ts:49-57 | with no submissions the document is the header followed by a line feed, so it splits into the header and one empty line |
| `Routes.CsvRowRoundTrip` | server/routes.ts:50-54 | for fields without commas a row reads back as id, mood, name and email (null as empty), timestamp text and consent |
| `Routes.GetExport` | server/routes.ts:44-57 | the export covers the listing (the 100 most recent rows), not the whole table |
| `TrendChart.IntervalIndex` | client/src/components/charts/trend-chart.tsx:70 | the index is the whole number of 15-minute widths in the elapsed time, rounded down: `r*900000 <= now - t < (r+1)*900000` |
| `TrendChart.IntervalIndexIff` | client/src/components/charts/trend-chart.tsx:70 | the interval index is `k` iff the elapsed time lies in `[k*900000, (k+1)*900000)` (floor division, negative elapsed times included) |
| `TrendChart.BucketOf` | client/src/components/charts/trend-chart.tsx:70-73 | a counted submission's bucket is one of the 8 |
| `TrendChart.BucketWindow` | client/src/components/charts/trend-chart.tsx:50-73 | bucket `j` holds exactly the times in the 15-minute window ending at its label time: contiguous, non-overlapping buckets with the newest last |
| `TrendChart.HorizonIff` | client/src/components/charts/trend-chart.tsx:72 | a submission is placed iff it is less than 2 hours old and not in the future |
| `TrendChart.BoundaryGoesToEarlierBucket` | client/src/components/charts/trend-chart.tsx:70-73 | an elapsed time of exactly `k` widths lands in bucket `7-k` |
| `TrendChart.TwentyMinutesAgo` | client/src/components/charts/trend-chart.tsx:70-73 | a submission 20 minutes old has index 1 and lands in the second-to-last bucket |
| `TrendChart.TallyOf` | client/src/components/charts/trend-chart.tsx:68-79 | a bucket's counters together never exceed the number of submissions given |
| `TrendChart.CountInBucketAppend` | client/src/components/charts/trend-chart.tsx:68-79 | one more submission raises a bucket's per-mood count by one iff it falls in that bucket with that mood |
| `TrendChart.TallyCounts` | client/src/components/charts/trend-chart.tsx:68-79 | each counter of bucket `j` equals the number of submissions of exactly that mood in that window |
| `TrendChart.CountCounted` | client/src/components/charts/trend-chart.tsx:72-75 | never more submissions are counted than were given |
| `TrendChart.BucketsTotalAppend` | client/src/components/charts/trend-chart.tsx:68-79 | one submission adds at most one to the counters of all buckets together, and exactly one iff its mood is known and it is inside the horizon |
| `TrendChart.BucketsTotalEmpty` | client/src/components/charts/trend-chart.tsx:50-65 | with no submissions every bucket's counters are 0 |
| `TrendChart.TrendTotal` | client/src/components/charts/trend-chart.tsx:68-79 | all counters of all 8 buckets add up to the number of submissions with a known mood inside the horizon |
| `TrendChart.UnknownMoodNotCounted` | client/src/components/charts/trend-chart.tsx:75 | a submission with a mood outside the five keys changes no bucket |
| `TrendChart.Series` | client/src/components/charts/trend-chart.tsx:86-100 | a series holds one counter per bucket, in bucket order |
| `TrendChart.InitBuckets` | client/src/components/charts/trend-chart.tsx:49-65 | the label loop: 8 reference times, oldest first, each 15 minutes after the previous and the last at `now`, in a new array of 8 zeroed tallies |
| `TrendChart.TallyStep` | client/src/components/charts/trend-chart.tsx:68-79 | one more submission changes only the tally of the bucket it falls in, by counting its mood there |
| `TrendChart.CountSubmissions` | client/src/components/charts/trend-chart.tsx:67-79 | the counting loop: starting from zeroed buckets, bucket `j` ends up holding `TallyOf(submissions, now, j)` |
| `TrendChart.ProcessDataForChart` | client/src/components/charts/trend-chart.tsx:43-107 | 8 labels, oldest first; exactly three series, super-happy, happy and neutral, each holding the 8 per-bucket counts in bucket order; anxious and sad are counted but not emitted; empty input gives all zeros |
| `Moods.MoodTally.Get` | client/src/components/charts/trend-chart.tsx:58-75 | a bucket keeps a counter for a mood iff the mood is one of the five keys; a known mood reads exactly its own counter |
| `Moods.MoodTally.Bump` | client/src/components/charts/trend-chart.tsx:75-76 | counting a mood raises its counter by one and no other counter; an unknown mood changes nothing |
| `Moods.KnownMoodsAreTheFive` | shared/schema.ts:8 | a mood is known iff it is one of the five listed identifiers |
| `JsObjects.Lookup` | client/src/components/mood-heatmap.tsx:39 | a property read finds an own key iff the literal defines it, and then yields that key's value; it finds an inherited member iff the key is not defined and is one of Object.prototype's names, and the inherited member is the one the key names |
| `MoodHeatmap.MoodIntensity` | client/src/components/mood-heatmap.tsx:7-39 | the intended lookup: super-happy 5, happy 4, anxious 3, neutral 2, sad 1, any other mood 2; always in 1..5, a valid index of the 6 colours (the code as written differs for Object.prototype names, see `CellAsWritten`) |
| `MoodHeatmap.CellAsWritten` | client/src/components/mood-heatmap.tsx:39 | the code as written: a cell holds a non-number exactly when the mood names an Object.prototype member; otherwise it holds a level in 1..5 |
| `MoodHeatmap.PrototypeMoodEscapesColorRange` | client/src/components/mood-heatmap.tsx:39 | as written, the mood "toString" puts a non-number into the grid (see Findings) |
| `MoodHeatmap.CellAsWrittenAgrees` | client/src/components/mood-heatmap.tsx:39 | for every mood that is not an Object.prototype member, the code as written and `MoodIntensity` agree |
| `MoodHeatmap.HeatmapOf` | client/src/components/mood-heatmap.tsx:26-44 | exactly 64 cells, each a valid colour index |
| `MoodHeatmap.HeatmapIgnoresTail` | client/src/components/mood-heatmap.tsx:36 | submissions after the 64th do not change the grid |
| `MoodHeatmap.GenerateHeatmapData` | client/src/components/mood-heatmap.tsx:26-44 | 64 cells; cell `i` is submission `i`'s intended intensity (`MoodIntensity`) for `i < min(n, 64)` and 2 for `i >= n` |
| `LiveMoodFeed.MoodEmoji` | client/src/components/live-mood-feed.tsx:8-38 | the intended lookup: each known mood shows its own emoji; any other mood shows the neutral face; the neutral face appears iff the mood is neutral or unknown (the code as written differs for Object.prototype names, see `EmojiAsWritten`) |
| `LiveMoodFeed.EmojiAsWritten` | client/src/components/live-mood-feed.tsx:38 | the code as written: an item shows a non-emoji exactly when the mood names an Object.prototype member; otherwise it shows a non-empty emoji |
| `LiveMoodFeed.EmojisDistinct` | client/src/components/live-mood-feed.tsx:8-14 | the five known moods show five different emojis |
| `LiveMoodFeed.PrototypeMoodSkipsFallback` | client/src/components/live-mood-feed.tsx:38 | as written, the mood "constructor" shows a function instead of the fallback, and "__proto__" reaches an inherited member too (see Findings) |
| `LiveMoodFeed.EmojiAsWrittenAgrees` | client/src/components/live-mood-feed.tsx:38 | for every mood that is not an Object.prototype member, the code as written and `MoodEmoji` agree |
| `LiveMoodFeed.Feed` | client/src/components/live-mood-feed.tsx:17-38 | empty input selects the empty state; otherwise `min(10, n)` items, the input's prefix in order, each with its mood's intended emoji (`MoodEmoji`) |
| `SubmissionForm.OptionsAreTheFiveMoods` | client/src/components/mood-submission-form.tsx:10-46 | exactly five options, ids super-happy, happy, neutral, anxious, sad in that order |
| `SubmissionForm.EmptyAsAbsent` | client/src/components/mood-submission-form.tsx:116-117 | an empty name or email is sent as absent; a non-empty one is sent verbatim |
| `SubmissionForm.PayloadAccepted` | client/src/components/mood-submission-form.tsx:114-119 | every payload the form sends passes the server's insert schema, with its mood, name, email and consent |
| `SubmissionForm.MoodSubmissionFormState.constructor` | client/src/components/mood-submission-form.tsx:49-53 | the form starts with no mood, empty name and email, consent false, no success message |
| `SubmissionForm.MoodSubmissionFormState.SelectMood` | client/src/components/mood-submission-form.tsx:139 | clicking an option selects that option's id and changes nothing else |
| `SubmissionForm.MoodSubmissionFormState.SetName` | client/src/components/mood-submission-form.tsx:159 | typing into the name field sets the name to the typed text |
| `SubmissionForm.MoodSubmissionFormState.SetEmail` | client/src/components/mood-submission-form.tsx:174 | typing into the email field sets the email to the typed text |
| `SubmissionForm.MoodSubmissionFormState.SetConsent` | client/src/components/mood-submission-form.tsx:187 | ticking the box sets consent to the box's state |
| `SubmissionForm.MoodSubmissionFormState.HandleSubmit` | client/src/components/mood-submission-form.tsx:95-120 | no mood selected gives the "select a mood" error whatever the consent; otherwise no consent gives the "consent required" error; otherwise exactly one request with the selected mood, consent true, name and email sent only when non-empty; a sent mood is always one of the five |
| `SubmissionForm.MoodSubmissionFormState.OnSubmitSuccess` | client/src/components/mood-submission-form.tsx:64 | a successful request shows the success message |
| `SubmissionForm.MoodSubmissionFormState.ResetInputs` | client/src/components/mood-submission-form.tsx:69-74 | mood, name and email return to `""` and consent to false |
| `SubmissionForm.MoodSubmissionFormState.HideSuccess` | client/src/components/mood-submission-form.tsx:77-79 | the later timer hides the success message |
| `SubmissionForm.SubmitCycle` | client/src/components/mood-submission-form.tsx:63-120 | the outcome is decided by the form as it was before the press: "select a mood" iff no mood was selected, "consent required" iff a mood but no consent, otherwise one request carrying the old mood, name and email (empty as absent) and consent true; after a request that succeeds and both timers, the form is in its initial state; a refused submit or a failed request changes no input |

## Left out

- Rendering: all markup, class names, chart library loading and drawing. The pie chart's percentages and the dashboard's "seconds ago" use floating-point division and rounding, which this model does not represent.
- Timers, polling, the react-query mutation, query invalidation and toasts. Only the state changes they cause are modelled (`OnSubmitSuccess`, `ResetInputs`, `HideSuccess`, `SubmitCycle`).
- Database engine and ORM: the table is a `seq`. The order of rows with equal timestamps is stated only as "non-increasing". The model fixes one order (an insertion sort), and nothing depends on it. The store never fails a read, so the 500 responses of the GET routes are not modelled. An insert fails on a duplicate generated id or when the parameter `available` says the database refused it; why it refused is not modelled.
- `TrendChart.ProcessDataForChart`: buckets are identified by index. The code keys them by their `toLocaleTimeString` label, which depends on locale and timezone and is not modelled. If two labels were equal (a daylight-saving change repeats an hour), the code would merge those buckets; the model does not capture this. Labels are modelled as the buckets' reference times.
- `TrendChart.ProcessDataForChart`: a mood that names an `Object.prototype` member passes the code's `!== undefined` check, and for most such names the `++` stores `NaN` on that bucket object (not for `__proto__`, whose setter ignores a non-object value). This does not affect the three series emitted, so the model ignores it.
- MoodHeatmap.GenerateHeatmapData: built on the intended lookup `MoodIntensity`. For a mood naming an Object.prototype member the code as written differs; that case is `CellAsWritten` (see Findings).
- LiveMoodFeed.Feed: built on the intended lookup `MoodEmoji`. For a mood naming an Object.prototype member the code as written differs; that case is `EmojiAsWritten` (see Findings).
- `toISOString` and `formatDistanceToNow` are opaque: the first is the parameter `iso`, and the feed item keeps the raw timestamp for the second.
- Routes: Express wiring and response headers. A non-object body's issue path is modelled as the empty key, and the issues' text is not modelled.
- The legacy user stubs in server/storage.ts and shared/schema.ts hold no logic.
- The floating-emoji, QR-code, home and dashboard components are presentation only.

## Findings

| source | as written | input that shows it | evidently intended | confidence | as-written member | corrected member |
|---|---|---|---|---|---|---|
| client/src/components/mood-heatmap.tsx:39 | `moodIntensity[submission.mood] \|\| 2` reads the object literal's prototype chain. A mood that names an `Object.prototype` member gets that member (a function, which is truthy) instead of 2. The cell then holds a function, and `intensityColors[cell]` is `undefined` | a stored submission with mood `"toString"`; the schema accepts any text | an unknown mood gives intensity 2, and every cell is a valid colour index in 1..5 | not executed; follows from the lookup rules of ECMAScript | `MoodHeatmap.PrototypeMoodEscapesColorRange` | `MoodHeatmap.MoodIntensity` |
| client/src/components/live-mood-feed.tsx:38 | `moodEmojis[submission.mood] \|\| '😐'` has the same flaw. A mood that names an `Object.prototype` member yields that member instead of the fallback emoji. For `"constructor"` it is a function, which renders as nothing. For `"__proto__"` it is `Object.prototype` itself, a plain object, and React refuses to render an object as a child, so the whole feed fails to render | a stored submission with mood `"constructor"`, or with mood `"__proto__"` | an unknown mood shows `😐` | not executed; follows from the lookup rules of ECMAScript | `LiveMoodFeed.PrototypeMoodSkipsFallback` | `LiveMoodFeed.MoodEmoji` |
