# Blood-pressure log — a Dafny model

This project models the core of a single-page blood-pressure log. A user records readings
(systolic and diastolic pressure, heart rate, the arm used and a note, at a time). The
application keeps them newest first, shows them in a table with a status badge and in a chart
over a date range, and exports them as CSV. It also imports readings that an extraction
service pulls out of pasted text, and saves analyses written by a language-model service.

The model is split into modules that follow the program's files:

- `Types` (`types.ts`): the arm tags, the reading and report records, and the five declared
  severity bands. A stored time is a `Timestamp` that pairs the ISO text kept in the record
  with the epoch milliseconds `new Date(text).getTime()` gives, which is what every sort uses.
  The `arm` field is a string: new readings entered by hand carry one of the three labels;
  imported ones carry whatever the service returned, and an edited reading keeps the text it had unless an arm button is
  clicked (`BPForm.EntryForm.SetArm`).
- `Strings`: the JavaScript string operations the code relies on. These are the relational
  order on strings (used to compare dates), `trim`, and the decimal text of an integer.
- `App` (`App.tsx`): the store, modelled as a class whose fields are the two lists and the
  dialog flags. Each handler is a method that replaces those fields. Every method keeps the
  invariant that the readings are newest first. The comparator sort is modelled by an in-place
  insertion sort on a fresh array, proved sorted and a permutation. The sort is stable, so any
  stable sort gives the same list.
- `BPTable` (`components/BPTable.tsx`): the status badge and the rows of the table.
- `BPChart` (`components/BPChart.tsx`): the chart's points, which are the readings whose date
  prefix lies in the range, sorted oldest first. That sort is modelled by an insertion sort.
- `Csv` (`App.tsx`, `exportCSV`): the export text and an RFC 4180-style reader. The reader
  treats a field in double quotes as able to hold commas, line feeds and doubled quotes. The
  export is proved to read back as the header and each reading's six values.
- `BPForm` (`components/BPForm.tsx`): the entry form as a class. It covers the prefill when the
  form opens, the arm buttons, and the record a submit builds.
- `BulkImport` (`components/BulkImport.tsx`): the import dialog as a class. It covers the
  blank-text guard, the three ways an extraction ends, attaching ids, and confirming.
- `AIInsights` (`components/AIInsights.tsx`): the analysis panel as a class. It covers the
  fifteen-reading window, the text the panel is left with, saving a report, and expanding
  saved reports.

Several things enter the model as parameters instead:

- The clock (`nowMillis`, `now`) and the time-zone offset (`offsetMinutes`).
- `toISOString` and `toLocaleString`, as functions `isoText` and `localeText`.
- Random ids, passed as plain strings (`freshId`, `id`, `ids`).
- The browser's confirmation dialogs, as a boolean `confirmed`.
- The two services' answers (`ExtractResponse` and `AnalysisResponse`).

How the code behaves where a reader might expect otherwise:

- The table's badge uses four bands. `types.ts` declares five severity levels, but
  `getStatus` never gives the first stage of hypertension. `BPTable.FourOfFiveBands` states
  this.
- An extraction that returns no text is read as an empty list. The preview is then an empty
  list that can still be confirmed, and confirming it imports nothing.
- Imported readings are not checked. A value outside the form's bounds, or an arm text that
  is none of the three labels, goes into the store as it is.
- Readings are matched by id only when saved from the form. A bulk import puts every
  extracted reading in front of the list without comparing ids.
- The date column of the export is not quoted. In a locale whose date text holds a comma,
  each reading's line therefore has seven fields, not six (`Csv.CommaInDateShiftsColumns`).

## Model

| member | source | states |
|---|---|---|
| Types.ParseArm | types.ts:10 | a string reads as a tag only when it is that tag's label |
| Types.ArmTypeClosed | types.ts:10 | exactly three arm tags exist, their labels are pairwise different, and each label reads back as its own tag |
| Types.LevelLabelsDistinct | types.ts:2-8 | the five severity bands carry five different labels |
| Strings.LexLeReflexive | components/BPChart.tsx:26 | every date string is within a range that starts and ends at itself |
| Strings.LexLeTransitive | components/BPChart.tsx:26 | the string order used for date bounds is transitive |
| Strings.LexLeTotal | components/BPChart.tsx:26 | any two date strings are comparable |
| Strings.LexLeAntisymmetric | components/BPChart.tsx:26 | two strings each at most the other are equal |
| Strings.TrimStart | components/BulkImport.tsx:19 | the result is a suffix of the input, everything dropped is whitespace, and the result does not start with whitespace |
| Strings.TrimEnd | components/BulkImport.tsx:19 | the result is a prefix of the input, everything dropped is whitespace, and the result does not end with whitespace |
| Strings.Trim | components/BulkImport.tsx:19 | the trimmed text is the stretch of the input that is left once the whitespace before and after it is dropped (`BlankAround`), and it neither starts nor ends with whitespace |
| Strings.TrimEmptyIffBlank | components/BulkImport.tsx:19 | trimming leaves nothing exactly when every character is whitespace |
| Strings.NatToText | App.tsx:91-93 | the text of a count is nonempty, all digits, with no leading zero |
| Strings.IntToText | App.tsx:91-93 | the text of a number is nonempty and made of digits and a minus sign |
| Strings.NatTextValue | App.tsx:91-93 | the digits written for a count have that count as their value |
| Strings.IntTextRoundTrip | App.tsx:91-93 | the text written for any integer reads back as that integer |
| BPTable.GetStatus | components/BPTable.tsx:13-18 | each badge is given exactly for the readings in its band, the first threshold that either value reaches decides, and normal needs both values below 120/80 |
| BPTable.StatusLabelsDistinct | components/BPTable.tsx:14-17 | the four badge texts (`StatusLabel`) are pairwise different |
| BPTable.LevelOf | types.ts:2-8 | a badge stands for a declared severity level other than the first stage of hypertension; normal and elevated map to their own levels |
| BPTable.GetStatusMonotone | components/BPTable.tsx:13-18 | raising either pressure never lowers the badge |
| BPTable.StatusExamples | components/BPTable.tsx:14-17 | worked readings: 185/70 is a crisis on the systolic value alone, 118/95 is hypertension on the diastolic value alone, 121/79 is elevated and 119/79 is normal |
| BPTable.FourOfFiveBands | components/BPTable.tsx:13-18 | every badge is one of four, all four occur, and no reading is placed in the first stage of hypertension |
| BPTable.Body | components/BPTable.tsx:36-95 | an empty list shows the placeholder; otherwise one row per reading in list order, with its badge and the badge's text, its note as typed ("-" for an empty note, so "-" is shown exactly when the note is empty or itself "-"), and edit and delete buttons bound to that reading and its id |
| BPChart.DatePrefix | components/BPChart.tsx:25 | the date is the part of the timestamp text before the first 'T', or all of it |
| BPChart.OneDayRange | components/BPChart.tsx:26 | with start and end on the same day, a reading is in range (`InRange`) exactly when its date is that day |
| BPChart.FilterRange | components/BPChart.tsx:24-27 | a reading is kept exactly when its date lies between the start and end dates inclusive, as many times as it occurs in the list |
| BPChart.InsertByTime | components/BPChart.tsx:28 | inserting into an oldest-first list keeps it oldest first and adds exactly that reading |
| BPChart.SortOldestFirst | components/BPChart.tsx:28 | the ascending sort by time gives an oldest-first permutation of its input |
| BPChart.FilteredData | components/BPChart.tsx:22-33 | the points are a permutation of the in-range readings, so exactly the in-range readings appear, and they are oldest first |
| BPChart.EmptyWhenStartAfterEnd | components/BPChart.tsx:26 | with the start date after the end date the chart has no point |
| BPChart.Render | components/BPChart.tsx:35-41 | the "no data" panel shows exactly when there are no readings; otherwise the plot shows the filtered points, possibly none |
| BPChart.ChartReversesStore | components/BPChart.tsx:22-33 | when the store's readings have distinct times, the points are the in-range readings in the exact reverse of the store's order |
| App.ReplaceById | App.tsx:43 | same length; each reading carrying the id becomes the new one and every other reading stays in place |
| App.Upsert | App.tsx:40-46 | with the id present the list is `ReplaceById` of it, so the length stays and every other reading keeps its place; otherwise the reading goes in front; either way the reading is the only one with its id, every reading with another id stays, and nothing else comes in |
| App.UpsertKeepsCounts | App.tsx:40-46 | after an upsert every reading with another id occurs exactly as often as before |
| App.ReplaceKeepsOthers | App.tsx:43 | replacing by id leaves the number of occurrences of every reading with another id unchanged |
| App.RemoveById | App.tsx:69 | exactly the entries with another key remain; nothing is removed when no entry carries the key |
| App.RemoveByIdConcat | App.tsx:69 | filtering a list is filtering its parts, so the kept entries stay in order |
| App.RemovePreservesOrder | App.tsx:69 | deleting from a newest-first list leaves it newest first |
| App.SortNewestFirst | App.tsx:47-49 | the sort leaves the array newest first and a permutation of what it held |
| App.InsertNext | App.tsx:47-49 | one insertion step extends the newest-first prefix by one entry and permutes the array |
| App.Store.constructor | App.tsx:12-17 | a new store has no readings, no reports and no dialog open |
| App.Store.SetSorted | App.tsx:61-63 | the new reading list is a newest-first permutation of the given list |
| App.Store.SaveRecord | App.tsx:38-53 | the readings become a newest-first permutation of the upserted list, the reports stay, and the form closes with no reading under edit |
| App.Store.HandleEditRequest | App.tsx:55-58 | the form opens on that reading and nothing else changes |
| App.Store.OpenNewEntry | App.tsx:179 | the form opens with no reading under edit and nothing else changes |
| App.Store.CloseForm | App.tsx:241 | the form closes with no reading under edit and nothing else changes |
| App.Store.SetBulkImportOpen | App.tsx:143 | only the import dialog's flag changes |
| App.Store.AddBulkRecords | App.tsx:60-65 | the readings become a newest-first permutation of the batch followed by the old list, with none dropped and no id compared, and the dialog closes |
| App.Store.DeleteRecord | App.tsx:67-71 | when confirmed, every reading with the id is removed and the rest keep their order; otherwise nothing changes |
| App.Store.SaveAIReport | App.tsx:73-75 | the report goes in front of the reports and nothing else changes |
| App.Store.DeleteAIReport | App.tsx:77-81 | when confirmed, every report with the id is removed; otherwise nothing changes |
| App.SaveTwiceKeepsLatest | App.tsx:38-53 | saving a reading and then an edited one with the same id leaves the edited one stored and the first one gone |
| Csv.EscapeQuotes | App.tsx:94 | doubling the quotes lengthens the note by its number of quotes |
| Csv.QuoteField | App.tsx:94 | the note cell starts and ends with a quote and is two characters longer than the escaped note |
| Csv.CsvRows | App.tsx:88-95 | one line per reading, in list order, each built by `CsvRow` |
| Csv.CsvRowReadsBack | App.tsx:88-95 | a reading's line (`CsvRow`) reads back as its date text, arm, three numbers and exact note, when the unquoted date text and arm hold no comma, quote or line feed |
| Csv.ExportCsv | App.tsx:83-96 | nothing is exported exactly when there are no readings |
| Csv.HeaderRow | App.tsx:85 | the header line is six unquoted labels that read back as themselves |
| Csv.ExportRoundTrip | App.tsx:83-96 | the export reads back as the header followed by each reading's date text, arm, three numbers and exact note, in list order |
| Csv.CommaInDateShiftsColumns | App.tsx:88-95 | a date text holding a comma splits into two fields, so the line reads as seven fields with every later column moved one place |
| BPForm.MinutePrecision | components/BPForm.tsx:22-24 | an instant written into the time field (`LocalMinute`) and read back (`MinuteInstant`) is the same instant cut to the minute, whatever the time-zone offset |
| BPForm.MinuteRoundTrip | components/BPForm.tsx:41 | a minute value written into the time field (`LocalMinute`) and read back (`MinuteInstant`) is the same minute, whatever the offset |
| BPForm.BoundsExamples | components/BPForm.tsx:106 | the bounds checked by `InBounds` are inclusive at both ends (40-300, 40-250, 30-250), and the defaults lie within them |
| BPForm.SubmitId | components/BPForm.tsx:40 | an edited reading with a nonempty id keeps it; otherwise the fresh id is used |
| BPForm.EntryForm.constructor | components/BPForm.tsx:13-18 | a new form has an empty time, 120/80 with heart rate 75, the left arm and an empty note |
| BPForm.EntryForm.Prefill | components/BPForm.tsx:20-35 | when editing, every field is copied from the reading with its time cut to the minute; otherwise only the time is set, to the current minute |
| BPForm.EntryForm.SetArm | components/BPForm.tsx:81-85 | an arm button sets the field to its tag's label |
| BPForm.EntryForm.Submit | components/BPForm.tsx:37-49 | a reading is produced exactly when the time is set and all three numbers are within bounds; it carries the form's values, the kept or fresh id, and the instant the time field names |
| BPForm.NewEntryDefaults | components/BPForm.tsx:13-49 | submitting an untouched new form records 120/80, heart rate 75, left arm and no note, under the fresh id, at the current minute |
| BPForm.EditRoundTrip | components/BPForm.tsx:20-47 | submitting an untouched edit form gives back the same id, numbers, arm and note, with the time cut to the minute, exactly when the numbers are within bounds |
| BPForm.EditEmptyIdGetsFresh | components/BPForm.tsx:40 | a reading edited under an empty id is saved under the fresh id |
| BPForm.NewEntryArmIsATag | components/BPForm.tsx:81-85 | on a new entry the arm field always holds one of the three labels: the one clicked, or the left arm |
| BulkImport.WithId | components/BulkImport.tsx:65-68 | the record carries the given id and otherwise exactly the payload's fields |
| BulkImport.AttachIds | components/BulkImport.tsx:65-68 | each extracted reading gets its own new id, replacing any id it came with |
| BulkImport.AttachIdsRoundTrip | components/BulkImport.tsx:65-68 | attaching ids loses nothing but the payloads' own ids |
| BulkImport.AttachIdsKeepsValues | components/BulkImport.tsx:65-68 | each preview entry holds its payload's values unchanged and unchecked |
| BulkImport.ImportDialog.constructor | components/BulkImport.tsx:13-16 | a new dialog has no text, no request, no preview and no error |
| BulkImport.ImportDialog.SetText | components/BulkImport.tsx:111 | typing replaces the text |
| BulkImport.ImportDialog.BeginParse | components/BulkImport.tsx:19-21 | a request starts exactly when the text is not blank; the old error is then cleared and the parse button is disabled |
| BulkImport.ImportDialog.CanParse | components/BulkImport.tsx:100-118 | the parse button can be clicked exactly when no preview is shown, no request is running and the text is not blank |
| BulkImport.ImportDialog.ClickParse | components/BulkImport.tsx:116-118 | a click on the hidden or disabled button (preview shown, request running, or blank text) changes nothing; otherwise the request starts and the button is disabled |
| BulkImport.ImportDialog.FinishParse | components/BulkImport.tsx:64-75 | parsed payloads become the preview with the given ids; no text gives an empty preview; a failure sets the error and keeps the preview; the request ends in every case |
| BulkImport.ImportDialog.Confirm | components/BulkImport.tsx:78-82 | the preview is handed on unchanged whenever there is one, even when it is empty |
| BulkImport.ImportDialog.ResetPreview | components/BulkImport.tsx:129 | the preview is discarded |
| BulkImport.ImportFlow | components/BulkImport.tsx:18-82 | a successful import adds every extracted reading, under its new id, to the store, which stays newest first |
| BulkImport.EmptyAnswerImportsNothing | components/BulkImport.tsx:64 | an answer with no text leads to an empty batch being imported |
| BulkImport.FailureLeavesNoPreview | components/BulkImport.tsx:70-72 | a failed extraction on a fresh dialog leaves nothing to confirm and shows the error message |
| BulkImport.SecondParseClickIgnored | components/BulkImport.tsx:116-118 | a second click while the first request runs starts nothing |
| BulkImport.BlankTextDoesNothing | components/BulkImport.tsx:19 | blank text starts no request |
| AIInsights.AnalysisWindow | components/AIInsights.tsx:26 | the request covers the first fifteen readings, or all of them when there are fewer |
| AIInsights.WindowIsMostRecent | components/AIInsights.tsx:26 | in the store's order, no reading left out of the window is newer than one sent |
| AIInsights.InsightText | components/AIInsights.tsx:41-44 | the panel shows the answer, the fallback text for an empty answer, or the apology when the service is unreachable, and never shows an empty text |
| AIInsights.Toggle | components/AIInsights.tsx:129 | a report's header expands it exactly when it was not the expanded one, and otherwise collapses everything |
| AIInsights.ToggleTwice | components/AIInsights.tsx:129 | clicking the same header twice restores the previous expansion when that was this report or none |
| AIInsights.InsightsPanel.constructor | components/AIInsights.tsx:15-17 | a new panel has no insight, no request and no report expanded |
| AIInsights.InsightsPanel.BeginAnalysis | components/AIInsights.tsx:20-26 | with no readings nothing starts; otherwise a request starts over the analysis window and the analyse button is disabled |
| AIInsights.InsightsPanel.CanAnalyze | components/AIInsights.tsx:79 | the analyse button is enabled only when no request is running, and then the request sends at least one reading |
| AIInsights.InsightsPanel.ClickAnalyze | components/AIInsights.tsx:78-79 | a click on the disabled button (request running, or no readings) changes nothing; otherwise a request starts over the window and the button is disabled |
| AIInsights.InsightsPanel.FinishAnalysis | components/AIInsights.tsx:41-47 | the insight is set from the answer and the request ends |
| AIInsights.InsightsPanel.Save | components/AIInsights.tsx:50-61 | without an insight nothing is saved; otherwise a report of the insight and the full list's length is made and the insight cleared |
| AIInsights.InsightsPanel.ToggleExpanded | components/AIInsights.tsx:129 | the expanded report follows the toggle rule |
| AIInsights.FailureIsSaved | components/AIInsights.tsx:44-57 | a failed analysis can still be saved, as a report whose content is the apology |
| AIInsights.AnalyzeThenSave | components/AIInsights.tsx:19-61 | every finished analysis can be saved once; the report counts every reading, more than were sent when there are over fifteen |
| AIInsights.SecondAnalyzeClickIgnored | components/AIInsights.tsx:78-79 | a second click while the first request runs sends nothing; after it finishes a click starts a new request over the same window |
| AIInsights.NoRecordsNoRequest | components/AIInsights.tsx:20 | with no readings no request starts |

## Left out

- Persistence in `localStorage` and JSON encoding (App.tsx:19-36) are not modelled. The store starts empty.
- The navigation tab state (App.tsx:14) is not modelled, and neither are layout and styling: JSX markup, CSS classes, icons, the recharts plot and its axis labels, and the table's date and time cells. What the table and the chart show is modelled by `BPTable.Body` and `BPChart.Render`.
- The export's download is not modelled. This covers the byte-order mark, the `Blob`, the object URL, the link and the file name (App.tsx:98-105).
- The prompts and calls to the language-model services are not modelled (components/BulkImport.tsx:25-61, components/AIInsights.tsx:24-39). Their outcomes are inputs to `FinishParse` and `FinishAnalysis`.
- JSON parsing of the extraction answer is not modelled. A well-formed array is `Parsed`; anything that throws is `Failed`.
- The chart's initial date range (components/BPChart.tsx:15-20) depends on the clock. The range is a parameter of `FilteredData`.
- The `console.error` logging of failures (components/BulkImport.tsx:71, components/AIInsights.tsx:43) is not modelled.
- The dialogs, the form and the analysis panel are mounted only while open or while their tab is shown (App.tsx:226-248). Closing one or switching tabs throws away its state, and an extraction or analysis answer that arrives afterwards is lost. The model has no unmount step: each `ImportDialog`, `EntryForm` and `InsightsPanel` starts fresh from its constructor.
- The `alert` after saving a report and the markdown-like rendering of the insight are not modelled.
- `BPStats` (types.ts:29-34) is declared but unused by the core files, so it is not modelled.
- Random ids are given as parameters. Their format and their uniqueness are not modelled.
- Date parsing and formatting are parameters: `toISOString`, `toLocaleString` and `new Date(text).getTime()`. An invalid date, which gives `NaN`, is not modelled.
- A single time-zone offset applies to both the prefill and the submit, so daylight-saving changes between the two instants are not modelled.
- Readings hold integers. Non-integer values, which an imported reading may carry, and the text of numbers of 1e21 and above are not modelled.
- `Strings.LexLe` compares characters. JavaScript compares UTF-16 code units, so the two can differ only for characters outside the Basic Multilingual Plane, which date strings do not contain.
- Typing into the form's time, number and note fields, and into the import text area apart from `SetText`, is plain field assignment and has no members of its own.
- `BPForm.EntryForm.Submit`: the number fields are modelled as integers. `parseInt` of their text is not modelled. The bounds check stands for the browser's `min`, `max` and `required` validation, which blocks the submit.
- `App.Store.SaveRecord`: the new list is stated as a newest-first permutation of the upserted list. The order among readings with equal times is not stated, although the sort that computes it is stable.
- `App.Store.SetSorted`: the new list is stated as a newest-first permutation of the given list. The order among readings with equal times is not stated.
- `App.Store.AddBulkRecords`: the new list is stated as a newest-first permutation. The order among readings with equal times is not stated.
- `App.SortNewestFirst`: stated as sorted and a permutation. Stability is not stated.
- `BPChart.FilteredData`: stated as an oldest-first permutation of the in-range readings. The exact order is fixed only when times are distinct (`BPChart.ChartReversesStore`).
- `Csv.ExportRoundTrip`: holds only when each reading's date text and arm contain no comma, quote or line feed, because the export writes those two cells unquoted.
- `AIInsights.ToggleTwice`: holds only when the expanded report was this one or none. Otherwise two clicks leave every report collapsed.
