# Document register (quan_ly_van_ban) in Dafny

This project models the core of a small web application for registering
official correspondence ("văn bản"). Incoming and outgoing documents carry a
number, a date, a summary, a type, a priority, a status, the sending and
receiving departments, a person in charge, a processing deadline, tags, notes
and an optional attachment. Two parts of the application are covered:

- **The PHP back end.** `database/db_config.php` is the MySQL access class: it
  lists documents newest first, inserts, updates and deletes rows, and builds
  the parameterised search query. `api/documents.php` is the JSON endpoint
  that routes HTTP requests to that class. `api/upload.php` checks and stores
  an uploaded attachment.
- **The browser front end.** This covers the document manager and its dashboard
  counters, the deadline notifications and the urgency texts. It covers the
  search service, the charts and reports, the label formatters, the file
  handler and the DOM builders. It also covers three stand-alone versions of
  the manager (`script-backup.js`, `script-fixed.js`, `script-broken.js`).

Where the code updates objects in place, the model uses a Dafny `class` whose
fields the methods reassign. Examples are the managers, the notification
manager, the chart and report managers, and the upload method. Where the code
computes values, the model uses functions over datatypes, with lemmas stating
what the code promises. The model covers:
- filters, counts and orders;
- deadline day arithmetic;
- query and placeholder agreement;
- round trips of tags and CSV cells;
- the routing of requests.

Some things are kept as parameters:
- the host's date parser (a `string -> Moment` function, with `Invalid` for
  the NaN date);
- the clock;
- the database collation (a case-folding function);
- a user's answer to a confirmation dialog;
- the outcome of a network call.

Modules follow the source files. Shared definitions live in `Common`
(lists, counting, strings, trimming, splitting) and `Documents` (the
document record). `Deadlines` holds the day arithmetic, `Sorting` an
insertion sort, and `Tally` the insertion-ordered counters.

## Model

| member | source | states |
|---|---|---|
| Common.AsciiLowerNoCapitals | api/upload.php:38 | `strtolower` leaves an extension with no ASCII capital exactly as it is |
| Common.SplitJoin | js/document-manager.js:438 | splitting the comma-joined parts on the comma gives the parts back, when no part holds a comma |
| Common.TrimTrimmed | js/document-manager.js:438 | trimming a text without surrounding white space changes nothing |
| Common.UndoubleDouble | script-backup.js:1107 | doubling every `"` of a CSV cell can be undone, so the quoted cell determines the text |
| Common.DoubleQuotesKeeps | script-backup.js:1107 | doubling the quotes of a cell neither adds nor removes any other character, such as a comma |
| Common.DoubleQuotesPaired | script-backup.js:1107 | inside a doubled cell every `"` is one of an adjacent pair, so the cell cannot end its quoting early |
| Common.IntToStringInjective | api/documents.php:39-40 | distinct ids have distinct decimal texts, so an `id` query parameter names at most one id |
| Documents.FindById | js/document-manager.js:595 | `find` by id: a result is in the list and has the id; no result means no document has the id |
| Documents.FindIndex | js/document-manager.js:488 | `findIndex` by id: the first position with the id, or -1 exactly when no document has it |
| Documents.FindByIdIndex | js/document-manager.js:488-490 | `find` and `findIndex` agree: one finds a document exactly when the other gives a position, and it is the same document |
| Documents.ParseTags | js/document-manager.js:438 | the tags read from the form field are never empty |
| Documents.ParseTagsJoin | js/document-manager.js:438 | non-empty, trimmed tags without commas joined by "," parse back to the same tags |
| Deadlines.DaysUntil | js/document-manager.js:114 | the rounded-up day count `d` is the one whole number with `(d-1)` days < deadline−now ≤ `d` days |
| Deadlines.DaysUntilUnique | js/document-manager.js:114 | any `d` meeting those bounds is the day count |
| Deadlines.DaysNegative | js/notifications.js:23-26 | the day count is negative exactly when the deadline passed at least a full day ago |
| Deadlines.DaysAtMost | js/document-manager.js:114-115 | "at most k days left" holds exactly when the deadline is no more than k days ahead |
| Deadlines.DaysZero | js/dom-builder.js:125-128 | the day count is 0 ("today") exactly when the deadline lies in the last day up to now |
| Sorting.InsertPerm | js/document-manager.js:194 | inserting into a sorted list adds exactly that element |
| Sorting.InsertLowerBound | js/document-manager.js:194 | inserting keeps every lower bound of the list |
| Sorting.InsertSorted | js/document-manager.js:194 | inserting into a sorted list keeps it sorted under a total preorder |
| Sorting.SortCorrect | js/document-manager.js:194 | the sort returns a sorted permutation of its input |
| Sorting.SortByRank | js/document-manager.js:194 | the comparator sort by days left orders by rank, with missing ranks last, and keeps every element |
| Sorting.SmallestFirst | js/document-manager.js:194-195 | `sort(...).slice(0, k)` keeps elements of the input that rank no later than any element left out |
| Sorting.StrLeTotalPreorder | js/charts.js:108 | the code-unit order of `sort()` on strings is a total preorder |
| Sorting.SortStrings | js/charts.js:108 | `Object.keys(...).sort()` yields the keys in code-unit order, each as often as given |
| Sorting.DistinctMultiplicity | js/charts.js:108 | a list without repeats holds each key at most once |
| Sorting.RepeatedMultiplicity | js/charts.js:108 | a list with a repeated key holds it at least twice |
| Sorting.SortStringsStrict | js/charts.js:108 | distinct keys come out strictly increasing, and the same keys as went in |
| Tally.KeyText | js/reports.js:45 | a missing property becomes the object key "undefined"; a present one is its own key |
| Tally.Bump | js/charts.js:38 | one `acc[k] = (acc[k] \|\| 0) + 1` adds at most one entry and touches only the entry of `k` |
| Tally.BumpCounts | js/charts.js:38 | the step keeps one entry per key, raises the total by one and the count of `k` alone by one |
| Tally.WellFormedTail | js/charts.js:35-42 | every later entry of a well-formed tally has a key other than the first |
| Tally.CountAbsent | js/charts.js:35-42 | a key without an entry counts 0 |
| Tally.TallyOfCounts | js/charts.js:35-42 | the counting loop gives each key its number of occurrences, and the counts add up to the number of items |
| Tally.TallyOfKeys | js/charts.js:35-42 | a key has an entry exactly when it occurs |
| Tally.EntryCount | js/charts.js:35-42 | a key has an entry exactly when its count is positive |
| DbConfig.CreatedNotBeforeTotalPreorder | database/db_config.php:25 | `ORDER BY created_at DESC`, with `NULL` last, is a total preorder |
| DbConfig.NewestFirst | database/db_config.php:24-28 | the listing is every row, as often as stored, newest first |
| DbConfig.WhenGiven | database/db_config.php:127-162 | a criterion adds its clause exactly when it is truthy in PHP (present, not empty, not "0") |
| DbConfig.HolesAppend | database/db_config.php:123-164 | the placeholders of concatenated SQL text add up |
| DbConfig.PlaceholdersHoles | database/db_config.php:128 | one `?` per listed column |
| DbConfig.HolesPair | database/db_config.php:135 | a single `col = ?` has one placeholder |
| DbConfig.ClauseHoles | database/db_config.php:127-162 | every clause binds exactly as many values as it has `?` |
| DbConfig.QueryHoles | database/db_config.php:123-164 | for any set of clauses the query's `?` count equals the number of bound values |
| DbConfig.ClausesSnoc | database/db_config.php:127-162 | adding a clause appends its text and its values at the end |
| DbConfig.AppendClause | database/db_config.php:127-162 | one `$sql .=` / `$params` step keeps text and values those of the clauses so far |
| DbConfig.TokensAssoc | database/db_config.php:123-164 | concatenation of SQL text is associative |
| DbConfig.BuildSearch | database/db_config.php:122-164 | the query and parameters are those of the active clauses, and the placeholders match the parameters |
| DbConfig.WhenGivenParams | database/db_config.php:127-162 | a criterion adds one clause and its n values when truthy, nothing otherwise |
| DbConfig.ParamCount | database/db_config.php:127-162 | the keyword binds five values, the organisation two, every other active criterion one; inactive ones none |
| DbConfig.KeywordParams | database/db_config.php:127-131 | with a keyword the first five values are all `%term%` |
| DbConfig.KeywordFirst | database/db_config.php:127-131 | the keyword's values open the parameter list |
| DbConfig.WhenGivenParamsPrefix | database/db_config.php:127-162 | later criteria only extend the values bound so far |
| DbConfig.SearchIsConjunction | database/db_config.php:122-180 | the search returns, newest first, exactly the rows meeting every active criterion, each as many times as the table holds it |
| DbConfig.SearchWithoutCriteria | database/db_config.php:122-180 | with no active criterion the search is the plain listing, with no condition and no values |
| DbConfig.DateBoundsInclusive | database/db_config.php:146-156 | both date bounds include the bound's own date; a row without a date fails both |
| DbConfig.TagsColumn | database/db_config.php:54 | the `tags` column is `NULL` exactly when no tags were posted |
| DbConfig.TagsColumnRoundTrip | database/db_config.php:54 | a tag array stored joined by "," reads back as the same array |
| DbConfig.InsertRow | database/db_config.php:30-63 | the inserted row gets the engine's id and the posted times, or now when missing |
| DbConfig.UpdateRow | database/db_config.php:75-120 | an update keeps the id and the creation time and stamps the update time |
| DbConfig.ClearedRow | database/db_config.php:75-120 | an update with no body keeps id and creation time and stamps now |
| DbConfig.UpdateIsInsertButCreated | database/db_config.php:30-120 | update and insert write the same columns, except the creation time |
| DbConfig.AddDocument | database/db_config.php:30-63 | the table gains exactly the inserted row, after the others |
| DbConfig.UpdateDocument | database/db_config.php:75-120 | an update never adds or removes rows |
| DbConfig.UpdateKeepsIdentity | database/db_config.php:75-120 | ids, order and creation times stay; only rows with the id change, and they get the posted columns |
| DbConfig.DeleteSpec | database/db_config.php:65-73 | deleting keeps exactly the rows with other ids; an unknown id leaves the table unchanged |
| DbConfig.AsJson | api/documents.php:46-47 | rows reach the front end with snake_case keys only: `processing_deadline` is set and `processingDeadline` is absent |
| DocumentsApi.Param | api/documents.php:27-32 | `$_GET[k] ?? null` is present exactly when the key is in the query |
| DocumentsApi.RouteGet | api/documents.php:21-48 | GET searches when any search key is present, else reads by id, else lists everything |
| DocumentsApi.RouteSearchCriteria | api/documents.php:27-34 | whenever any search key is present, the search gets each query parameter as its criterion and an absent one as `null` |
| DocumentsApi.RowWithId | api/documents.php:39-42 | the row read by id is one that MySQL's numeric reading of the id text names; no row means the text names none |
| DocumentsApi.SqlIdValueOfText | api/documents.php:39-40 | the decimal text of an id is read back as that id |
| DocumentsApi.SqlIdValueLeadingZeros | api/documents.php:82-86 | leading zeros do not change the id read, so `?id=05` names row 5 |
| DocumentsApi.PreflightTouchesNothing | api/documents.php:10-12 | an OPTIONS request ends at once with an empty answer and no change |
| DocumentsApi.ReadsKeepTable | api/documents.php:20-49 | requests other than POST, PUT and DELETE leave the table as it is |
| DocumentsApi.OtherMethodsRefused | api/documents.php:88-91 | any other method gets 405 "Method not allowed" |
| DocumentsApi.MalformedPostFails | api/documents.php:56-61 | a POST body that is not JSON gives 500 with the decode error and no insert |
| DocumentsApi.PostAppendsOne | api/documents.php:51-73 | a decoded POST appends exactly one row and reports success |
| DocumentsApi.DeleteUnknownId | api/documents.php:82-86 | deleting with an id text that names no row reports success and changes nothing |
| DocumentsApi.DeleteRemovesId | api/documents.php:82-86 | DELETE keeps exactly the rows the id text does not name, read as MySQL compares it with the integer column |
| DocumentsApi.DeletePaddedId | api/documents.php:82-86 | DELETE with an id's decimal text, zero-padded or not, removes what `deleteDocument` of that id removes |
| DocumentsApi.PutKeepsIdentity | api/documents.php:75-80 | PUT keeps the number of rows, their ids and their creation times |
| DocumentManager.StatisticsBounds | js/document-manager.js:96-124 | incoming plus outgoing never exceed the list; overdue and near-deadline counts are among the incoming and never exceed what the bell counts |
| DocumentManager.StatisticsOverlap | js/document-manager.js:99-115 | an incoming document counts both as overdue and as near its deadline exactly when the deadline passed less than a day ago |
| DocumentManager.DashboardBadgeValue | js/document-manager.js:84-88 | the dashboard's bell shows the decimal numeral of overdue + near-deadline, "0" included |
| DocumentManager.PendingTasksSpec | js/document-manager.js:180-195 | at most five tasks (fewer only when fewer are pending), in ascending day order, each a pending document with its own day count, none left out due earlier than one kept |
| DocumentManager.PendingTasksMissApiRows | js/document-manager.js:186-189 | documents as the API returns them (no camelCase deadline) never give a pending task |
| DocumentManager.PendingTasksCounterexample | js/document-manager.js:186-189 | one pending API row with a deadline: the list as written is empty, the corrected one lists it |
| DocumentManager.PendingTasksCorrectedNonEmpty | js/document-manager.js:99-104 | the corrected list is empty exactly when no document has a pending deadline under either key |
| DocumentManager.RecentDocumentsSpec | js/document-manager.js:157-164 | five documents (fewer for a shorter list), newest first by `createdAt \|\| date`, none left out newer than one shown |
| DocumentManager.BuildDocDataSpec | js/document-manager.js:425-471 | the saved object keeps the edited id (else the clock), takes the direction's own fields, parses the tags, drops the timestamps when new, and takes the uploaded file, else the edited attachment, else none |
| DocumentManager.SaveLocally | js/document-manager.js:486-496 | a new document is appended; an edit replaces only the first document with the edited id and keeps the length |
| DocumentManager.SaveLocallyDistinct | js/document-manager.js:486-496 | saving keeps ids distinct, and adds nothing but the saved document |
| DocumentManager.EditKeepsIds | js/document-manager.js:486-492 | saving an edit keeps the length and the ids in order, and the new version is in the list when the id was |
| DocumentManager.FilterDocumentsIsAnd | js/document-manager.js:681-700 | the narrowing steps keep, in list order, exactly the documents of the direction meeting every active criterion |
| DocumentManager.DocumentManager.constructor | js/document-manager.js:12-16 | an empty list, no edited document, no current direction |
| DocumentManager.DocumentManager.OpenDocumentModal | js/document-manager.js:340-363 | the direction is recorded when the form's elements exist; nothing else changes |
| DocumentManager.DocumentManager.EditDocument | js/document-manager.js:591-602 | an unknown id changes nothing; otherwise the document becomes the edited one and its direction the current one |
| DocumentManager.DocumentManager.HandleDocumentSubmit | js/document-manager.js:425-511 | a failed upload or save changes nothing; otherwise the built document is saved locally and the edited document cleared |
| DocumentManager.EditThenSubmit | js/document-manager.js:425-511 | editing then saving keeps the list's length and ids in order, and ends with no edited document |
| Notifications.OverdueAndNear | js/notifications.js:14-25 | a document is in both buckets exactly when its deadline passed less than a day ago |
| Notifications.NotifiedArePending | js/notifications.js:14-48 | every notified document is in the list, has a deadline and is not completed |
| Notifications.NearDeadlineWindow | js/notifications.js:20-25 | "near" means a deadline from one day ago (exclusive) to three days ahead (inclusive) |
| Notifications.WorkedExample | js/notifications.js:14-25 | a deadline of 3 July is near and not overdue on 2 July, overdue and not near on 5 July |
| Notifications.UrgencyTextInjective | js/notifications.js:124-131 | distinct day counts give distinct urgency texts |
| Notifications.NotificationManager.constructor | js/notifications.js:5-8 | the given list, or the empty list; no notifications yet |
| Notifications.NotificationManager.CheckNotifications | js/notifications.js:10-55 | the notifications are the overdue then the near documents; the badge shows their number, or is hidden at zero |
| Notifications.NotificationManager.UpdateDocuments | js/notifications.js:209-212 | the list is replaced (none is empty) and the notifications recomputed for it |
| Notifications.NotificationManager.CalculateNearDeadlineDocs | js/notifications.js:215-223 | the number of near-deadline documents, never more than the list |
| Formatters.FormatDate | js/formatters.js:22-37 | a missing or empty date gives "N/A", an unparsable one is returned as it is, and a valid one is shown as its calendar date (dd/mm/yyyy) |
| Formatters.FormatDateTime | js/formatters.js:3-20 | the same fallbacks; a valid date-time is the date text, a space and the clock |
| Formatters.TwoDigits | js/formatters.js:10-14 | `padStart(2, '0')` of a number below 100 is two digits reading back as that number |
| Formatters.DatePartReadsBack | js/formatters.js:29-32 | "dd/mm/yyyy" reads back as the day, the month and the year |
| Formatters.ClockPartReadsBack | js/formatters.js:13-15 | "hh:mm" reads back as the hour and the minute |
| Formatters.Lookup | js/formatters.js:47-106 | a key not in the table gives the fallback, and a key with a non-empty label gives that label |
| Formatters.MissingKeyFallsBack | js/formatters.js:47-106 | a missing key gets the default icon, "Không xác định" or "Khác" |
| Formatters.PendingStatusUnknown | js/formatters.js:59-68 | the status "pending" has no label and shows as unknown, while "draft" is "Dự thảo" |
| Formatters.TypeTextsShared | js/formatters.js:82-106 | "letter" and "official" share "Công văn", "announcement" and "notification" share "Thông báo", an unknown type reads as "other" |
| Formatters.IconFallback | js/formatters.js:47-57 | every type outside the five with icons gets the default icon |
| Upload.Extension | api/upload.php:32 | the extension is the tail of the name after the last dot, and holds no dot |
| Upload.HandleUpload | api/upload.php:7-67 | non-POST gets 405; a POST succeeds exactly when a file is sent, its extension is allowed, its size is at most 10 MiB and the move succeeds, and then returns the name, size, type and `vanban_files/<folder>/<time>_<name>` |
| Upload.ExtensionCheckedFirst | api/upload.php:37-44 | a disallowed extension reports the type error whatever the size |
| Upload.SizeBoundary | api/upload.php:42-44 | exactly 10 MiB is accepted, one byte more is refused with the size message |
| Upload.FolderChoice | api/upload.php:19-22 | the folder is `vanbanden` exactly for an absent or 'incoming' type, otherwise `vanbandi` |
| Upload.NoUnderscoreInTimestamp | api/upload.php:31-33 | the timestamp text holds no `_` |
| Upload.StoredNameInjective | api/upload.php:31-33 | the stored name `<time>_<name>` determines both the time and the original name |
| Upload.ExtensionOfDotted | api/upload.php:32 | the extension of `stem.ext` is `ext` |
| Upload.DottedNameChecked | api/upload.php:32-40 | `stem.ext` passes the type check exactly when `ext`, lowercased, is allowed |
| Upload.EmptyNameRefused | api/upload.php:32-40 | an empty file name never passes |
| Upload.NoExtensionRefused | api/upload.php:32-40 | a name without a dot is always refused |
| Upload.StoredPathShape | api/upload.php:33-53 | the returned path is the folder path followed by the stored name, which is its last segment |
| Upload.StoredPathLast | api/upload.php:53 | the stored name is the last `/`-segment of the returned path |
| FileHandler.ValidateFile | js/file-handler.js:46-66 | passes exactly when the size is at most 10 MiB and the type is listed; size is checked first |
| FileHandler.ValidateSizeBoundary | js/file-handler.js:57-59 | exactly 10 MiB passes, one byte more is too large |
| FileHandler.HandleFileUpload | js/file-handler.js:8-44 | no file gives null; a failure carries the "Không thể upload file: " prefix; a success is a validated file with its own name, size and type |
| FileHandler.UploadSucceedsIff | js/file-handler.js:8-44 | the upload succeeds exactly when both the client and the server checks pass and the move succeeds, and then has the server's path |
| FileHandler.ServerRefusesWhatClientPassed | js/file-handler.js:46-66 | a `.exe` sent as PDF passes the client and is refused by the server |
| FileHandler.ClientRefusesWhatServerTakes | js/file-handler.js:46-66 | a `.txt` sent as a zip is refused by the client though the server would take it |
| FileHandler.DownloadName | js/file-handler.js:84 | a given file name is the download name |
| FileHandler.DownloadNameFromPath | js/file-handler.js:84 | otherwise the download name is the path's last segment, which holds no `/` |
| FileHandler.OpenFileInExplorer | js/file-handler.js:69-74 | something is downloaded exactly when a path is given |
| FileHandler.DownloadOfUploaded | js/file-handler.js:69-85 | an uploaded file downloads under its stored name from its path, or its original name when given |
| FileHandler.DownloadOfStored | js/file-handler.js:69-85 | a stored path downloads as its stored name, or as the original name when given |
| Reports.ReportOf | js/reports.js:24-57 | the report's total is the number of kept documents, never more than the list; with no bounds every document is kept |
| Reports.ReportRange | js/reports.js:25-35 | the kept documents are the list filtered by the date range, in order |
| Reports.ReportMembers | js/reports.js:25-35 | a document is kept exactly when it is in the list and in range; with a bound, only documents with a parsable date are kept |
| Reports.UnparsableBoundKeepsNothing | js/reports.js:28-35 | an unparsable bound (a NaN date) keeps no document |
| Reports.ReportCounts | js/reports.js:38-55 | the type and status counts each count every kept document once and add up to the total; incoming + outgoing never exceed it |
| Reports.OtherBucket | js/reports.js:39 | a document counts under 'other' exactly when its type is missing, empty or 'other' |
| Reports.ReportTypeIgnored | js/reports.js:24-57 | the report type argument has no effect on the result |
| Reports.ReportManager.constructor | js/reports.js:5-7 | the manager holds the given list |
| Reports.ReportManager.CalculateReportData | js/reports.js:24-57 | the result is the report of the held list, and the held list is unchanged |
| Reports.ReportManager.UpdateReportData | js/reports.js:147-149 | the held list is replaced |
| Charts.TypeKey | js/charts.js:37 | the bucket is `document_type`, else `documentType`, else 'other' |
| Charts.CountTypes | js/charts.js:35-39 | the counting loop builds the tally of the documents' bucket keys |
| Charts.TypeChartCounts | js/charts.js:35-42 | one positive count per key, labels and data aligned, each key's count its number of documents, the total the list length |
| Charts.MonthKeys | js/charts.js:93-95 | one month key per document |
| Charts.MonthKeyShape | js/charts.js:94-95 | the key is the year, a dash, and the two-digit month reading back as the month |
| Charts.TwoDigitsOrder | js/charts.js:95-108 | two-digit months compare as text as they do as numbers |
| Charts.MonthKeysInYearOrder | js/charts.js:95-108 | within a year the keys sort in month order |
| Charts.Tick | js/charts.js:101-105 | each document adds one to exactly one of its month's two counters |
| Charts.MonthlyData | js/charts.js:92-106 | the loop yields the keys in first-seen order and the per-month buckets |
| Charts.FirstSeenKeys | js/charts.js:92-108 | the keys of the monthly object are distinct and are exactly the months that occur |
| Charts.MonthlyCounts | js/charts.js:92-106 | each month's bucket holds that month's incoming and other documents; months that do not occur have none |
| Charts.MonthlySum | js/charts.js:92-106 | every document is counted exactly once over all months |
| Charts.MonthlyStep | js/charts.js:96-105 | one loop step: the document's month gets a bucket (new at 0/0 if unseen) ticked once, and an unseen key is added last |
| Charts.SumBump | js/charts.js:96-105 | one step raises the grand total by one |
| Charts.IncomingSeries | js/charts.js:109 | one incoming value per month |
| Charts.OutgoingSeries | js/charts.js:110 | one outgoing value per month |
| Charts.TrendChartAligned | js/charts.js:108-110 | months strictly ascending, exactly those that occur, and both series index-aligned with them, holding each month's counts |
| Charts.SeriesCount | js/charts.js:109-110 | each series value is the count of its month |
| Charts.TrendChartTotal | js/charts.js:92-110 | the chart's months account for every document |
| Charts.ChartManager.constructor | js/charts.js:4-8 | the given list or the empty list, and no charts |
| Charts.ChartManager.InitializeTypeChart | js/charts.js:30-69 | the type chart is drawn from the counts when its element and the library exist; nothing else changes |
| Charts.ChartManager.InitializeTrendChart | js/charts.js:87-147 | the trend chart is drawn from the months when its element and the library exist |
| Charts.ChartManager.SetupCharts | js/charts.js:10-28 | charts are drawn only for a non-empty list |
| Charts.ChartManager.UpdateCharts | js/charts.js:168-184 | the list is replaced, both charts reset, and drawn again only for a non-empty list |
| ScriptBackup.DeadlineDays | script-backup.js:279-282 | a day count exists only for a document with a parsable camelCase deadline |
| ScriptBackup.BucketWindows | script-backup.js:278-290 | overdue means a full day or more past the deadline, near means from one day ago (exclusive) to three days ahead; completed documents are neither, and thanks to the else-if no document is both |
| ScriptBackup.StatisticsBounds | script-backup.js:269-293 | incoming + outgoing and overdue + near each stay within the list |
| ScriptBackup.StatisticsOfPermutation | script-backup.js:269-293 | the counts do not depend on the order of the list |
| ScriptBackup.NoticeOf | script-backup.js:771-791 | a document gets a notice exactly when it is overdue or near; the notice is "overdue" or "upcoming" accordingly and names the document |
| ScriptBackup.NoticesMatchStatistics | script-backup.js:768-799 | the notice list is as long as overdue + near in the statistics, and names only listed documents |
| ScriptBackup.BackupDocDataSpec | script-backup.js:192-225 | the saved object keeps the edited id, status and creation time (new: the `Date.now()` id, its own creation-time reading, 'pending' for incoming, else 'draft'), takes its direction's fields, and has an attachment exactly when a file was chosen |
| ScriptBackup.FilterDocumentsSpec | script-backup.js:643-663 | kept documents are of the direction, match the keyword (not the notes), the exact status and the exact `documentType`; every document meeting all of them is kept |
| ScriptBackup.AdvancedSearchIsAnd | script-backup.js:684-730 | the advanced search keeps, in order, exactly the documents meeting every non-empty criterion |
| ScriptBackup.DateBoundsInclusive | script-backup.js:711-717 | a document's own date passes both bounds |
| ScriptBackup.NotesOnlyInAdvancedSearch | script-backup.js:647-705 | a keyword found only in the notes is found by the advanced search and not by the list filter |
| ScriptBackup.JsNumber | script-backup.js:989-1001 | the number a period part converts to is never negative, and the empty text is 0 |
| ScriptBackup.CeilDiv3 | script-backup.js:997-998 | `Math.ceil(n / 3)` is the `q` with `3q-3 < n ≤ 3q` |
| ScriptBackup.QuarterOfMonth | script-backup.js:997-998 | months 1-12 fall in quarters 1-4, the first quarter being months 1-3 and the last 10-12 |
| ScriptBackup.PeriodDocuments | script-backup.js:986-1003 | the period filter keeps only documents of the list |
| ScriptBackup.CalculateReportData | script-backup.js:983-1021 | the total is the number kept, all from the list; with no period every document is kept |
| ScriptBackup.ReportTotals | script-backup.js:1005-1020 | the type and status counts each count every kept document once under its key ("undefined" when missing) and add up to the total |
| ScriptBackup.OtherReportTypeKeepsAll | script-backup.js:1001-1002 | a report type other than monthly, quarterly or yearly keeps every document |
| ScriptBackup.QuarterlyWindow | script-backup.js:995-999 | a quarterly report keeps exactly the documents of that year dated in the quarter's three months |
| ScriptBackup.LabelCell | script-backup.js:1226-1262 | a key without a label is shown as it is, a missing key as an empty cell |
| ScriptBackup.Quoted | script-backup.js:1107-1111 | a quoted cell starts and ends with `"` |
| ScriptBackup.QuotedReadsBack | script-backup.js:1107-1111 | the quoted cell's inside has its quotes paired, and undoubling gives the original text |
| ScriptBackup.CsvFields | script-backup.js:1104-1112 | seven cells per row, matching the seven header columns |
| ScriptBackup.CsvLinesSnoc | script-backup.js:1103-1114 | one loop step appends exactly the next row and a newline |
| ScriptBackup.LaterCellsCommaFree | script-backup.js:1104-1112 | when the raw texts hold no comma, no cell after the number holds one |
| ScriptBackup.CsvRowSplits | script-backup.js:1104-1112 | then the row splits on commas back into its seven cells |
| ScriptBackup.CommaInNumberAddsColumn | script-backup.js:1105 | a comma in the unquoted number splits the row into eight cells, shifting every later column |
| ScriptBackup.DocumentManager.constructor | script-backup.js:3-16 | the stored list (none is empty), re-sorted by creation time; the notices and the badge computed for it |
| ScriptBackup.DocumentManager.CalculateStatistics | script-backup.js:269-293 | the counts are the statistics of the list |
| ScriptBackup.DocumentManager.UpdateDashboard | script-backup.js:254-297 | the badge shows overdue + near; drawing the recent documents sorts the list in place by creation time |
| ScriptBackup.DocumentManager.CheckNotifications | script-backup.js:768-799 | the notices are those of the list; the badge shows their number and is shown exactly when there is one |
| ScriptBackup.DocumentManager.OpenDocumentModal | script-backup.js:154-156 | records the direction and clears the edited document |
| ScriptBackup.DocumentManager.EditDocument | script-backup.js:575-601 | an unknown id changes nothing; otherwise the direction is recorded but the edited document ends cleared |
| ScriptBackup.DocumentManager.EditDocumentCorrected | script-backup.js:575-601 | the intended edit: the document stays recorded as the edited one |
| ScriptBackup.DocumentManager.SaveDocument | script-backup.js:192-252 | an edit replaces the edited id's document, a new document is appended |
| ScriptBackup.DocumentManager.DeleteDocument | script-backup.js:608-636 | an unknown id or a refusal changes nothing; otherwise the id's documents go, the rest are re-sorted and the notices and badge recomputed |
| ScriptBackup.DocumentManager.ExportReport | script-backup.js:1094-1124 | the file is a byte-order mark, the header and one line per reported document |
| ScriptBackup.CsvContent | script-backup.js:1101-1114 | the loop builds the header followed by one line per document |
| ScriptBackup.RefreshAgrees | script-backup.js:254-267 | after a refresh the badge equals both overdue + near and the notice count |
| ScriptBackup.DeleteKeepsOthers | script-backup.js:608-630 | after deleting, exactly the documents with other ids remain, none more often than before, in creation order |
| ScriptBackup.EditThenSave | script-backup.js:575-601 | editing then saving appends a new document with the clock's id and keeps the old one |
| ScriptBackup.EditThenSaveCorrected | script-backup.js:192-247 | with the edit kept, saving keeps the length and ids and holds the new version |
| SearchService.Opt | js/search-service.js:71-76 | a conditional `append` adds at most one parameter |
| SearchService.PutParam | js/search-service.js:68-76 | after appending a present value its key reads back as that value, and other keys are unchanged |
| SearchService.QueryMapOpt | js/search-service.js:68-76 | the query the server reads from the parameters grows by exactly the appended key |
| SearchService.RankedOpt | js/search-service.js:71-76 | appending in the fixed key order keeps the parameters in that order |
| SearchService.NonEmpty | js/search-service.js:15-75 | a value is sent exactly when it is truthy, and then unchanged and non-empty |
| SearchService.TrimmedText | js/search-service.js:71-76 | the keyword and organisation are sent exactly when not blank, and then trimmed |
| SearchService.Sent6Map | js/search-service.js:68-76 | six conditional appends give the query of six conditional puts |
| SearchService.Sent6Reads | js/search-service.js:68-76 | with distinct keys each key reads back as its own value |
| SearchService.Sent6Ranked | js/search-service.js:71-76 | six appends in increasing key order stay in that order |
| SearchService.AppendIfSet | js/search-service.js:71-76 | `if (v) params.append(key, v)`: a present value is appended last, an absent one changes nothing |
| SearchService.AdvancedParams | js/search-service.js:68-76 | the parameter list is built in the order search, type, status, date_from, date_to, organization, each only when set |
| SearchService.PerformAdvancedSearch | js/search-service.js:61-97 | those parameters are sent; the reply's rows are returned, and a failure returns none |
| SearchService.AdvancedQuerySent | js/search-service.js:68-76 | the server reads each criterion as sent (the keyword and organisation trimmed, blanks absent), no `id`, in the fixed order |
| SearchService.AdvancedSearchRoute | js/search-service.js:68-82 | the server lists everything when no criterion is set, otherwise searches with exactly the sent criteria |
| SearchService.Sent4Map | js/search-service.js:14-18 | four conditional appends give the query of four conditional puts |
| SearchService.Sent4Reads | js/search-service.js:14-18 | with distinct keys each key reads back as its own value |
| SearchService.FilterQueryRoute | js/search-service.js:14-21 | `document_type` is sent only for the 'documentType' filter; the server searches by keyword, direction and status only, or lists everything when none is set |
| SearchService.DocumentTypeFilterIgnored | js/search-service.js:18 | the server answers a 'documentType' filter exactly as it answers no filter |
| SearchService.DisplayResults | js/search-service.js:40-58 | no table body: nothing drawn; no results: the single "not found" row; otherwise the rows of the requested direction, in order |
| SearchService.ShownRowsExact | js/search-service.js:53-57 | the drawn rows are exactly the results of the requested direction, as many as there are such results, and never the "not found" row |
| SearchService.FilterDocuments | js/search-service.js:9-37 | the filter's parameters are sent; a failure returns no rows and draws nothing; otherwise the reply's rows are returned and displayed |
| SearchService.DisplaySearchResults | js/search-service.js:100-135 | no container: nothing; no results: the notice; otherwise one row per result, in order |
| DomBuilder.ResolveAttachment | js/dom-builder.js:14-35 | a file is linked exactly when the row's test holds, which is also the preview's test; the name and path are then non-empty, the database columns win, and in the legacy object `filePath` wins over `path` |
| DomBuilder.DbColumnsWin | js/dom-builder.js:25-35 | with both database columns set, the legacy object makes no difference |
| DomBuilder.UrgencyClasses | js/dom-builder.js:122-123 | 'overdue' exactly for a negative day count, 'urgent' exactly for 0 or 1, 'normal' otherwise (a NaN count included) |
| DomBuilder.UrgencyTextMatchesClass | js/dom-builder.js:122-128 | the "Quá hạn" text goes exactly with the overdue class, and "Hôm nay" exactly with a count of 0, which is urgent |
| DomBuilder.UrgencyTextInjective | js/dom-builder.js:125-128 | distinct day counts give distinct texts |
| DomBuilder.Responsible | js/dom-builder.js:131-136 | the person in charge, else the sending department, else "Không rõ"; never empty |
| DomBuilder.CardDepartment | js/dom-builder.js:109 | the sender, else the receiver, else "N/A"; never empty |
| DomBuilder.RowDepartment | js/dom-builder.js:52-71 | an incoming row shows the sender column, an outgoing row the receiver column, or nothing |
| DomBuilder.ShownTags | js/dom-builder.js:218-229 | the tag block is shown only with at least one tag |
| DomBuilder.ShownTagsTrimmed | js/dom-builder.js:223-225 | comma-separated tag text is shown as trimmed tags |
| DomBuilder.JoinNonEmpty | js/dom-builder.js:218-225 | joining tags that start with a non-empty one gives non-empty text |
| DomBuilder.TrimAllTrimmed | js/dom-builder.js:223-225 | trimming tags that are already trimmed changes nothing |
| DomBuilder.ShownTagsJoin | js/dom-builder.js:218-229 | tags stored as text joined by "," preview exactly as the same tags stored as an array |
| DomBuilder.Parties | js/dom-builder.js:191-216 | the preview always names two parties, with a placeholder for each missing one |
| DomBuilder.PreviewOf | js/dom-builder.js:154-157 | a missing document gives exactly the error alert |
| DomBuilder.PreviewDeadline | js/dom-builder.js:191-205 | only an incoming preview has a deadline cell: "Không có" without a deadline, the text as written when unparsable, else dd/mm/yyyy |
| DomBuilder.PreviewDefaults | js/dom-builder.js:174-185 | the preview links the same file as the row, and shows "Khác", "Bình thường" and the unknown status text when those fields are missing |
| ScriptFixed.SampleDocuments | script-fixed.js:302-334 | two seed documents, an incoming pending one and an outgoing draft, each stamped with its own clock readings; the ids differ whenever the clock has not run backwards |
| ScriptFixed.DeleteRemovesExactly | script-fixed.js:247-270 | deleting keeps exactly the documents with other ids, none more often than before; a missing id changes nothing, a present one shortens the list |
| ScriptFixed.DocumentManager.constructor | script-fixed.js:3-16 | the stored list (none is empty), no edited document, the direction 'incoming' |
| ScriptFixed.DocumentManager.OpenDocumentModal | script-fixed.js:124-127 | records the direction and clears the edited document |
| ScriptFixed.DocumentManager.PreviewDocument | script-fixed.js:156-168 | a missing document changes nothing; otherwise it becomes the current one |
| ScriptFixed.DocumentManager.EditDocument | script-fixed.js:205-245 | an unknown id changes nothing; otherwise only the direction survives, the edited document ends cleared |
| ScriptFixed.DocumentManager.EditCurrentDocument | script-fixed.js:389 | with no current document it throws and changes nothing; otherwise it edits that document's id, which changes nothing when the id is no longer in the list |
| ScriptFixed.DocumentManager.DeleteCurrentDocument | script-fixed.js:390 | with no current document it throws and changes nothing; otherwise it deletes that document's id when confirmed and present, and the current document stays recorded |
| ScriptFixed.DocumentManager.DeleteDocument | script-fixed.js:247-270 | an unknown id or a refusal changes nothing; otherwise the id's documents go |
| ScriptFixed.DocumentManager.AddSampleData | script-fixed.js:302-337 | nothing when documents exist; otherwise the list becomes the two seed documents |
| ScriptFixed.Start | script-fixed.js:433-443 | the page starts from the stored list, or from the seed documents when it is empty |
| ScriptFixed.PreviewThenEdit | script-fixed.js:156-245 | preview then "edit current" opens the form with no edited document, so a second "edit current" throws |
| ScriptBroken.StoredStatistics | script-broken.js:467-474 | incoming + outgoing, and pending + overdue, stay within the list |
| ScriptBroken.CountPair | script-broken.js:467-474 | a count over two documents adds their two tests |
| ScriptBroken.StoredOverdueIgnoresDeadline | script-broken.js:467-474 | "overdue" follows the stored status alone: a late pending document is not counted, and a document marked overdue without a deadline is, the opposite of the deadline count |
| ScriptBroken.DocumentManager.constructor | script-broken.js:5-26 | the stored list, no edited document, 'incoming'; the counters and, when present, the badge drawn for it |
| ScriptBroken.DocumentManager.UpdateDashboard | script-broken.js:452-465 | the counters become the stored-status counts |
| ScriptBroken.DocumentManager.CheckNotifications | script-broken.js:553-561 | the badge, when present, shows the number of documents marked overdue |
| ScriptBroken.DocumentManager.OpenDocumentModal | script-broken.js:171-175 | records the direction and clears the edited document |
| ScriptBroken.DocumentManager.EditDocument | script-broken.js:252-292 | an unknown id changes nothing; otherwise only the direction survives |
| ScriptBroken.DocumentManager.DeleteDocument | script-broken.js:294-317 | an unknown id or a refusal changes nothing; otherwise the id's documents go and the counters and badge agree with the list |
| ScriptBroken.DocumentManager.AddSampleData | script-broken.js:349-384 | nothing when documents exist; otherwise the seed documents, with no redraw |
| ScriptBroken.StartEmpty | script-broken.js:637-647 | on an empty store the counters still show zeros while the seeded list counts 1, 1, 1, 0 |
| ScriptBroken.SampleStatistics | script-broken.js:349-384 | the seed documents count one incoming, one outgoing, one pending, none overdue |

## Left out

- Markup: HTML templating, table rows, cards, modals, toasts, loading overlays, navigation and event binding. Each builder is modelled by the data it shows.
- DomBuilder.PreviewOf: the issue date and the created and updated times of the preview (`js/dom-builder.js` lines 168 and 291-292) are left out. They only pass the document's fields through `formatDate` and `formatDateTime`, which are modelled on their own.
- Chart drawing with Chart.js and the HTML fallback chart: only the aggregation that feeds them is modelled, and whether the page has a canvas and the library is a parameter.
- Database I/O: the PDO connection and statement execution. The table is a sequence of rows, and a PDO failure is a boolean parameter.
- MySQL `LIKE`: collation is a case-folding parameter, and `%` or `_` inside a search term are not treated as wildcards.
- Network I/O: `fetch` replies and failures are parameters (`js/search-service.js`, the save in `js/document-manager.js`). The `loadDocuments`, `deleteDocument`, `saveDocumentToAPI` and `handleFileUpload` methods of `js/document-manager.js` are network round trips and are not modelled. Neither are `checkFileExists` and `checkFileDownloadable` in `js/file-handler.js`, which are HEAD requests.
- Browser services: `localStorage` is the list passed to a constructor. `confirm` is a boolean parameter. `setTimeout`, the Blob download of the CSV export and URL percent-encoding of query strings are not modelled.
- Server services: `time()` is a parameter, and the success of `move_uploaded_file` is one too. `mkdir` is not modelled.
- Floating point: `formatFileSize`, which uses `Math.log`, and the report and chart percentages, which use `toFixed`.
- Dates: parsing and time zones of `new Date` are a parser parameter, and the clock is an integer number of milliseconds.
- ScriptBackup.JsNumber: only the empty text and decimal digits are read. Whitespace, signs, decimal fractions (`Number("7.0")` is 7), exponents and hexadecimal, binary and octal prefixes, which `Number` also accepts, give NaN in the model.
- Sorting.Sort: a key the comparator cannot order (a NaN date) is placed last. JavaScript leaves that order to the engine.
- Formatters.Lookup: the label tables are JavaScript objects, so a key naming an `Object.prototype` member (`constructor`, `toString`) finds the inherited function where the model gives the fallback. The same holds for ScriptBackup.LabelCell. For every other key the model's answer is the source's.
- Tally.TallyOfCounts: the counters are JavaScript objects too. For a key naming an inherited member, `(acc[k] || 0) + 1` starts from that member: `toString` gives a string instead of a count, and `__proto__` makes no own key, so the item is missing from the chart or report. The same holds for Tally.Bump, Reports.ReportCounts and ScriptBackup.ReportTotals. The counts are exact for every other key.
- Reports.ReportCounts: a document field is absent or present, so a status that the API returns as JSON `null` is keyed "undefined", where `acc[doc.status]` uses the key "null". The counts and labels are the same; only the key text differs.
- Sorting.SortCorrect: the order among elements of equal rank is not stated. JavaScript's sort keeps their input order, which the insertion also does; the contract does not promise it.
- Common.StrLt: characters are Unicode scalar values, so text outside the Basic Multilingual Plane orders by scalar value, not by UTF-16 code unit as in JavaScript.
- DocumentsApi.SqlIdValue: an exponent after the digits (`5e1`) is ignored, where MySQL reads 50. The text is read exactly, where MySQL goes through a double and rounds numbers beyond its precision.
- Tally: object keys are kept in insertion order. JavaScript puts integer-like keys first, and the model does not.
- The type, status and priority label tables written inside `script-fixed.js` (lines 345-376) and `script-broken.js` (lines 392-423) are used only in markup and are not modelled. They differ from those of `js/formatters.js`: they label 'pending' as "Chờ xử lý" and fall back to the key itself, where `js/formatters.js` falls back to "Khác" for a type and to "Không xác định" for a status or a priority.
- The empty stub methods of `script-fixed.js` (lines 379-388 and 391-392) and its `previewDocument` markup. The preview, "edit current" and "delete current" paths of `script-broken.js` are the same as in `script-fixed.js`, and only its edit, delete and seeding are modelled there.
- `script-broken.js` does not parse: the `try` opened at line 30 has no `catch` or `finally`. Its methods are modelled as they read.
- `js/api.js`, `js/document-service.js`, `js/ui-utils.js`, `js/main.js` and `debug.js` are not part of this model.
- The overdue and near-deadline buckets of `js/document-manager.js` and `js/notifications.js` overlap: for a deadline passed less than a day ago, both tests hold. The model follows the code here, while the separate `script-backup.js` buckets stay disjoint.

## Findings

| source | as written | input that shows it | evidently intended | confidence | as-written member | corrected member |
|---|---|---|---|---|---|---|
| js/document-manager.js:186-189 | pending tasks read the camelCase key `processingDeadline`, while rows from the API carry `processing_deadline` | one pending row from the API whose `processing_deadline` is "2025-07-03": the task list is empty | read `processing_deadline`, falling back to `processingDeadline`, as the statistics at line 101 do | not executed | DocumentManager.PendingTasksCounterexample | DocumentManager.PendingTasksCorrectedNonEmpty |
| script-backup.js:575-601, 154-156 | `editDocument` records the document and then calls `openDocumentModal`, which clears it again and resets the form, so saving appends a new document, built from the re-entered form, under a new id and keeps the old one | edit an existing document, then save the form | the save replaces the edited document in place | not executed | ScriptBackup.EditThenSave | ScriptBackup.EditThenSaveCorrected |
