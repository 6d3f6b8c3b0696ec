# Technology tracker — a Dafny model

The technology tracker is a React application for following a learning
roadmap. Each topic ("technology") has an id, a title, a description, a
status (`not-started`, `in-progress` or `completed`), free-text notes and
a few optional members (category, language, GitHub statistics, resources).
The application keeps two catalogues:

- A local catalogue held by the `useTechnologies` hook. It is saved in the
  browser's `localStorage` under `techTrackerData` and seeded with eight
  React topics.
- An API catalogue held by `useTechnologiesApi`. It is fetched from the
  GitHub search API, saved under `apiTechnologies`, and extended by hand,
  deleted from, merged into, exported and imported.

Pages and components read these catalogues. They include:

- the status cards, which cycle a topic's status when clicked;
- the progress banner;
- the statistics page, which tallies categories;
- the settings page, which exports JSON or CSV, imports, clears and resets;
- the advanced search panel;
- the stand-alone roadmap page `App.js`, which has its own list, status
  filter, progress and recommendation.

This project models these parts in Dafny:

- **Values and pure computations** become datatypes and functions: records,
  statuses, filters, counts, percentages, CSV text, error classification
  and category lookup.
- **Components and hooks whose state React updates** become classes with
  `modifies` clauses: the two hooks, the settings page, the search panel
  and the roadmap page.
- **The local statistics tally** is written as a reduce that mutates its
  accumulator. It becomes a method with loops, proved against a recursive
  specification function.

Modules, one per source file plus shared helpers:

- `Sequences`: order-preserving filters, duplicate removal, sums.
- `Text`: ASCII case folding, substring search, joining and splitting, decimal numbers, CSV quoting.
- `Catalog`: the record type and the operations both hooks share.
- `BrowserStorage`: `useLocalStorage`'s read.
- `UseTechnologies`, `ApiService`, `UseTechnologiesApi`.
- `TechnologyCard`, `ProgressHeader`, `StatisticsPage`, `Settings`, `App`,
  `AdvancedSearch`.

Environment inputs are parameters of the operations that use them:

- `Math.random()` becomes a natural number `r`; the pick is `r % n`, which
  stands for `Math.floor(Math.random() * n)`.
- The clock becomes a timestamp string.
- The browser's storage becomes a map from keys to stored items.
- A file's contents become an already-parsed `ImportedFile`.
- An HTTP response becomes a status code and an optional list of
  repositories.

## Model

| member | source | states |
|---|---|---|
| Catalog.Seed | src/hooks/useTechnologies.js:4-69 | a seeded topic has the given id, title, description and category, is not started and has empty notes |
| Catalog.OrElse | src/hooks/useTechnologiesApi.js:171 | `x \|\| fallback` on an optional string: the value when present and non-empty, otherwise the fallback |
| Catalog.CountStatus | src/hooks/useTechnologies.js:170-172 | the number of records with a status never exceeds the list's length |
| Catalog.CountStatusCons | src/hooks/useTechnologies.js:170-172 | counting over a list with one more record adds one exactly when that record has the status |
| Catalog.StatusCountsCover | src/hooks/useTechnologies.js:169-181 | the three status counts add up to at most the total, and to exactly the total iff every status is one of the three known ones |
| Catalog.MatchesText | src/hooks/useTechnologies.js:199-202 | the local search test: the empty query matches every record |
| Catalog.MatchesTextOrLanguage | src/hooks/useTechnologiesApi.js:181-187 | the API search test: anything the title-or-description test matches, and for a record without a language exactly what that test matches |
| Catalog.EmptyQueryMatchesAll | src/hooks/useTechnologiesApi.js:181-188 | the empty query matches every record (every string includes "") |
| Catalog.EmptyQueryKeepsAll | src/hooks/useTechnologies.js:198-204 | searching for "" returns the whole list, for both search tests |
| Catalog.RoundedPercent | src/hooks/useTechnologies.js:162 | `Math.round(100·part/whole)` is the integer p with p − ½ ≤ 100·part/whole < p + ½, and at most 100 when part ≤ whole |
| Catalog.RoundedPercentZero | src/hooks/useTechnologies.js:162 | the rounded share is 0 iff less than half a percent is completed |
| Catalog.RoundedPercentFull | src/hooks/useTechnologies.js:162 | the rounded share reaches 100 iff at least 99.5 percent is completed |
| Catalog.RoundedPercentMonotone | src/hooks/useTechnologies.js:162 | completing more never lowers the rounded share |
| Catalog.WithStatus | src/hooks/useTechnologies.js:86-92 | the map in `updateStatus`: same length; every record with the id gets the new status, every other member and record is unchanged |
| Catalog.WithNotes | src/hooks/useTechnologies.js:99-105 | the map in `updateNotes`: only the notes of records with the id change |
| Catalog.AllWithStatus | src/hooks/useTechnologies.js:110-117 | every record gets the status and nothing else changes |
| Catalog.WithStatusAbsent | src/hooks/useTechnologies.js:86-92 | updating an id that no record has leaves the list unchanged |
| Catalog.StatusChangesKeepIds | src/hooks/useTechnologies.js:86-129 | status updates keep every id in place, so distinct ids stay distinct |
| Catalog.WithStatusIdempotent | src/hooks/useTechnologies.js:86-92 | setting the same status twice equals setting it once |
| Catalog.WithNotesKeepsIds | src/hooks/useTechnologies.js:99-105 | editing notes keeps every id, so distinct ids stay distinct |
| Catalog.WithStatusAppend | src/hooks/useTechnologies.js:86-92 | the status update distributes over concatenation |
| Catalog.CountStatusAppend | src/hooks/useTechnologies.js:170-172 | counts add over concatenation |
| Catalog.WithStatusAt | src/hooks/useTechnologies.js:86-92 | with distinct ids, updating the id of record k changes record k alone |
| Catalog.WithStatusMovesOne | src/hooks/useTechnologies.js:134-151 | moving one record to a new status raises that count by one, lowers its old status's count by one, and leaves the rest |
| Catalog.AllWithStatusCounts | src/hooks/useTechnologies.js:110-129 | after marking all with a status, its count is the total and any other status's count is 0 |
| Catalog.RandomPick | src/hooks/useTechnologies.js:134-151 | the picked topic is in the list and not completed; there is no pick iff every topic is completed |
| Catalog.CompletedComplement | src/hooks/useTechnologies.js:143 | the not-completed records and the completed ones partition the list |
| Catalog.RandomPickPrefersNotStarted | src/hooks/useTechnologies.js:135-141 | while some topic is not started, every draw picks a not-started one, and each of them is picked by some draw |
| Catalog.RandomPickFallback | src/hooks/useTechnologies.js:142-150 | with nothing not started but something unfinished, a topic is picked, and with known statuses it is one already in progress |
| Catalog.RandomPickEffect | src/hooks/useTechnologies.js:134-151 | the pick never changes the completed count; if something was not started, exactly one topic moves from not started to in progress; otherwise (known statuses) nothing changes |
| Catalog.AfterRandomPick | src/hooks/useTechnologies.js:134-151 | the list keeps its length and every member but the status; without a pick it is unchanged; with one, exactly the records carrying the picked id are in progress |
| Catalog.FirstNotStarted | src/hooks/useTechnologies.js:135 | when the count is positive, a not-started record exists |
| Catalog.WithStatusNoChange | src/hooks/useTechnologies.js:142-150 | re-setting a record's own status changes nothing |
| Catalog.ImportedList | src/hooks/useTechnologiesApi.js:134 | the import test `data.technologies && Array.isArray(...)`: a list exactly when the document parsed and its `technologies` member is an array |
| BrowserStorage.ReadOrDefault | src/hooks/useLocalStorage.js:10-26 | the saved list when the key holds a parsable value, otherwise the initial value |
| BrowserStorage.ReadIgnoresOtherKeys | src/hooks/useLocalStorage.js:13 | writing or removing any other key leaves what the hook reads unchanged |
| UseTechnologies.InitialTechnologies | src/hooks/useTechnologies.js:4-69 | eight topics with ids 1–8, not started, empty notes, category `frontend`, the listed titles and descriptions |
| UseTechnologies.LoadCatalog | src/hooks/useTechnologies.js:77 | the saved list under `techTrackerData` when one is stored, otherwise the eight topics |
| UseTechnologies.TechnologiesHook.constructor | src/hooks/useTechnologies.js:77 | the hook starts from the saved catalogue under `techTrackerData`, or the eight topics |
| UseTechnologies.TechnologiesHook.UpdateStatus | src/hooks/useTechnologies.js:86-92 | the new list is the status update of the old one; distinct ids stay distinct |
| UseTechnologies.TechnologiesHook.UpdateNotes | src/hooks/useTechnologies.js:99-105 | the new list is the notes update of the old one; distinct ids stay distinct |
| UseTechnologies.TechnologiesHook.MarkAllCompleted | src/hooks/useTechnologies.js:110-117 | afterwards every topic is completed and the length is unchanged |
| UseTechnologies.TechnologiesHook.ResetAllStatuses | src/hooks/useTechnologies.js:122-129 | afterwards every topic is not started and the length is unchanged |
| UseTechnologies.TechnologiesHook.SelectRandomTechnology | src/hooks/useTechnologies.js:134-151 | the list becomes the one after the random pick; with distinct ids the completed count is unchanged |
| UseTechnologies.CalculateProgress | src/hooks/useTechnologies.js:159-163 | 0 for an empty list; otherwise the rounded completed share, at most 100, 0 when nothing is completed and 100 when everything is |
| UseTechnologies.GetStatistics | src/hooks/useTechnologies.js:169-181 | total is the length; the three counts add up to the total iff all statuses are known; progress ≤ 100 and 0 for an empty list |
| UseTechnologies.GetTechnologiesByStatus | src/hooks/useTechnologies.js:188-191 | `all` returns the list; a status returns, in order, exactly the records with it, as many as the count |
| UseTechnologies.SearchTechnologies | src/hooks/useTechnologies.js:198-204 | in order, exactly the records whose lower-cased title or description contains the lower-cased query; "" returns everything |
| UseTechnologies.SearchIgnoresQueryCase | src/hooks/useTechnologies.js:199 | a query and its lower-case form find the same records |
| ApiService.NormalizeLanguage | src/services/api.js:9-12 | the language searched is always one of the eight valid ones: the lower-cased query if valid, otherwise `javascript` |
| ApiService.NormalizeLanguageIdempotent | src/services/api.js:9-12 | normalising a normalised language changes nothing |
| ApiService.NormalizeLanguageExamples | src/services/api.js:9-12 | `ruby` falls back to `javascript`; `Python` becomes `python` |
| ApiService.Category | src/services/api.js:68-80 | `frontend` iff javascript/typescript, `backend` iff python/java/go/rust/csharp, `systems` iff cpp, else `other` |
| ApiService.CategoryOfNormalized | src/services/api.js:48 | a fetched record's category is never `other` |
| ApiService.RepoToTechnology | src/services/api.js:42-57 | each member of the mapped record: id or position + 1, capitalised name, description or the placeholder, not started, empty notes, the category, language or the searched one, the GitHub statistics, source github, no resources |
| ApiService.MapRepos | src/services/api.js:42-57 | one record per repository, in order, each mapped with its position |
| ApiService.MapReposAllNotStarted | src/services/api.js:46 | every fetched record is not started, so none is completed |
| ApiService.MapReposUniqueIds | src/services/api.js:43 | distinct non-zero repository ids give distinct record ids |
| ApiService.MapReposPositionIds | src/services/api.js:43 | repositories without an id get ids 1, 2, … and so distinct ids |
| ApiService.ErrorFor | src/services/api.js:24-32 | a failed status gives the rate-limit error iff 403, the validation error (naming the language) iff 422, otherwise the status error |
| ApiService.ErrorMessage | src/services/api.js:24-40 | a transport error keeps its own message; the validation message ends with the language; the status message starts with `API ошибка: `; the no-repositories message contains the language |
| ApiService.LoadTechnologies | src/services/api.js:4-65 | transport failures pass through; failed statuses are classified; a missing or empty item list is an error; success iff the status is OK and items are non-empty, and then the records are the mapped items |
| ApiService.LoadedRecordsAreFresh | src/services/api.js:42-57 | a successful load has as many records as items, all not started, all with source github |
| ApiService.PopularResources | src/services/api.js:117-137 | non-empty iff the lower-cased name is react, javascript, typescript or python, and then that name's list |
| ApiService.PopularResourcesIgnoresCase | src/services/api.js:135 | the lookup ignores the case of the name |
| Text.LowerChar | src/hooks/useTechnologies.js:199 | an upper-case ASCII letter becomes the lower-case letter 32 code points above it; every other character stays |
| Text.UpperChar | src/pages/Settings.js:55 | a lower-case ASCII letter becomes the upper-case letter 32 code points below it; every other character stays |
| Text.ToLower | src/hooks/useTechnologies.js:199 | same length, each character folded by `LowerChar`: upper-case ASCII letters become their lower-case letters, every other character unchanged |
| Text.ToUpper | src/pages/Settings.js:55 | same length, each character folded by `UpperChar`: lower-case ASCII letters become their upper-case letters, every other character unchanged |
| Text.ToLowerIdempotent | src/hooks/useTechnologies.js:199-202 | lower-casing twice equals lower-casing once |
| Text.IncludesIffOccurs | src/hooks/useTechnologies.js:201-202 | `includes` holds iff the query occurs at some position |
| Text.Capitalize | src/services/api.js:44 | same length; the first character is the upper-case form of the original first character and the rest is unchanged |
| Text.JoinSeparatorCount | src/pages/Settings.js:39-42 | joining n parts that avoid a separator character puts exactly n − 1 of it in the result |
| Text.JoinAvoids | src/pages/Settings.js:39-42 | a character in neither the parts nor the separator is not in the join |
| Text.Split | src/pages/Settings.js:39-42 | the reader of a joined text: `split` at a character yields at least one piece |
| Text.SplitPrefix | src/pages/Settings.js:39-42 | a separator-free prefix becomes part of the first piece |
| Text.SplitJoin | src/pages/Settings.js:39-42 | splitting a join at its separator character gives back every part, in order, when no part contains that character |
| Text.SplitJoinParts | src/pages/Settings.js:39-42 | the same round trip for a non-empty list of separator-free parts, by induction over the parts |
| Text.DigitChar | src/pages/Settings.js:32 | a digit character whose value is the digit |
| Text.NatToString | src/pages/Settings.js:32 | decimal digits only, at least one, with a leading `0` only for 0 itself |
| Text.NatToStringReadsBack | src/pages/Settings.js:32 | the digits written spell the number back under an independent digit reader |
| Text.IntToString | src/pages/Settings.js:32 | a non-empty decimal text, starting with `-` iff negative, with no quote, comma or newline, which the independent reader `ReadInt` reads back as the number |
| Text.DoubleQuotes | src/pages/Settings.js:36 | `replace(/"/g, '""')` never shortens the text |
| Text.DoubleQuotesAvoids | src/pages/Settings.js:36 | doubling quotes adds no character other than `"` |
| Text.Quoted | src/pages/Settings.js:33-36 | the cell is the text between two quote characters |
| Text.ReadQuotedCell | src/pages/Settings.js:33-36 | a cell is read back only when it starts and ends with a quote |
| Text.UndoubleDoubleQuotes | src/pages/Settings.js:36 | undoubling the doubled text gives the text back |
| Text.QuotedDoubledRoundTrip | src/pages/Settings.js:36 | a quoted, quote-doubled cell reads back as the original text |
| Sequences.Filter | src/hooks/useTechnologies.js:190 | `filter`: never longer, every kept element comes from the input and passes the test |
| Sequences.FilterIsOrderedSelection | src/hooks/useTechnologies.js:190 | `filter` returns exactly the passing elements, in their original order |
| Sequences.FilterMember | src/hooks/useTechnologiesApi.js:183 | every passing element of the input is in the result |
| Sequences.FilterKeepsAll | src/App.js:121-124 | if every element passes, the result is the input |
| Sequences.FilterKeepsNone | src/services/api.js:46 | if no element passes, the result is empty |
| Sequences.FilterAgree | src/App.js:121-124 | two tests that agree on the elements filter alike |
| Sequences.FilterAppend | src/hooks/useTechnologies.js:190 | filtering distributes over concatenation |
| Sequences.Distinct | src/hooks/useTechnologiesApi.js:171 | `[...new Set(xs)]`: no duplicates, every element of the input appears, nothing else does |
| Sequences.DistinctFirstAppearanceOrder | src/hooks/useTechnologiesApi.js:171 | the set keeps elements in order of first appearance |
| Sequences.SumUpdate | src/pages/Statistics.js:13 | replacing one entry changes the sum by the difference |
| UseTechnologiesApi.ApplyPatch | src/hooks/useTechnologiesApi.js:99 | `{ ...tech, ...updates }`: for each of the fifteen members, the update's value when it carries one, otherwise the record's |
| UseTechnologiesApi.EmptyPatchIsIdentity | src/hooks/useTechnologiesApi.js:99 | an update that carries nothing leaves the record unchanged |
| UseTechnologiesApi.ApplyPatchIdempotent | src/hooks/useTechnologiesApi.js:99 | applying the same update twice equals applying it once |
| UseTechnologiesApi.MaxId | src/hooks/useTechnologiesApi.js:70 | `Math.max(...ids, 0)`: at least 0, at least every id, and either 0 or some record's id |
| UseTechnologiesApi.NextId | src/hooks/useTechnologiesApi.js:70 | `Math.max(...ids, 0) + 1`: at least 1, above every existing id, and either 1 or one more than an existing id (so exactly the maximum plus one); hence not taken |
| UseTechnologiesApi.NewRecord | src/hooks/useTechnologiesApi.js:69-76 | the new record's id is the supplied one or the next free one; title and description come from the input or are empty; category, language, resources, stars, forks, url, owner and update time are the input's; status, notes, creation time and source are forced |
| UseTechnologiesApi.AddKeepsIdsUnique | src/hooks/useTechnologiesApi.js:67-86 | adding a record without its own id keeps ids distinct |
| UseTechnologiesApi.WithoutId | src/hooks/useTechnologiesApi.js:90 | in order, exactly the records with another id; no record with the id remains; an absent id changes nothing; with distinct ids one record fewer |
| UseTechnologiesApi.RemoveIdFacts | src/hooks/useTechnologiesApi.js:90 | the same facts, stated for the filter directly |
| UseTechnologiesApi.RemoveUniqueLength | src/hooks/useTechnologiesApi.js:90 | with distinct ids, deleting a present id removes exactly one record |
| UseTechnologiesApi.UpdateMatching | src/hooks/useTechnologiesApi.js:97-100 | same length; records with the id are merged with the update, the others are unchanged |
| UseTechnologiesApi.UpdateAbsentIsNoOp | src/hooks/useTechnologiesApi.js:97-100 | updating an absent id changes nothing |
| UseTechnologiesApi.UpdateIdempotent | src/hooks/useTechnologiesApi.js:97-100 | repeating an update changes nothing more |
| UseTechnologiesApi.UpdateKeepsIds | src/hooks/useTechnologiesApi.js:97-100 | an update that does not carry an id keeps every id, so distinct ids stay distinct |
| UseTechnologiesApi.ApiTechnologiesHook.constructor | src/hooks/useTechnologiesApi.js:5-8 | no records, loading, no error, no last fetch |
| UseTechnologiesApi.ApiTechnologiesHook.Mount | src/hooks/useTechnologiesApi.js:42-64 | a non-empty saved list is taken over and loading ends; otherwise a fetch is requested and nothing changes |
| UseTechnologiesApi.ApiTechnologiesHook.FetchTechnologies | src/hooks/useTechnologiesApi.js:11-39 | a non-empty result replaces and saves the list, clears the error and stamps the fetch; an empty one sets the not-found error; a failure sets `Ошибка: ` and its message; loading always ends |
| UseTechnologiesApi.ApiTechnologiesHook.AddTechnology | src/hooks/useTechnologiesApi.js:67-86 | the new record is appended, returned and saved; ids stay distinct when the input has no id |
| UseTechnologiesApi.ApiTechnologiesHook.DeleteTechnology | src/hooks/useTechnologiesApi.js:89-94 | the list becomes the records with another id and is saved |
| UseTechnologiesApi.ApiTechnologiesHook.UpdateTechnology | src/hooks/useTechnologiesApi.js:97-104 | the list becomes the merged list and is saved |
| UseTechnologiesApi.ApiTechnologiesHook.ImportFromJson | src/hooks/useTechnologiesApi.js:128-151 | a reader failure, a parse failure and a bad shape each reject with their message and change nothing; an array replaces and saves the list and resolves with its length |
| UseTechnologiesApi.ExportDocument | src/hooks/useTechnologiesApi.js:107-112 | the exported document carries the time, the records and their number |
| UseTechnologiesApi.ExportJson | src/hooks/useTechnologiesApi.js:109-115 | the written object has exactly the members `exportedAt`, `count` and `technologies`, holding the time, the number and the array of records |
| UseTechnologiesApi.ExportImportRoundTrip | src/hooks/useTechnologiesApi.js:107-151 | the object an export writes passes the import's shape check, which brings back the same list, and its `count` member is the number the import resolves with |
| UseTechnologiesApi.GetStatistics | src/hooks/useTechnologiesApi.js:154-167 | the counts of each status, and the rounded completed share (0 for an empty list) |
| UseTechnologiesApi.StatisticsAgreeWithLocalHook | src/hooks/useTechnologiesApi.js:154-167 | both hooks compute the same statistics |
| UseTechnologiesApi.CategoryNames | src/hooks/useTechnologiesApi.js:171 | each record's category, or `другое` |
| UseTechnologiesApi.GetCategories | src/hooks/useTechnologiesApi.js:170-172 | every record's category (or `другое`) exactly once, nothing else, in order of first appearance |
| UseTechnologiesApi.GetTechnologiesByCategory | src/hooks/useTechnologiesApi.js:175-178 | `all` returns the list; otherwise, in order, exactly the records with that category |
| UseTechnologiesApi.SearchTechnologies | src/hooks/useTechnologiesApi.js:181-188 | in order, exactly the records whose title, description or language contains the query ignoring case; "" returns everything |
| UseTechnologiesApi.SearchExtendsLocalSearch | src/hooks/useTechnologiesApi.js:181-188 | everything the local hook's search finds, this search finds too |
| TechnologyCard.StatusBadge | src/components/TechnologyCard.jsx:8-20 | a badge exactly for the three known statuses, with the status as its CSS class |
| TechnologyCard.BadgesDistinct | src/components/TechnologyCard.jsx:8-20 | different statuses have different icons, texts and classes |
| TechnologyCard.NextStatus | src/components/TechnologyCard.jsx:23-33 | the cycle not started → in progress → completed → not started; no next status exactly for an unrecognised one |
| TechnologyCard.CycleOfThree | src/components/TechnologyCard.jsx:26-32 | three clicks return to the starting status, passing through the other two |
| TechnologyCard.HandleClick | src/components/TechnologyCard.jsx:23-35 | the card reports its own id and the next status of the cycle |
| TechnologyCard.ClickChangesOnlyItsCard | src/components/TechnologyCard.jsx:34 | with distinct ids, a click changes its own card's status and no other record |
| ProgressHeader.Percentage | src/components/ProgressHeader.jsx:3-5 | no number for a total of 0; otherwise the rounded share, at most 100 |
| ProgressHeader.MotivationFor | src/components/ProgressHeader.jsx:9-19 | each message exactly for its band: 0, 1–32, 33–65, 66–99, and 100 or no number |
| ProgressHeader.MotivationText | src/components/ProgressHeader.jsx:9-19 | every encouragement has a non-empty text |
| ProgressHeader.MotivationTextsDistinct | src/components/ProgressHeader.jsx:9-19 | different encouragements have different texts |
| ProgressHeader.StartIffBelowHalfPercent | src/components/ProgressHeader.jsx:9-10 | the start message shows iff less than half a percent is completed |
| ProgressHeader.AllDoneIffRoundsToFull | src/components/ProgressHeader.jsx:17-18 | the done message shows iff at least 99.5 percent is completed |
| ProgressHeader.AllDoneBeforeAllCompleted | src/components/ProgressHeader.jsx:9-19 | at 199 of 200 the done message shows while the footer counts one topic left |
| ProgressHeader.Footer | src/components/ProgressHeader.jsx:57-59 | congratulations iff all are completed, otherwise the non-zero number left |
| ProgressHeader.EmptyRoadmapLooksFinished | src/components/ProgressHeader.jsx:3-19 | an empty roadmap shows the done message and the congratulations |
| ProgressHeader.FooterCountsUnfinished | src/components/ProgressHeader.jsx:57-59 | with known statuses, the footer's count is the not-started plus in-progress topics |
| StatisticsPage.CategoryKeys | src/pages/Statistics.js:10 | each record's category, or `frontend` |
| StatisticsPage.FindName | src/pages/Statistics.js:11 | `acc.find(...)` as a position: the first entry with the name, or none when no entry has it |
| StatisticsPage.BumpNames | src/pages/Statistics.js:11-16 | counting a known category keeps the names; a new one is appended |
| StatisticsPage.BumpSum | src/pages/Statistics.js:11-16 | each step adds exactly one to the total |
| StatisticsPage.TallyNames | src/pages/Statistics.js:9-18 | the tally lists each category once, in order of first appearance |
| StatisticsPage.TallySum | src/pages/Statistics.js:9-18 | the counts add up to the number of records |
| StatisticsPage.TallyCounts | src/pages/Statistics.js:9-18 | each entry counts exactly the records under its category |
| StatisticsPage.TallyMeaning | src/pages/Statistics.js:9-18 | the three facts together, each count at least 1 |
| StatisticsPage.CategoriesData | src/pages/Statistics.js:9-18 | the reduce with its in-place count update yields the tally: distinct categories in order, their exact counts (none 0), total equal to the number of records |
| StatisticsPage.StatusData | src/pages/Statistics.js:21-25 | three bars, completed, in progress and not started, carrying their counts, which add up to the total for known statuses |
| StatisticsPage.ProgressData | src/pages/Statistics.js:28-35 | six months, the last carrying the current progress |
| StatisticsPage.MaxOf | src/pages/Statistics.js:37 | the maximum is an element and bounds every element |
| StatisticsPage.MaxProgress | src/pages/Statistics.js:37 | bounds every month's value and is attained by one |
| StatisticsPage.MaxProgressOfPage | src/pages/Statistics.js:28-37 | the chart's top is the larger of 30 and the current progress |
| Settings.MakeExport | src/pages/Settings.js:12-16 | the export carries the time, version `1.0.0` and the records |
| Settings.ExportJson | src/pages/Settings.js:12-19 | the written object has exactly the members `exportedAt`, `appVersion` and `technologies`, holding the time, the version and the array of records |
| Settings.ExportImportRoundTrip | src/pages/Settings.js:12-19 | the object a JSON export writes passes the import's shape check (src/pages/Settings.js:68), which brings back the same records |
| Settings.CsvHeaderText | src/pages/Settings.js:30 | the header line is `ID,Название,Описание,Статус,Заметки` |
| Settings.CsvFields | src/pages/Settings.js:31-37 | five cells: the id, the quoted title and description, the status, and the quoted notes with quotes doubled |
| Settings.CsvRows | src/pages/Settings.js:31-41 | one row per record, in order |
| Settings.CsvRow | src/pages/Settings.js:31-41 | a record's line starts with its id and a comma, and when no cell holds a comma, splitting it at the commas gives back the five cells in order |
| Settings.CsvContent | src/pages/Settings.js:39-42 | the header line alone for no records, otherwise header and line break first; when no line holds a line break, splitting at line breaks gives the header followed by each record's line, in order |
| Settings.CsvRowReadsBack | src/pages/Settings.js:31-41 | with no comma in a record's texts, its line splits back into its five cells |
| Settings.CsvContentReadsBack | src/pages/Settings.js:30-42 | with no line break in any record, the file splits back into the header and the record lines, in order |
| Settings.NotesCellRoundTrip | src/pages/Settings.js:36 | the notes cell reads back as the notes |
| Settings.TitleQuoteBreaksCell | src/pages/Settings.js:33 | a title containing a quote produces a cell that does not read back |
| Settings.CsvRowOneLine | src/pages/Settings.js:31-41 | a record without newlines gives a one-line row |
| Settings.CsvLineCount | src/pages/Settings.js:39-42 | the file has exactly one newline per record (header plus one line each) |
| Settings.CsvRowFiveFields | src/pages/Settings.js:41 | a record without commas gives a row with exactly four commas |
| Settings.EscapedCsvFields | src/pages/Settings.js:31-37 | the corrected cells: as before, with title and description quote-doubled too |
| Settings.EscapedCellsRoundTrip | src/pages/Settings.js:33-36 | every corrected text cell reads back as its member |
| Settings.ExportFor | src/pages/Settings.js:18-53 | `json` gives the JSON document, `csv` the CSV text, any other format nothing |
| Settings.DefaultTechs | src/pages/Settings.js:94-98 | three topics, ids 1–3, not started, empty notes, two frontend and one backend |
| Settings.StoreAfterImport | src/pages/Settings.js:66-74 | an array is written under the key; anything else leaves storage unchanged |
| Settings.ImportMissesCatalog | src/pages/Settings.js:69 | with the key as written, an import never changes what the catalogue hook loads |
| Settings.ResetAndClearMissCatalog | src/pages/Settings.js:85-99 | with the key as written, reset and clear never change what the catalogue hook loads |
| Settings.ImportReachesCatalog | src/hooks/useTechnologies.js:77 | with the catalogue's key, the imported list is what the hook loads |
| Settings.ResetAndClearReachCatalog | src/hooks/useTechnologies.js:77 | with the catalogue's key, reset loads the three defaults and clear loads the eight initial topics |
| Settings.SettingsPage.constructor | src/pages/Settings.js:5-8 | no message; the given storage and key |
| Settings.SettingsPage.HandleExport | src/pages/Settings.js:11-57 | the download for the format, the success message with the upper-cased format, storage untouched |
| Settings.SettingsPage.HandleImport | src/pages/Settings.js:60-80 | no file changes nothing; otherwise storage after import and the success, bad-format or read-error message |
| Settings.SettingsPage.HandleClearAll | src/pages/Settings.js:83-89 | when confirmed the key is removed and the cleared message set; otherwise nothing changes |
| Settings.SettingsPage.HandleReset | src/pages/Settings.js:92-103 | when confirmed the defaults are written and the restored message set; otherwise nothing changes |
| App.AppInitialTechnologies | src/App.js:10-59 | eight topics, ids 1–8, not started, no category; the hook's topics without category |
| App.FilteredTechnologies | src/App.js:121-124 | `all` keeps everything; otherwise, in order, exactly the records with the status |
| App.FilteredAgreesWithHook | src/App.js:121-124 | the page filters exactly as the hook's `getTechnologiesByStatus` |
| App.AppProgress | src/App.js:241 | no number for an empty list; otherwise the rounded completed share, at most 100 |
| App.AppProgressAgreesWithHook | src/App.js:241 | on a non-empty list this is the hook's `calculateProgress` |
| App.RecommendationFor | src/App.js:246-254 | done iff all completed; else keep going with the in-progress count; else great start if some are completed; else pick any |
| App.Remaining | src/App.js:260 | at most the number not completed, and exactly that iff all statuses are known |
| App.TopicWord | src/App.js:249 | `тема` exactly for one topic, `темы` exactly otherwise |
| App.RecommendationAndRemaining | src/App.js:246-260 | pick-any means every topic is not started; nothing remaining iff done |
| App.AppState.constructor | src/App.js:10-62 | the eight topics, filter `all`, a valid state |
| App.AppState.SetActiveFilter | src/App.js:62 | the filter changes, the topics do not |
| App.AppState.HandleStatusChange | src/App.js:65-71 | the status update of the topics; validity kept for a known status |
| App.AppState.HandleMarkAllComplete | src/App.js:74-81 | everything completed, recommendation done, validity kept |
| App.AppState.HandleResetAll | src/App.js:84-91 | everything not started, validity kept |
| App.AppState.HandleRandomSelect | src/App.js:94-113 | the topics after the random pick; validity and the completed count kept |
| AdvancedSearch.PresentLanguages | src/components/AdvancedSearch.jsx:13-20 | the languages of the records that have one, in the records' order (an ordered selection mapped to its languages); every non-empty language appears, and only those |
| AdvancedSearch.Languages | src/components/AdvancedSearch.jsx:13-20 | `all` first, then each language present once, and nothing else |
| AdvancedSearch.LanguagesInFirstAppearanceOrder | src/components/AdvancedSearch.jsx:13-20 | of two listed languages, the earlier one first appears earlier among the records |
| AdvancedSearch.LanguagesDistinct | src/components/AdvancedSearch.jsx:13-20 | when no record's language is `all`, no option is listed twice |
| AdvancedSearch.MatchesSearch | src/components/AdvancedSearch.jsx:36-46 | a passing record matches the text-or-language test and, unless the choice is `all`, has the chosen language; under `all` it is that test alone |
| AdvancedSearch.SearchResults | src/components/AdvancedSearch.jsx:23-47 | nothing for a query that `trim` empties (every ECMAScript white-space and line-terminator character counts); otherwise, in order, exactly the records matching the lower-cased query and the language |
| AdvancedSearch.AllLanguagesIsHookSearch | src/components/AdvancedSearch.jsx:34-46 | with `all` languages, a non-blank query finds what the API hook's search finds |
| AdvancedSearch.LanguageNarrows | src/components/AdvancedSearch.jsx:40-42 | choosing a language keeps only results found under `all` that have that language |
| AdvancedSearch.UnicodeSpacesFindNothing | src/components/AdvancedSearch.jsx:24-28 | a query of no-break and ideographic spaces, which `trim` removes, finds nothing |
| AdvancedSearch.SearchPanel.constructor | src/components/AdvancedSearch.jsx:6-9 | empty query, `all`, no results, not searching |
| AdvancedSearch.SearchPanel.SetQuery | src/components/AdvancedSearch.jsx:6 | only the query changes |
| AdvancedSearch.SearchPanel.SetLanguage | src/components/AdvancedSearch.jsx:7 | only the language changes |
| AdvancedSearch.SearchPanel.RunSearch | src/components/AdvancedSearch.jsx:23-54 | the results become the search results; `onSearch` is called with them exactly when the query is not blank; searching ends |
| AdvancedSearch.SearchPanel.HandleClearSearch | src/components/AdvancedSearch.jsx:57-61 | empty query, `all`, no results |

## Left out

- Rendering, CSS, chart geometry, routing and navigation are not modelled. So are modal dialogs, `console` logging, and the delayed `setTimeout` message clearing and page reloads.
- The write-back effect of `useLocalStorage` (src/hooks/useLocalStorage.js:29-36) is left out, because it only mirrors the state. `TechnologiesHook` keeps only the list. The API hook writes its `apiTechnologies` key explicitly, and that write is modelled.
- Network access, `fetch` and `response.json()` are parameters. `LoadTechnologies` takes the reply, and `FetchTechnologies` takes the outcome of the service call.
- JSON text is not modelled. An export is the object that `JSON.parse` would read back from what `JSON.stringify` writes, taken to be the same object. A read file is an `ImportedFile`: text that failed to parse, or the parsed document's top-level members by name. A top-level value that is not an object, and an array whose items are not records, are not modelled. A stored item is either a list or unparsable. A stored non-list value that parses (say a number) is not modelled.
- Case conversion folds ASCII letters only. JavaScript's full Unicode `toLowerCase`/`toUpperCase` is not modelled. This matters for the Cyrillic topic texts.
- `Math.random()` becomes the caller's draw `r`. The chosen index is `r % n`.
- Dates and times (`toISOString`, `toLocaleString`) are opaque strings supplied by the caller.
- `Percentage`: a total of 0 gives `None`. This stands for JavaScript's `NaN`. Every comparison with `NaN` fails, so the message lands in the last branch, as the model states.
- The debounce (src/hooks/useDebounce.js) and the simulated 300 ms delay in the search panel are not modelled. `RunSearch` is the effect once the delay has passed, run on the current query.
- `loadResourcesForTechnology`, `checkAPIStatus` and `getPopularLanguages` (src/services/api.js) are not modelled. They only combine network calls with `getPopularResources`, which is modelled.
- Other pages and components only wire the modelled operations to the screen. These are `TechnologyList`, `TechnologyDetail`, `AddTechnology`, `APILoader`, `RoadmapImporter`, `TechnologyNotes`, `TechnologyResources`, `FilterTabs`, `QuickActions`, `SearchBar`, `Modal` and `Navigation`.
- Records whose `title`, `description` or `notes` are missing become the empty string. This covers a hand-added record with no title and `App.js` topics, which have no `notes` member.
- A status the card does not recognise yields `undefined` as the next status. `TechnologyCard.HandleClick` reports `None` for it. Writing `undefined` into a record is not modelled.
- An update object that explicitly sets a member to `undefined` is not modelled; `ApplyPatch` treats a member as present or absent. Keys that come from `Object.prototype` (such as `constructor`) are also not modelled. In `getCategory` and `getPopularResources` they would find inherited values.
- A repository's id of 0 (falsy) takes the position-based id, as the source does. A missing `owner` object is not modelled.
- `Catalog.RoundedPercent`: rounds the exact ratio, while JavaScript rounds the double `(completed / total) * 100`. For 23 of 40 that double is 57.49999999999999 and rounds to 57, where the model gives 58; 29 of 200 likewise gives 14 against 15. The 0 and 100 thresholds and monotonicity are unaffected by these cases.
- `Catalog.RandomPickEffect`: the count-preservation facts are stated for lists with distinct ids. With repeated ids, `updateStatus` changes every record sharing the picked id.
- `UseTechnologiesApi.NewRecord`: a caller-supplied `id` in the new data overrides the computed one, as the spread order dictates. Ids are then only guaranteed distinct when the data carries no id.

## Findings

| source | as written | input that shows it | evidently intended | confidence | as-written member | corrected member |
|---|---|---|---|---|---|---|
| src/pages/Settings.js:69 | import writes the `localStorage` key `technologies`. The catalogue hook reads `techTrackerData` (src/hooks/useTechnologies.js:77) | import any valid file, then reload: the catalogue is unchanged | import writes the key the catalogue is stored under | high (not executed) | Settings.ImportMissesCatalog | Settings.ImportReachesCatalog |
| src/pages/Settings.js:85-99 | clear removes and reset writes the same `technologies` key | reset with confirmation, then reload: the catalogue is unchanged and is not the three defaults | clear and reset act on the catalogue's key | high (not executed) | Settings.ResetAndClearMissCatalog | Settings.ResetAndClearReachCatalog |
| src/pages/Settings.js:33 | the CSV title and description cells are wrapped in quotes without doubling the quotes inside (line 34 likewise). Only the notes cell doubles them (line 36) | a topic titled `a"b` gives the cell `"a"b"`, which does not read back as one quoted value | every quoted cell doubles its inner quotes, as the notes cell does | high (not executed) | Settings.TitleQuoteBreaksCell | Settings.EscapedCellsRoundTrip |
