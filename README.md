# COVID-19 case ingestion: a Dafny model

This project models the ingestion endpoint of the COVID-19 case query web service,
`/get_latest_covid_case_data/{region}/{year}/{month}`. The endpoint:

1. rejects a year outside 2020 to the current year, or a month outside 1 to 12, before any I/O;
2. fetches the listing of the daily-report directory of the `CSSEGISandData/COVID-19` GitHub repository;
3. keeps the entries whose file name carries the requested `MM-YYYY`, that are plain files and that have a download URL;
4. for each kept file, downloads and parses the CSV rows;
5. mints a batch GUID (`CovidCasesByDay`) for the file;
6. gives its `FileMeta` descriptor a fresh GUID and the batch as foreign key;
7. gives every parsed `CovidCase` row a fresh GUID and the same foreign key;
8. appends the descriptor, the rows and the batch to the three tables of the in-memory database;
9. returns the listing text it fetched, ASCII-encoded.

Modules, one file each:

- `Wrappers`: `Option` stands for nullable values. `Result` stands for the thrown exception.
- `Entities`: `FileMeta`, `CovidCase` and `CovidCasesByDay`. A GUID is a `nat`, and `Guid.Empty` is 0.
- `Formatting`: `int.ToString()`, the zero-padded month, the `MM-YYYY` token and `Encoding.ASCII`.
- `Selection`: the filter over the listing. It is a loop method, proved against a recursive specification function.
- `Store`: the three tables, as a `Tables` value and as the `CovidCaseDb` class with three sequence fields. It also holds the GUID supply (`GuidSource`, a counter), the key and relationship invariants (`Valid`, `KeysDisjoint`, `Consistent`), and `StageAll`, the function stating what one run appends. The lemmas about `StageAll` are here too.
- `Ingest`: the endpoint method and the staging loop. `StageFile` (one pass of the loop) is proved to append exactly `StageOne`. `StageFiles` (the whole loop) is proved to append exactly `StageAll` after the existing rows. The endpoint is proved to append exactly `StageAll` of its selection and, through `Store.StagingPreservesConsistency`, to keep `Consistent`.

The endpoint's environment is passed in as parameters:

- `DateTime.Now.Year` is `currentYear`.
- The GitHub listing and its deserialization are `contentsText` and `contents`.
- Downloading and parsing one report is the function `download: FileMeta -> seq<CovidCase>`.
- `Guid.NewGuid` is the `GuidSource` object.

The endpoint also returns the URLs it fetched, in order. This makes "no request before validation" a stated postcondition. The `region` argument appears in no postcondition: it decides nothing.

GUIDs are drawn in the endpoint's order: for each file, the batch GUID, then the descriptor's GUID, then one per row. The endpoint requires `Consistent(tables, next)` and re-establishes it. `Consistent` means:

- primary keys are unique in each table;
- every foreign key names a stored batch;
- every batch is named by exactly one descriptor;
- no GUID is a key in two tables;
- every GUID in the tables is one the supply has already issued, so none is `Guid.Empty`.

A fresh `CovidCaseDb` with a fresh `GuidSource` satisfies it (`Store.FreshStoreConsistent`).

The endpoint takes the name comparison as a parameter `rule`. With `SourceSlice` it is the endpoint as written, which compares the seven characters at offset 3 of the name. With `MonthAndYear` it is the corrected endpoint (see Findings). `Selection.RelatedMembership`, `Selection.RelatedConcat`, `Selection.RelatedIsSubsequence`, `Selection.RelatedNeedsSevenCharacterToken` and the endpoint's contract are proved for both rules. The two field lemmas (`SourceSliceComparesDay`, `MonthAndYearComparesMonth`) and the two example lemmas (`SourceSliceSelectsWrongDay`, `SelectsMarch2021`) are each about the rule they name.

## Model

| member | source | states |
|---|---|---|
| `Formatting.NatToDecimal` | COVID-19_cases_query/Program.cs:57 | the year text is `Formatting.IntToString` (Program.cs:57), which is this function for a non-negative year; `year.ToString()` on a non-negative year yields at least one character, all decimal digits, with no leading zero unless the value is 0 |
| `Formatting.DecimalRoundTrip` | COVID-19_cases_query/Program.cs:57 | reading the year text back as a decimal number gives the year |
| `Formatting.DecimalLength` | COVID-19_cases_query/Program.cs:57 | the year text has at most `k` characters exactly when the year is below 10^k |
| `Formatting.MonthStringIsTwoDigits` | COVID-19_cases_query/Program.cs:58 | about `Formatting.MonthString` (Program.cs:58): months 1 to 12 (indeed 1 to 99) format as exactly two digits: a leading `0` for 1 to 9, the plain number for 10 to 12; the text reads back as the month |
| `Formatting.DateTokenParses` | COVID-19_cases_query/Program.cs:57-62 | about `Formatting.DateToken`, the interpolation `monthStr-yearStr` (Program.cs:62): the token is the two month digits (`TwoDigits`), a dash and the year digits; month and year are both recovered from it |
| `Formatting.DateTokenInjective` | COVID-19_cases_query/Program.cs:57-62 | two requests with the same token have the same year and month |
| `Formatting.DateTokenLength` | COVID-19_cases_query/Program.cs:57-62 | the token is seven characters long exactly when the year has four digits |
| `Formatting.AsciiByte` | COVID-19_cases_query/Program.cs:109 | every encoded byte is 7-bit |
| `Formatting.AsciiBytes` | COVID-19_cases_query/Program.cs:109 | the encoding yields one byte per character |
| `Formatting.AsciiRoundTrip` | COVID-19_cases_query/Program.cs:109-112 | decoding the returned body gives the listing text with each non-ASCII character replaced by `?`; ASCII text comes back unchanged |
| `Selection.Related` | COVID-19_cases_query/Program.cs:59-67 | filters by `Selection.IsRelated` and `Selection.NameMatches` (Program.cs:62-65); the selection is no longer than the listing, and every element satisfies the name, type and download-URL tests |
| `Selection.SelectRelated` | COVID-19_cases_query/Program.cs:59-67 | the `foreach` that fills `relatedMeta` computes exactly the selection |
| `Selection.RelatedMembership` | COVID-19_cases_query/Program.cs:62-66 | an entry is selected if and only if it is in the listing, has a non-null name of length at least 10 that matches the token, has type `file` and has a download URL |
| `Selection.RelatedConcat` | COVID-19_cases_query/Program.cs:59-67 | selecting from two listings in sequence equals the two selections in sequence, so order is preserved |
| `Selection.RelatedIsSubsequence` | COVID-19_cases_query/Program.cs:59-67 | there is a strictly increasing map from each selected entry to an equal entry of the listing: the selection is a subsequence |
| `Selection.RelatedNeedsSevenCharacterToken` | COVID-19_cases_query/Program.cs:62 | a token that is not seven characters long (a year with other than four digits) selects nothing |
| `Selection.SourceSliceComparesDay` | COVID-19_cases_query/Program.cs:62 | under the comparison as written, the report `MM-DD-YYYY.csv` matches if and only if its DAY equals the requested month and its year is the requested one |
| `Selection.SourceSliceSelectsWrongDay` | COVID-19_cases_query/Program.cs:57-66 | as written, the March 2021 request drops `03-15-2021.csv` and keeps `04-03-2021.csv` |
| `Selection.MonthAndYearComparesMonth` | COVID-19_cases_query/Program.cs:62 | under the corrected comparison, the report `MM-DD-YYYY.csv` matches if and only if its month and year are the requested ones |
| `Selection.SelectsMarch2021` | COVID-19_cases_query/Program.cs:57-66 | the March 2021 token is `03-2021`; with the corrected comparison it keeps `03-15-2021.csv` and drops `04-15-2021.csv` |
| `Store.GuidSource.NewGuid` | COVID-19_cases_query/Program.cs:82 | each call returns a GUID no earlier call returned, and advances the supply by one |
| `Store.CovidCaseDb.AddFileMeta` | COVID-19_cases_query/Program.cs:91 | on `Store.CovidCaseDb`, the database context with its three tables (Program.cs:177-184); appends one descriptor and leaves the other tables unchanged |
| `Store.CovidCaseDb.AddCovidCase` | COVID-19_cases_query/Program.cs:101 | appends one case row and leaves the other tables unchanged |
| `Store.CovidCaseDb.AddCovidCasesByDay` | COVID-19_cases_query/Program.cs:104 | appends one batch and leaves the other tables unchanged |
| `Store.AppendPreserves` | COVID-19_cases_query/Program.cs:186-193 | about `Store.Valid`, i.e. `KeysUnique` (Program.cs:188-190), `ForeignKeysResolve` and `OneFileMetaPerBatch` (Program.cs:191-192): appending tables whose GUIDs all lie above the existing ones preserves the declared keys and relations: unique keys, foreign keys resolving, one descriptor per batch, and no GUID shared between tables |
| `Store.StageOneProperties` | COVID-19_cases_query/Program.cs:81-104 | about `Store.StageOne`, what one pass of the loop appends (Program.cs:81-104): one staged file is valid on its own, uses GUIDs `[base, base + 2 + rows)`, and its batch is the foreign key of all its rows and no others; the rows keep their payloads |
| `Store.StageAllCounts` | COVID-19_cases_query/Program.cs:69-105 | about `Store.StageAll`, what the whole loop appends (Program.cs:69-105), over the entities `Entities.FileMeta`, `Entities.CovidCase` and `Entities.CovidCasesByDay` (Program.cs:131-175): a run over N files with row counts r1..rN appends N batches, N descriptors and r1+...+rN case rows; N = 0 appends nothing |
| `Store.StageAllInRange` | COVID-19_cases_query/Program.cs:82-98 | every GUID a run writes comes from the supply's range, `[next, next + 2N + total rows)` |
| `Store.StageAllValid` | COVID-19_cases_query/Program.cs:82-104 | what a run appends has unique keys per table, no GUID shared between tables, every foreign key naming a batch of the same run, and every batch named by exactly one descriptor |
| `Store.StageAllContents` | COVID-19_cases_query/Program.cs:89-101 | apart from the key columns, the appended descriptors are the selected entries and the appended rows are the parsed rows, in order |
| `Store.StageAllPerFile` | COVID-19_cases_query/Program.cs:82-104 | the i-th appended descriptor points at the i-th appended batch, and exactly as many rows point at that batch as the i-th file had rows |
| `Store.StageAllBatchRows` | COVID-19_cases_query/Program.cs:95-101 | reading batch i back through the foreign key (`Store.CasesOfBatch`, the one-to-many relation of Program.cs:191) gives the parsed rows of the i-th file, in order and with their payloads, and no other rows |
| `Store.FreshStoreConsistent` | COVID-19_cases_query/Program.cs:24 | the empty in-memory database, with a GUID supply that has issued nothing, satisfies the endpoint's precondition |
| `Store.StagingPreservesConsistency` | COVID-19_cases_query/Program.cs:186-193 | a consistent database stays consistent after a run, with the GUID supply advanced past every GUID used |
| `Store.RerunAppendsAgain` | COVID-19_cases_query/Program.cs:69-105 | running the same request twice appends 2N batches; the second run's descriptors carry the same payloads as the first's, under batch GUIDs disjoint from the first's, and the database stays consistent |
| `Ingest.DownloadUrls` | COVID-19_cases_query/Program.cs:72 | one URL is requested per selected file |
| `Ingest.StageFile` | COVID-19_cases_query/Program.cs:81-104 | one pass of the staging loop appends exactly `StageOne(file, rows, next)` and draws 2 + rows GUIDs |
| `Ingest.StageFiles` | COVID-19_cases_query/Program.cs:69-105 | the staging loop appends exactly `StageAll(selection, download, next)` after the existing rows, which stay unchanged, advances the supply by 2N + total rows, and requests each selected file's URL once, in order |
| `Ingest.GetLatestCovidCaseData` | COVID-19_cases_query/Program.cs:43-112 | for either name rule (`SourceSlice` is the code as written): dates outside `Ingest.ValidDates` (Program.cs:45) fail with no URL fetched and no table or GUID change; valid dates fetch the listing URL and then each selected file's URL, append exactly `StageAll` of the selection, keep the database consistent, and return the ASCII-encoded listing text, whatever the region |

## Left out

- HTTP and the GitHub API (Program.cs:47-54, 72-73) are network I/O. The listing text, its deserialization and each file's parsed rows are inputs; the model returns the URLs requested. Transport failures and the User-Agent header are not modelled.
- JSON deserialization of the listing (Program.cs:56) is a foreign library. Its output is an input; a listing that deserializes to `null` is not modelled.
- CSV parsing with CsvHelper (Program.cs:74-79, 95) is a foreign library with its own tolerance rules. It is the `download` parameter.
- The `Double?` and `DateTime?` columns of `CovidCase` (Program.cs:137-139, 145-146) involve floating point and dates. They are not fields of the model.
- EF Core's in-memory database, change tracking and `SaveChangesAsync` (Program.cs:24, 107) are a persistence library. The tables are sequences and saving is the identity. The navigation properties (Program.cs:150, 167, 173-174) are not stored; they are the join over the foreign keys, which `Valid` constrains.
- `/get_all_records` and its JSON serialization (Program.cs:116-127) are output glue.
- `Guid.NewGuid` randomness is replaced by a counter that never repeats. Collision probability is not modelled.
- `DateTime.Now` is environment input, passed in as `currentYear`.
- The web host, Swagger, the `/` route, `Console.WriteLine` and `app.Run` (Program.cs:23-41, 68, 129) are startup glue and logging.
- The unused `days` array (Program.cs:21) is dead code.
- The source updates the deserialized `FileMeta` and `CovidCase` objects in place. The model builds updated values, so aliasing between `contentsJson` and `relatedMeta` is not modelled. It cannot be observed, because the response echoes the text, not the objects.
- The thrown exception becomes `Err(InvalidDates)`. The HTTP error response it produces is not modelled.
- A Dafny `char` is a Unicode scalar value. The source's `name.Length` and `Substring(3, 7)` (Program.cs:62) count UTF-16 code units, so the two differ on names that contain characters outside the Basic Multilingual Plane.
- A `null` element in the deserialized listing makes the source throw `NullReferenceException` at Program.cs:62. The model's listing has no null entries.
- Concurrent requests against the shared in-memory store are not modelled. Each endpoint call runs alone.

## Findings

| source | as written | input that shows it | evidently intended | confidence | as-written member | corrected member |
|---|---|---|---|---|---|---|
| COVID-19_cases_query/Program.cs:62 | compares the seven characters at offset 3 of the file name with `MM-YYYY`; upstream names read `MM-DD-YYYY.csv`, so offset 3 holds `DD-YYYY` and the requested month is compared with the day | year 2021, month 3, listing `03-15-2021.csv` and `04-03-2021.csv`: as written, the first is dropped and the second kept | keep the reports whose month field and year field match, i.e. compare the name's first two characters followed by its characters 5 to 9 (`-YYYY`) with the token | high; not executed | `Selection.SourceSliceSelectsWrongDay` | `Selection.MonthAndYearComparesMonth` |
