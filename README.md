# Soldera auction-results ingestion, modelled in Dafny

Soldera collects the results of the French Guarantees-of-Origin auctions published by EEX
and serves them on a web page. This project models its core.

- **Discovery and ingestion**: `soldera/scraper.py`.
  - A run fetches the results index page and follows its "Download the latest results" link.
  - It reads the auction month and year from the file name, then downloads the spreadsheet.
  - It skips a file whose MD5 hash is already stored.
  - Otherwise it creates one `AuctionResults` batch and bulk-inserts one `Auction` line item per spreadsheet row.
  - Each row gets its region re-decoded and its French technology name mapped to a code.
- **The data model**: `soldera/models.py` and `soldera/types.py`.
  - Two tables, with these constraints: a unique 32-character hash column, 32-bit integer columns, and a cascading foreign key.
  - The default orderings of both tables.
  - The technology mapping.
- **The JSON import command**: `soldera/management/commands/populate_auctions_from_json.py`.
  - It stores the batches of a JSON document inside one `transaction.atomic` block.
  - Batches whose hash is already stored are skipped.
- **The charts component**: `react/src/AuctionCharts.tsx`.
  - It folds the newest batch's line items into per-technology and per-region records.
  - It maps technology codes to colours and labels.
- **The supervisord event listener**: `varia/supervisor_event_listener.py`.
  - It reads events from standard input and acknowledges each one.
  - It logs fatal process-state events.

## How it is modelled

Pure functions of the database value state the effect of each step:

- The database is a value `Models.Db`: rows in insertion order, plus the two id sequences.
- Each ORM call is a function from `Db` to a `Result`.
- One `Repository.Store` class holds the same state in mutable fields.
  Each method's `ensures` ties its result and the new state to a function of `Models`:
  `Exists` to `HashStored`, `Create` to `CreateResults`, `BulkCreate` to `CreateAuctions` and `CreateItem` to `CreateAuction`.
- The imperative procedures `Scraper.RunDiscovery`, `Scraper.ProcessResultsFile` and `JsonImport.HandleCommand` are module-level methods that take the `Store` as a parameter.
  Each is proved equal to the pure function of its module (`Scraper.Discover`, `Scraper.ProcessResults`, `JsonImport.Handle`).

Collaborators whose code is not part of this model are parameters, as fields of `Scraper.Env`:

- `requests.get`
- BeautifulSoup's link lookup
- `hashlib.md5`
- the two pandas reads
- the Windows-1252 region repair

The chart reductions and the listener's loop update state step by step, so they are methods:

- `Charts.AggregateByTechnology` and `Charts.AggregateByRegion` are loops over the items.
- `Listener.EventListener` is a class whose `Step` consumes one event from its `input` field.

Python's `str.split`, `rsplit`, `upper`, `strip` and `int()` are modelled on ASCII in `PyStr`.
`int()` keeps CPython's limit of 4300 digits (`sys.int_info.default_max_str_digits`, in force since Python 3.11; the code needs 3.12 for `calendar.Month`): a longer literal raises ValueError.

Three behaviours of the code that a reader may not expect are modelled as written:

- **Month position.** `_parse_filename_date` (`soldera/scraper.py:49-53`) takes the month from the second `_`-separated part and the year from the third.
  So `resultats_auctions_MARCH_2024_v2.xlsx` fails to parse: its second part is `auctions`.
  `Scraper.MonthMustBeSecondPart` proves the failure.
- **No transaction in the scraper.** `_process_results_file` creates the batch (`soldera/scraper.py:84-86`) and bulk-inserts its line items (`soldera/scraper.py:120`) as two separate statements, with no transaction.
  A failure after the first leaves a batch with no line items, and every later run skips that file.
  `Scraper.PartialBatchPersists` proves this.
  The JSON import, in contrast, runs inside `transaction.atomic` (`soldera/management/commands/populate_auctions_from_json.py:26`); `JsonImport.HandleAllOrNothing` proves it all or nothing.
- **Technology type annotation.** The annotation in `soldera/types.py:4` gives the mapping's values as `"Onshore wind"`, `"Hydro"`, ...
  The dictionary (`soldera/types.py:7-12`) actually holds `"wind_energy_onshore"`, `"hydro"`, ...
  The model uses the dictionary's values, which are also the codes the charts component knows.

## Model

| member | source | states |
|---|---|---|
| `Technology.MapTechnology` | soldera/types.py:7-12 | A known French name becomes one of the four technology codes. Any other name passes through unchanged. No result is itself a French name. |
| `Technology.MappingKeys` | soldera/types.py:7-12 | The mapping has exactly the four French names as keys. |
| `Technology.MappingInjective` | soldera/types.py:7-12 | Distinct French names map to distinct codes. |
| `Technology.MappingValuesAreTechTypes` | soldera/types.py:7-12 | Every value is a front-end technology code. Every code is some name's value. |
| `Technology.MapTechnologyIdempotent` | soldera/scraper.py:113-115 | Applying the lookup twice gives the same result as applying it once. |
| `Technology.MapTechnologyYieldsTechType` | soldera/scraper.py:113-115 | The stored technology is a chart code exactly when the cell held a French name or a code. |
| `PyStr.Split` | soldera/scraper.py:50 | `split("_")` returns at least one part. No part holds the separator. Joining the parts gives back the string. |
| `PyStr.SplitJoin` | soldera/scraper.py:50 | `split` inverts `join` on separator-free parts. |
| `PyStr.SplitWithoutSeparator` | soldera/scraper.py:50 | A separator-free string splits into itself alone. |
| `PyStr.SplitAfterFirstSeparator` | soldera/scraper.py:50 | Splitting `a_b`, with `a` free of `_`, gives `a` followed by the parts of `b`. |
| `PyStr.JoinAvoids` | soldera/scraper.py:50 | A character that is neither the separator nor in any part is not in the joined string. |
| `PyStr.Upper` | soldera/scraper.py:51 | `upper()` keeps the length and upper-cases each character. |
| `PyStr.LastSegment` | soldera/scraper.py:145 | `rsplit("/", maxsplit=1)[-1]` contains no `/`. |
| `PyStr.LastSegmentIsSuffix` | soldera/scraper.py:145 | The last segment is a suffix of the link. It is either the whole link or preceded by a `/`. |
| `PyStr.LastSegmentAfterSeparator` | soldera/scraper.py:145 | Whatever comes before a `/` does not affect the last segment. |
| `PyStr.NatToString` | soldera/scraper.py:52 | The decimal form of a natural number, which `str(n)` returns when it has at most 4300 digits, is a non-empty run of decimal digits. |
| `PyStr.DigitsValueOfNatToString` | soldera/scraper.py:52 | The decimal digits of `n` have the value `n`. |
| `PyStr.DigitCountOfDigits` | soldera/scraper.py:52 | A string of digits alone has as many digits, in the sense of the 4300-digit limit, as characters. |
| `PyStr.StripWithoutOuterSpace` | soldera/scraper.py:52 | `strip()`, which `int()` applies first, leaves a string with no outer whitespace unchanged. |
| `PyStr.ParseIntOfDigits` | soldera/scraper.py:52 | `int()` of a digit run, underscores allowed between digits, is the run's value when it has at most 4300 digits, and raises ValueError otherwise. |
| `PyStr.ParseIntOfNegatedDigits` | soldera/scraper.py:52 | `int()` of a minus sign followed by a digit run is the run's value negated when the run has at most 4300 digits, and raises ValueError otherwise. |
| `PyStr.ParseIntOfIntToString` | soldera/scraper.py:52 | `int()` of the decimal form of any integer `n` gives back `n` exactly when `n` has at most 4300 digits, and raises ValueError otherwise. |
| `PyStr.SplitOnce` | varia/supervisor_event_listener.py:28 | `split(":", maxsplit=1)` is defined exactly when the token holds a colon. The token is the part before it, the colon, and the rest; the first part holds no colon. |
| `PyStr.SplitOnceOf` | varia/supervisor_event_listener.py:28 | Splitting `a:b` once, with `a` free of colons, gives back `a` and `b`. |
| `PyStr.IndexOf` | varia/supervisor_event_listener.py:26 | The first occurrence of a character: it is at that index and not before it. |
| `Models.DaysInMonth` | soldera/models.py:5 | Every month has 28 to 31 days. |
| `Models.ItemsOf` | soldera/models.py:20-22 | `results.auctions` holds exactly the stored line items whose foreign key names the batch. |
| `Models.CreateResults` | soldera/models.py:4-7 | The insert fails with DataError when the hash is longer than 32 characters or the participant count leaves 32 bits. It fails with IntegrityError when the hash is already stored. Otherwise it appends exactly one row with the next id and keeps every constraint. |
| `Models.CreateAuctions` | soldera/scraper.py:120 | `bulk_create` fails when any item leaves 32 bits or the owner is missing. Otherwise it appends all items with consecutive ids, owned by the batch, and keeps every constraint. |
| `Models.CreateAuction` | soldera/management/commands/populate_auctions_from_json.py:42-50 | One `create` fails exactly on an out-of-range field (DataError) or a missing owner (IntegrityError). Otherwise it appends one row and keeps every constraint. |
| `Models.CreateAuctionIsBulkOfOne` | soldera/models.py:13-22 | A single `create` and a bulk insert of one item have the same effect. |
| `Models.UniqueHashCountsOne` | soldera/models.py:7 | Under `unique=True` a stored hash is stored exactly once. |
| `Models.OwnerIsUnique` | soldera/models.py:20-22 | A line item's foreign key names exactly one stored batch. |
| `Models.RemoveResults` | soldera/models.py:20-22 | Deleting a batch removes exactly the rows with its id. |
| `Models.RemoveAuctionsOf` | soldera/models.py:20-22 | The cascade removes exactly the line items the batch owns. |
| `Models.RemoveResultsKeepsOrder` | soldera/models.py:20-22 | Deleting a batch keeps the remaining batch ids increasing. |
| `Models.RemoveResultsKeepsUniqueHashes` | soldera/models.py:7 | Deleting a batch keeps the hashes unique. |
| `Models.RemoveAuctionsKeepsOrder` | soldera/models.py:20-22 | The cascade keeps the remaining line-item ids increasing. |
| `Models.DeleteResults` | soldera/models.py:20-22 | After a delete, the batch and every line item it owned are gone. Every other row is kept, and no row is added. |
| `Models.DeletedRowsValid` | soldera/models.py:20-22 | Every remaining row still satisfies its column constraints and lies below the id sequences. |
| `Models.DeletedOwnersStored` | soldera/models.py:20-22 | The foreign key still holds after a cascade. |
| `Models.DeleteResultsValid` | soldera/models.py:20-22 | A cascading delete keeps every database constraint. |
| `Models.StringLessIrreflexive` | soldera/models.py:25 | The text comparison used for ordering is irreflexive. |
| `Models.StringLessTransitive` | soldera/models.py:25 | The text comparison is transitive. |
| `Models.StringLessTotal` | soldera/models.py:25 | Two distinct strings are always ordered one way or the other. |
| `Models.StringLessAsymmetric` | soldera/models.py:25 | The text comparison is asymmetric. |
| `Models.ResultsOrderStrictTotal` | soldera/models.py:10 | `ordering = ["-date", "-id"]` is a strict total order on batches with distinct ids. |
| `Models.AuctionOrderStrictTotal` | soldera/models.py:25 | `ordering = ["region", "technology", "-id"]` is a strict total order on line items with distinct ids. |
| `Models.ResultsListingDetermined` | soldera/models.py:10 | Two ordered listings of the same batches are identical. |
| `Models.AuctionsListingDetermined` | soldera/models.py:25 | Two ordered listings of the same line items are identical. |
| `Repository.Store.constructor` | soldera/models.py:4-25 | A new store is the empty database with both id sequences at 1. |
| `Repository.Store.Exists` | soldera/scraper.py:68 | `filter(md5_hash=...).exists()` is true exactly when a batch with that hash is stored. |
| `Repository.Store.Create` | soldera/scraper.py:84-86 | The store's new state and the returned id are those of `Models.CreateResults`. On failure nothing changes. |
| `Repository.Store.BulkCreate` | soldera/scraper.py:120 | The store's new state is that of `Models.CreateAuctions`. On failure nothing changes. |
| `Repository.Store.CreateItem` | soldera/management/commands/populate_auctions_from_json.py:42-50 | The store's new state is that of `Models.CreateAuction`. On failure nothing changes. |
| `Repository.Store.Rollback` | soldera/management/commands/populate_auctions_from_json.py:26 | Leaving the atomic block restores the rows. The id sequences keep the values they reached. |
| `Scraper.ResultsXlsxLink` | soldera/scraper.py:26-28 | The URL is the base origin, one slash, then the relative link unchanged. |
| `Scraper.LeadingSlashKept` | soldera/scraper.py:26-28 | A link that starts with `/` yields a double slash; it is not normalised. |
| `Scraper.DownloadedFileName` | soldera/scraper.py:145-149 | The file name the date is read from is the last path segment of the URL that is downloaded. |
| `Scraper.MonthNumbersInRange` | soldera/scraper.py:51 | Every `calendar.Month` value is 1 to 12. |
| `Scraper.ParseFilenameDate` | soldera/scraper.py:36-55 | The parse succeeds exactly when there are at least three `_`-parts, the upper-cased second part names a month, and the third part is an integer literal of at most 4300 digits. The result is that year and month. Every failure is the same ScraperException. |
| `Scraper.ParseFilenameDateOfParts` | soldera/scraper.py:49-55 | Every name `prefix_month_year[_more]`, with the month in any letter case, parses to that year and month when the year has at most 4300 digits; otherwise it fails with the ScraperException. |
| `Scraper.ParseFilenameDateExample` | soldera/scraper.py:51 | `results_march_2024` and `results_MARCH_2024` both give (2024, 3). |
| `Scraper.MonthInAnyCaseParses` | soldera/scraper.py:50-53 | `results_march_2024` and `results_MARCH_2024` each parse to (2024, 3). |
| `Scraper.ExtensionExampleParts` | soldera/scraper.py:50 | `results_march_2024.xlsx` splits into `results`, `march` and `2024.xlsx`. |
| `Scraper.YearWithExtensionIsNotInt` | soldera/scraper.py:52 | `int("2024.xlsx")` fails. |
| `Scraper.ExtensionGluedToYearFails` | soldera/scraper.py:52-55 | An extension directly after the year makes the parse fail. |
| `Scraper.SecondPrefixWordParts` | soldera/scraper.py:50 | In `resultats_auctions_...` the second part is `auctions`. |
| `Scraper.AuctionsIsNotAMonth` | soldera/scraper.py:51 | `AUCTIONS` is not a `calendar.Month` name. |
| `Scraper.MonthMustBeSecondPart` | soldera/scraper.py:50-55 | `resultats_auctions_MARCH_2024_v2.xlsx` does not parse. |
| `Scraper.PeriodDate` | soldera/scraper.py:154 | `date(year, month, 1)` succeeds exactly for years 1 to 9999. The result is the first day of that month and is a valid date. |
| `Scraper.Fetch` | soldera/scraper.py:135-136 | `get` plus `raise_for_status` succeeds exactly on a response whose status is not 4xx or 5xx, returning its body. Otherwise it fails with the HTTP status or a connection error. |
| `Scraper.NormalizeRow` | soldera/scraper.py:106-117 | A row fails exactly when its region, or "Unknown" if absent, cannot be re-decoded. The error names that text. |
| `Scraper.NormalizeRowFields` | soldera/scraper.py:108-115 | A stored line item has the repaired region; the mapped technology, or the raw name, or "Unknown"; and each given number, or 0 when the cell is absent. |
| `Scraper.NormalizeRows` | soldera/scraper.py:105-119 | The comprehension succeeds exactly when every row does. It yields one item per row, in row order. Otherwise it fails with the first failing row's error. |
| `Scraper.LinkedPeriod` | soldera/scraper.py:135-151 | The link and its parsed (year, month) exist exactly when the index page is fetched, has a non-empty results link, the link's file name parses, and the file is fetched. The period is what `_parse_filename_date` gives for the link's last segment. |
| `Scraper.Download` | soldera/scraper.py:134-154 | A download succeeds exactly when the link, its period and the file are all obtained and the year is 1 to 9999. Its result is the second fetch's body and the date `(year, month, 1)` of the link's period. When the link, its period or the file is not obtained, it fails with a ScraperException. When the year is out of range, it fails with the unwrapped date error for that year and month. |
| `Scraper.ProcessResultsStores` | soldera/scraper.py:58-120 | A file is accepted exactly when its hash is already stored or every step succeeds. A storable file appends one batch with the date, participant count and hash, and one line item per row owned by it. |
| `Scraper.PartialBatchPersists` | soldera/scraper.py:84-120 | If a step after the batch insert fails, the batch stays stored without line items, and every later run of the same file passes without storing anything. |
| `Scraper.ProcessResultsKeepsValid` | soldera/scraper.py:58-124 | Processing a file keeps every database constraint. It only appends rows. |
| `Scraper.ProcessResultsTwice` | soldera/scraper.py:66-69 | After a passing run the hash is stored exactly once. Processing the same bytes again, with any date, changes nothing and passes. |
| `Scraper.DiscoverKeepsValid` | soldera/scraper.py:127-155 | A discovery run keeps every constraint and only appends. It adds at most one batch, dated the first of a month. |
| `Scraper.DiscoverEarlyFailuresWriteNothing` | soldera/scraper.py:134-158 | A ScraperException and the date error leave the database untouched: a failed request, a missing link, an unparsable file name, or a year out of range. |
| `Scraper.DiscoverFailureReasons` | soldera/scraper.py:134-158 | Each early failure ends the run with its own ScraperException and no write: a failed index or file request wraps its request error, a missing or empty link is "no results link", and an unparsable file name names the link's last segment. |
| `Scraper.IndexFetchFailure` | soldera/scraper.py:157-158 | The index page failing to answer, or answering 4xx or 5xx, ends the run with the wrapped request error and no write. |
| `Scraper.DiscoverStoresLinkedPeriod` | soldera/scraper.py:145-155 | A run that stores the downloaded file passes and appends one batch dated the first day of the period named in the link's file name, with the file's participant count and hash. |
| `Scraper.DiscoverTwice` | soldera/scraper.py:127-155 | With unchanged answers, a second run after a passing one stores nothing and passes. |
| `Scraper.TempFile.Write` | soldera/scraper.py:72-76 | After the write the temporary file exists and holds exactly the downloaded bytes. |
| `Scraper.TempFile.Unlink` | soldera/scraper.py:124 | After the unlink the temporary file is absent, whether or not it existed. |
| `Scraper.ReadAndStore` | soldera/scraper.py:78-120 | The store's new state and the outcome are those of `StoreResults` on the staged bytes. |
| `Scraper.ProcessResultsFile` | soldera/scraper.py:58-124 | The store's state and the outcome equal `ProcessResults`. A duplicate never touches the temporary file. Otherwise the file is deleted however the `try` that reads it ends. |
| `Scraper.RunDiscovery` | soldera/scraper.py:127-158 | The store's state and the outcome equal `Discover`. No temporary file is left behind that was not there before. |
| `JsonImport.ParseMonth` | soldera/management/commands/populate_auctions_from_json.py:35 | `%m` reads a month 1 to 12 from one or two characters. |
| `JsonImport.ParseDay` | soldera/management/commands/populate_auctions_from_json.py:35 | `%d` reads a day 1 to 31 from one or two characters. |
| `JsonImport.ParseIsoDate` | soldera/management/commands/populate_auctions_from_json.py:35 | `strptime(text, '%Y-%m-%d')` yields only valid dates, from 8 to 10 characters with `-` after the four-digit year. |
| `JsonImport.FormatIsoDate` | soldera/management/commands/populate_auctions_from_json.py:35 | The ISO form of a date is 10 characters with `-` at positions 4 and 7. |
| `JsonImport.ParseIsoDateOfFormat` | soldera/management/commands/populate_auctions_from_json.py:35 | Every valid date written in ISO form is read back as the same date. |
| `JsonImport.ParseIsoDateExamples` | soldera/management/commands/populate_auctions_from_json.py:35 | Unpadded month and day are accepted, and so is a space before a one-digit day. |
| `JsonImport.ParseIsoDateRejects` | soldera/management/commands/populate_auctions_from_json.py:35 | The parser rejects 29 February of a common year, month 13, year 0, and trailing text. |
| `JsonImport.ItemData` | soldera/management/commands/populate_auctions_from_json.py:42-50 | An element is copied verbatim exactly when every key is present. Otherwise it is a missing-key error. |
| `JsonImport.ItemDataMissingKey` | soldera/management/commands/populate_auctions_from_json.py:43-48 | The reported key is the first missing one in argument order. |
| `JsonImport.RolledBack` | soldera/management/commands/populate_auctions_from_json.py:26 | A rollback restores the rows and keeps the id sequences it reached. |
| `JsonImport.ImportItemsKeepsValid` | soldera/management/commands/populate_auctions_from_json.py:41-50 | The item loop keeps every constraint and never touches a batch row. It never raises IntegrityError for a stored owner. |
| `JsonImport.ImportItemsEffect` | soldera/management/commands/populate_auctions_from_json.py:41-50 | A passing item loop copied every element verbatim, in order, with consecutive ids, owned by the batch. |
| `JsonImport.SkipStoredEntry` | soldera/management/commands/populate_auctions_from_json.py:29-31 | An entry whose hash is stored is skipped without a write. |
| `JsonImport.ImportEntryEffect` | soldera/management/commands/populate_auctions_from_json.py:28-50 | One entry keeps every constraint and leaves its hash stored. A new entry appends one batch with the parsed date, count and hash, and its line items, none when `auctions` is missing. |
| `JsonImport.ImportEntriesKeepsValid` | soldera/management/commands/populate_auctions_from_json.py:28-50 | The entry loop keeps every constraint and only appends. |
| `JsonImport.ImportEntriesStoresHashes` | soldera/management/commands/populate_auctions_from_json.py:28-31 | After a passing loop every entry's hash is stored, so a hash repeated later in the file is skipped. |
| `JsonImport.ImportEntriesAllStored` | soldera/management/commands/populate_auctions_from_json.py:28-31 | Entries whose hashes are all stored write nothing. |
| `JsonImport.HandleAllOrNothing` | soldera/management/commands/populate_auctions_from_json.py:14-59 | A failed import leaves exactly the rows it found. Every import keeps every constraint, and IntegrityError never escapes. |
| `JsonImport.HandleTwice` | soldera/management/commands/populate_auctions_from_json.py:14-59 | Importing the same document again after a passing import changes nothing. |
| `JsonImport.ImportItemsInto` | soldera/management/commands/populate_auctions_from_json.py:41-50 | The store's state and the outcome after the loop equal `ImportItems`. |
| `JsonImport.ImportEntryInto` | soldera/management/commands/populate_auctions_from_json.py:28-50 | The store's state and the outcome after one pass equal `ImportEntry`. |
| `JsonImport.HandleCommand` | soldera/management/commands/populate_auctions_from_json.py:14-59 | The store's state and the outcome equal `Handle`, rollback included. |
| `Charts.MapTechToColor` | react/src/AuctionCharts.tsx:24-35 | There is a colour exactly for the four technology codes. |
| `Charts.MapTechToLabel` | react/src/AuctionCharts.tsx:37-48 | There is a label exactly for the four technology codes. |
| `Charts.ColorsAndLabelsDistinct` | react/src/AuctionCharts.tsx:24-48 | No two technologies share a colour or a label. |
| `Charts.StoredTechnologiesAreCharted` | react/src/AuctionCharts.tsx:24-48 | A technology stored from a French name gets a colour and a label. An unmapped, non-code name gets neither. |
| `Charts.RegionBarsMatchPie` | react/src/AuctionCharts.tsx:198-206 | The four stacked bars use each technology's key, pie colour and pie label. |
| `Charts.OnTechnology` | react/src/AuctionCharts.tsx:68 | The items of a technology: an item is kept exactly when it occurs in the input with that technology. |
| `Charts.InRegion` | react/src/AuctionCharts.tsx:120 | The items of a region: an item is kept exactly when it occurs in the input in that region. |
| `Charts.TechnologyTotalsIndexed` | react/src/AuctionCharts.tsx:55-93 | The technology dictionary lists each key once, and exactly its own keys. |
| `Charts.AddTechnologyIndexed` | react/src/AuctionCharts.tsx:69-77 | One callback keeps the dictionary indexed. |
| `Charts.TechnologyTotalsSums` | react/src/AuctionCharts.tsx:55-93 | There is a record exactly for each technology that occurs. It holds the sums of volume auctioned, volume sold and winners over that technology's items. |
| `Charts.AddTechnologyVolume` | react/src/AuctionCharts.tsx:78 | One callback adds the item's volume sold to the total of the records. |
| `Charts.TechnologyVolumeConserved` | react/src/AuctionCharts.tsx:78 | The technology records' volumes add up to the volume sold of the batch. |
| `Charts.AggregateByTechnology` | react/src/AuctionCharts.tsx:55-93 | The loop's dictionary equals the reduction. It is indexed and conserves the volume sold. |
| `Charts.RegionStepDescribes` | react/src/AuctionCharts.tsx:136-150 | One callback keeps a region record described by the items of its region. |
| `Charts.AddRegionIndexed` | react/src/AuctionCharts.tsx:120-134 | One callback keeps the region dictionary indexed. |
| `Charts.RegionTotalsIndexed` | react/src/AuctionCharts.tsx:101-154 | The region dictionary is indexed. |
| `Charts.RegionTotalsKeys` | react/src/AuctionCharts.tsx:120-134 | There is a record exactly for each region that occurs. |
| `Charts.RegionTotalsDescribe` | react/src/AuctionCharts.tsx:136-150 | Each technology field holds the volume sold of the region's last item of that technology, or 0. The `region` field is the region name unless a `region` item overwrote it. The total is the region's volume sold unless a `totalVolume` item overwrote it. |
| `Charts.RegionTotalsFields` | react/src/AuctionCharts.tsx:101-154 | The dictionary is indexed, has a record exactly for each region that occurs, and each record is described by its region's items. |
| `Charts.AddRegionVolume` | react/src/AuctionCharts.tsx:150 | One callback of an item whose technology is not `totalVolume` adds its volume sold to the total of the records. |
| `Charts.RegionVolumeConserved` | react/src/AuctionCharts.tsx:150 | When no technology is `totalVolume`, the region totals add up to the volume sold of the batch. |
| `Charts.TotalVolumeTechnologyDoublesCount` | react/src/AuctionCharts.tsx:137-150 | An item of technology `totalVolume` makes the total differ from the sold sum: 10 against 8. |
| `Charts.AggregateByRegion` | react/src/AuctionCharts.tsx:101-154 | The loop's dictionary equals the reduction and is indexed. It conserves the volume sold when no technology is `totalVolume`. |
| `Charts.AuctionCharts` | react/src/AuctionCharts.tsx:50-55 | The empty-state view is shown exactly for an empty list. Otherwise both tables are those of the first batch's items, indexed, and the technology table conserves its volume sold. |
| `Listener.ReadLine` | varia/supervisor_event_listener.py:26 | `readline()` splits the input into a line and the rest. The line ends at the first newline, or is everything when there is no newline. |
| `Listener.RemoveNewline` | varia/supervisor_event_listener.py:26 | `removesuffix("\n")` removes at most one trailing newline. |
| `Listener.ReadChars` | varia/supervisor_event_listener.py:29 | `read(n)` takes `n` characters, or everything when `n` is negative or too large. |
| `Listener.ParseTokens` | varia/supervisor_event_listener.py:28 | The comprehension succeeds exactly when every token holds a colon. |
| `Listener.ParseTokensSnoc` | varia/supervisor_event_listener.py:28 | The last token's pair is stored over the dictionary of the tokens before it. |
| `Listener.ParseTokensHasKeys` | varia/supervisor_event_listener.py:28 | Every token's key is in the dictionary. |
| `Listener.ParseTokensOnlyKeys` | varia/supervisor_event_listener.py:28 | Every key of the dictionary comes from a token. |
| `Listener.ParseTokensLastWinsAt` | varia/supervisor_event_listener.py:28 | A token's key holds its value when no later token names the same key. |
| `Listener.ParseTokensLastWins` | varia/supervisor_event_listener.py:28 | Each key holds the value of the last token that names it. |
| `Listener.EmptyLineIsMalformed` | varia/supervisor_event_listener.py:28 | An empty header line cannot be unpacked. |
| `Listener.Tokens` | varia/supervisor_event_listener.py:28 | One `key:value` token per header, in order. |
| `Listener.ParseTokensOfHeaders` | varia/supervisor_event_listener.py:28 | The tokens of plain headers parse to the dictionary the headers denote. |
| `Listener.ParseHeaderLine` | varia/supervisor_event_listener.py:28 | A written header line is parsed back to the headers' dictionary. |
| `Listener.HeaderLineHasNoNewline` | varia/supervisor_event_listener.py:26 | A header line holds no newline, so `readline()` cannot stop inside it. |
| `Listener.ReadHeaders` | varia/supervisor_event_listener.py:26-29 | Empty input is a malformed header. Success has a `len` header that `int()` accepts, at most 4300 digits, and whose value is the length returned. It consumes a non-empty prefix of the input. |
| `Listener.NextEvent` | varia/supervisor_event_listener.py:26-29 | Empty input fails. A read event has a `len` header that `int()` accepts, so at most 4300 digits, and leaves a strictly shorter suffix of the input. |
| `Listener.ReadLineOfEventText` | varia/supervisor_event_listener.py:26 | Reading a written event stops at the newline after its header line, and the newline is removed. |
| `Listener.ReadHeadersOfEventText` | varia/supervisor_event_listener.py:26-29 | A written event's header line is read back to its dictionary and the body's length. A length of more than 4300 digits is an invalid length instead. |
| `Listener.NextEventOfEventText` | varia/supervisor_event_listener.py:26-29 | A written event whose `len` is its body's length is read back as exactly its headers and body, leaving the rest of the input. A length of more than 4300 digits is an invalid length instead. |
| `Listener.ReplyIsOkFrame` | varia/supervisor_event_listener.py:39 | `RESULT 2\nOK` is a RESULT frame whose declared length is that of its `OK` payload. |
| `Listener.EventListener.constructor` | varia/supervisor_event_listener.py:23 | A new listener has the whole input unread, nothing written and nothing logged. |
| `Listener.EventListener.Step` | varia/supervisor_event_listener.py:24-39 | A round writes `READY` and consumes the next event. If the event was read, it writes the `OK` reply and logs the body of a `PROCESS_STATE_FATAL` event. On failure it stops after the header line with the matching error, including a `len` that `int()` refuses for having more than 4300 digits. |

## Left out

- MD5 hashing, HTTP, HTML parsing, the pandas workbook reads and the Windows-1252 re-decoding are parameters of `Scraper.Env`; their own behaviour is not modelled.
- `average_price` and every price field of the charts are left out because they are floating point: the weighted average, `toFixed(3)`, and the `*_averagePrice` keys.
- Python's Unicode case mapping, Unicode digits and Unicode whitespace are left out; `upper`, `int()` and `strip` are modelled on ASCII.
- `PyStr.NatToString` is the decimal form of every natural number. CPython's `str(n)` raises ValueError past 4300 digits, but no core code converts an integer to text, so that failure is not modelled. The decimal form only builds the inputs of the round-trip lemmas.
- `DigitsValueOfNatToString` is a fact about decimal digits for every `n`, not about `str(n)`; `str(n)`'s 4300-digit ValueError is not modelled, for the reason given for `PyStr.NatToString`.
- `Scraper.Fetch`: `requests.get` is called without a timeout (`soldera/scraper.py:135`, `soldera/scraper.py:150`), so a run can block forever on a server that never answers. `Env.http` is total, so every request returns a response or a transport failure.
- `Charts.AggregateByTechnology`: `Object.values` lists integer-like keys first in numeric order; the model keeps insertion order.
- `Charts.AggregateByTechnology` and `Charts.AggregateByRegion`: keys that already exist on the object prototype, such as `constructor`, `toString` or `__proto__`, are not modelled. For such a key the `!acc[...]` test finds the inherited value and no fresh record is created. The region chart keeps insertion order like the technology chart.
- `Charts.RegionVolumeConserved`: it assumes no item has technology `totalVolume`. The front end's technology type excludes that value, and `Charts.TotalVolumeTechnologyDoublesCount` shows what happens otherwise.
- JSON values of the wrong type, such as a string where a number is expected, are left out; the document is typed and only missing keys are modelled.
- The database is modelled as PostgreSQL, the production engine of the example settings, which enforces the declared columns: an over-long `varchar(32)` or an integer outside 32 bits is a DataError. SQLite, the development default, enforces neither, and is not modelled. Concurrency, locking and migrations are left out.
- `Models.CreateResults`: raises DataError for every hash longer than 32 characters. PostgreSQL instead silently truncates a value whose excess characters are all spaces, so a JSON `md5_hash` of 32 characters followed by spaces would be stored. That case is not modelled.
- `Models.StringLess` is code-point order. The `ordering` of both tables (`soldera/models.py:10`, `soldera/models.py:25`) is carried out by the database under its own collation, which may order text differently.
- Id values consumed by failed inserts are not modelled; a failed insert leaves the sequence where it was.
- The JSON command's file opening and decoding are left out; the command receives their result (`LoadError` or the document). Its success message on standard output is left out.
- The listener's endless `while True` loop is modelled as one `Step` per round; driving it is left to the caller.
- `terminate_supervisor` is never called by `main`, so it is left out.
- The listener's `DEBUG` log is left out, because `django.conf.global_settings.DEBUG` is `False`.
- `Listener.EventListener.Step` logs the event body; the log message's surrounding text and its `repr()` quoting are left out.
- `Listener.ReadChars`: supervisord's `len` counts bytes but `read` counts characters; the model counts characters on both sides.
- Flushing of the standard streams is left out.
- `Listener.ReadLine`: Python opens standard input in text mode, decoding the bytes and turning `\r\n` and `\r` into `\n`. The model reads characters as given.
- `Scraper.TempFile.Write` cannot fail. In the source, `mkdir` and `open(...).write` (`soldera/scraper.py:72-76`) run before the `try`, so a failure there would skip the `finally` unlink and could leave a created or partly written file behind.
