/**
  Discovery and ingestion of the latest published auction results (`soldera/scraper.py`).

  A run fetches the results index page, takes the "Download the latest results" link,
  reads the auction month and year from the file name, downloads the spreadsheet, and
  stores it unless a batch with the same MD5 hash is already stored.  Storing creates the
  batch first and then all its line items in one bulk insert, with no transaction around
  the two, and stages the bytes in a temporary file that is deleted on every exit from
  the `try` that reads it.
*/
module Scraper {
  import opened Wrappers
  import opened PyStr
  import opened Technology
  import opened Models
  import opened Repository

  type byte = b: int | 0 <= b < 256

  const BaseUrl: string := "https://www.eex.com"
  const ResultsUrl: string := BaseUrl + "/en/markets/energy-certificates/french-auctions-power"

  /** `calendar.Month`: each member's name and its value, January being 1. */
  const MonthNumbers: map<string, int> := map[
    "JANUARY" := 1, "FEBRUARY" := 2, "MARCH" := 3, "APRIL" := 4, "MAY" := 5, "JUNE" := 6,
    "JULY" := 7, "AUGUST" := 8, "SEPTEMBER" := 9, "OCTOBER" := 10, "NOVEMBER" := 11, "DECEMBER" := 12
  ]

  /** What `hashlib.md5(...).hexdigest()` returns: 32 lower-case hexadecimal digits. */
  predicate IsHexDigest(s: string)
  {
    |s| == 32 && forall i | 0 <= i < |s| :: s[i] in "0123456789abcdef"
  }

  type Digest = s: string | IsHexDigest(s) witness "00000000000000000000000000000000"

  /** What `requests.get(url)` produced: no response at all (connection error, timeout, ...) or a response. */
  datatype Response = TransportFailure | Reply(status: int, content: seq<byte>)

  /** The `requests.RequestException`s a run can meet. */
  datatype RequestError = ConnectionError | HttpError(status: int)

  /** An exception raised inside pandas while reading the workbook. */
  datatype SheetError = SheetError(message: string)

  /**
    One row of the volume table after the columns were renamed: each cell the row has, or
    None when the column is absent.  `average_price` (a float) is not modelled.
  */
  datatype Row = Row(
    region: Option<string>,
    technology: Option<string>,
    volumeAuctioned: Option<int>,
    volumeSold: Option<int>,
    numberOfWinners: Option<int>)

  /** The collaborators a run calls and whose code is not part of this model. */
  datatype Env = Env(
    /** `requests.get(url)` */
    http: string -> Response,
    /** `BeautifulSoup(text).find("a", title="Download the latest results").get("href")`; None when there is no such anchor or it has no href */
    findResultsHref: seq<byte> -> Option<string>,
    /** `hashlib.md5(content).hexdigest()` */
    md5: seq<byte> -> Digest,
    /** `pd.read_excel(path, skiprows=[0, 1], nrows=1).columns[1]` */
    readParticipants: seq<byte> -> Result<int, SheetError>,
    /** `pd.read_excel(path, skiprows=[0, 1, 2, 3])`, then `rename`, `drop` and `iterrows` */
    readVolumeRows: seq<byte> -> Result<seq<Row>, SheetError>,
    /** `s.encode(encoding="Windows-1252").decode()`; None when either step raises UnicodeError */
    repairEncoding: string -> Option<string>)

  /** Why a `ScraperException` was raised. */
  datatype ScraperReason = FetchFailed(cause: RequestError) | NoResultsLink | UnparsableFilename(filename: string)

  /** The exceptions that escape a run. */
  datatype Failure =
    | ScraperException(reason: ScraperReason)
    /** ValueError or OverflowError from `datetime.date(year, month, 1)`, not wrapped */
    | DateOutOfRange(year: int, month: int)
    | SpreadsheetError(sheet: SheetError)
    /** UnicodeError from the region repair */
    | EncodingError(region: string)
    | DatabaseError(db: DbError)

  /** The database after a step of a run and how the step ended. */
  datatype Run = Run(db: Db, outcome: Outcome<Failure>)

  // ---------------------------------------------------------------------------
  // Links and file names

  /** `_get_results_xlsx_link`: the base origin, one slash, then the link exactly as given. */
  function ResultsXlsxLink(relativeLink: string): (url: string)
    ensures |url| == |BaseUrl| + 1 + |relativeLink|
    ensures url[..|BaseUrl| + 1] == "https://www.eex.com/"
    ensures url[|BaseUrl| + 1..] == relativeLink
  {
    BaseUrl + "/" + relativeLink
  }

  /** A link that already starts with a slash is not normalised: the URL then holds a double slash. */
  lemma LeadingSlashKept(path: string)
    ensures ResultsXlsxLink("/" + path) == "https://www.eex.com//" + path
  {
  }

  /** The file name a run reads the date from is the last path segment of the URL it downloads. */
  lemma DownloadedFileName(href: string)
    ensures LastSegment(ResultsXlsxLink(href), '/') == LastSegment(href, '/')
  {
    var prefix := BaseUrl + "/";
    assert ResultsXlsxLink(href) == prefix + href;
    assert prefix[|prefix| - 1] == '/';
    LastSegmentAfterSeparator(prefix, href, '/');
  }

  // ---------------------------------------------------------------------------
  // The date in the file name

  /** Every value of `calendar.Month` is a month number. */
  lemma MonthNumbersInRange(name: string)
    requires name in MonthNumbers
    ensures 1 <= MonthNumbers[name] <= 12
  {
  }

  /**
    `_parse_filename_date`: split on `_`, the month is `parts[1]` (any case), the year is
    `int(parts[2])`; later parts are ignored.  Every failure (IndexError, KeyError,
    ValueError) becomes the same ScraperException.
  */
  function ParseFilenameDate(filename: string): (r: Result<(int, int), ScraperReason>)
    ensures r.Success? <==>
      var parts := Split(filename, '_');
      |parts| >= 3 && Upper(parts[1]) in MonthNumbers && ParseInt(parts[2]).Some?
    ensures r.Success? ==>
      var parts := Split(filename, '_');
      && 1 <= r.value.1 <= 12
      && MonthNumbers[Upper(parts[1])] == r.value.1
      && ParseInt(parts[2]) == Some(r.value.0)
    ensures r.Failure? ==> r.error == UnparsableFilename(filename)
  {
    var parts := Split(filename, '_');
    if |parts| < 2 then Failure(UnparsableFilename(filename))
    else
      var name := Upper(parts[1]);
      if name !in MonthNumbers then Failure(UnparsableFilename(filename))
      else
        var month := MonthNumbers[name];
        MonthNumbersInRange(name);
        if |parts| < 3 then Failure(UnparsableFilename(filename))
        else
          match ParseInt(parts[2])
          case None => Failure(UnparsableFilename(filename))
          case Some(year) => Success((year, month))
  }

  /**
    Every file name `prefix_month_year[_rest]` parses: the month in any letter case, the
    year in decimal, and whatever follows the year ignored; only a year of more than
    `MaxStrDigits` digits, which `int()` refuses, makes it fail.
  */
  lemma {:induction false} ParseFilenameDateOfParts(prefix: string, month: string, m: int, year: int, rest: seq<string>)
    requires Upper(month) in MonthNumbers && MonthNumbers[Upper(month)] == m
    requires '_' !in prefix && '_' !in month
    requires forall i | 0 <= i < |rest| :: '_' !in rest[i]
    ensures var filename := Join([prefix, month, IntToString(year)] + rest, '_');
      ParseFilenameDate(filename) ==
        if DigitLength(year) <= MaxStrDigits then Success((year, m)) else Failure(UnparsableFilename(filename))
  {
    var parts := [prefix, month, IntToString(year)] + rest;
    assert '_' !in IntToString(year) by {
      var digits := NatToString(if year < 0 then -year else year);
      assert forall i | 0 <= i < |digits| :: IsDigit(digits[i]);
    }
    SplitJoin(parts, '_');
    ParseIntOfIntToString(year);
  }

  /** `str(2024)` */
  lemma Year2024()
    ensures IntToString(2024) == "2024"
  {
  }

  /** `"march".upper()` and `"MARCH".upper()` name the third month. */
  lemma MarchIsThirdMonth(month: string)
    requires month == "march" || month == "MARCH"
    ensures Upper(month) in MonthNumbers && MonthNumbers[Upper(month)] == 3
  {
    assert Upper(month) == "MARCH";
  }

  /** `results_march_2024` and `results_MARCH_2024` are the join of their three parts. */
  lemma JoinExample(filename: string, month: string)
    requires month == "march" || month == "MARCH"
    requires filename == "results_" + month + "_2024"
    ensures Join(["results", month, IntToString(2024)] + [], '_') == filename
  {
    Year2024();
    assert ["results", month, IntToString(2024)] + [] == ["results", month, "2024"];
    if month == "march" {
      assert Join(["results", "march", "2024"], '_') == "results_march_2024";
    } else {
      assert Join(["results", "MARCH", "2024"], '_') == "results_MARCH_2024";
    }
  }

  lemma MonthInAnyCaseParses(filename: string, month: string)
    requires month == "march" || month == "MARCH"
    requires filename == "results_" + month + "_2024"
    ensures ParseFilenameDate(filename) == Success((2024, 3))
  {
    MarchIsThirdMonth(month);
    JoinExample(filename, month);
    assert '_' !in month;
    ParseFilenameDateOfParts("results", month, 3, 2024, []);
  }

  /** Letter case does not matter: `march` and `MARCH` give the same date. */
  lemma ParseFilenameDateExample(lower: string, upper: string)
    requires lower == "results_march_2024" && upper == "results_MARCH_2024"
    ensures ParseFilenameDate(lower) == ParseFilenameDate(upper) == Success((2024, 3))
  {
    MonthInAnyCaseParses(lower, "march");
    MonthInAnyCaseParses(upper, "MARCH");
  }

  lemma SplitsInto(filename: string, parts: seq<string>)
    requires |parts| >= 1 && forall i | 0 <= i < |parts| :: '_' !in parts[i]
    requires Join(parts, '_') == filename
    ensures Split(filename, '_') == parts
  {
    SplitJoin(parts, '_');
  }

  lemma ExtensionExampleParts(filename: string)
    requires filename == "results_march_2024.xlsx"
    ensures Split(filename, '_') == ["results", "march", "2024.xlsx"]
  {
    assert Join(["results", "march", "2024.xlsx"], '_') == filename;
    SplitsInto(filename, ["results", "march", "2024.xlsx"]);
  }

  /** `int("2024.xlsx")` raises ValueError. */
  lemma YearWithExtensionIsNotInt()
    ensures ParseInt("2024.xlsx").None?
  {
    assert Strip("2024.xlsx") == "2024.xlsx";
    assert !IsDigitRun("2024.xlsx");
  }

  /** The year part must be an integer literal on its own: an extension glued to it makes the parse fail. */
  lemma ExtensionGluedToYearFails(filename: string)
    requires filename == "results_march_2024.xlsx"
    ensures ParseFilenameDate(filename).Failure?
  {
    ExtensionExampleParts(filename);
    YearWithExtensionIsNotInt();
  }

  lemma SecondPrefixWordParts(filename: string, rest: string)
    requires rest == "MARCH_2024_v2.xlsx"
    requires filename == "resultats_auctions_" + rest
    ensures |Split(filename, '_')| >= 2 && Split(filename, '_')[1] == "auctions"
  {
    assert filename == "resultats" + ['_'] + ("auctions" + ['_'] + rest);
    SplitAfterFirstSeparator("resultats", "auctions" + ['_'] + rest, '_');
    SplitAfterFirstSeparator("auctions", rest, '_');
  }

  lemma AuctionsIsNotAMonth()
    ensures Upper("auctions") !in MonthNumbers
  {
    var r := Upper("auctions");
    assert |r| == 8 && r[0] == 'A';
  }

  /** Month and year are the second and third parts: a second prefix word makes the parse fail. */
  lemma MonthMustBeSecondPart(filename: string)
    requires filename == "resultats_auctions_MARCH_2024_v2.xlsx"
    ensures ParseFilenameDate(filename).Failure?
  {
    SecondPrefixWordParts(filename, "MARCH_2024_v2.xlsx");
    AuctionsIsNotAMonth();
  }

  /** `datetime.date(year=year, month=month, day=1)`: the day is always the first. */
  function PeriodDate(year: int, month: int): (r: Result<Date, Failure>)
    requires 1 <= month <= 12
    ensures r.Success? <==> MinYear <= year <= MaxYear
    ensures r.Success? ==> ValidDate(r.value) && r.value.year == year && r.value.month == month && r.value.day == 1
    ensures r.Failure? ==> r.error == DateOutOfRange(year, month)
  {
    if MinYear <= year <= MaxYear then Success(Date(year, month, 1)) else Failure(DateOutOfRange(year, month))
  }

  // ---------------------------------------------------------------------------
  // Fetching

  /** `raise_for_status()` raises for the 4xx and 5xx codes only. */
  predicate IsHttpError(status: int)
  {
    400 <= status < 600
  }

  /** `requests.get(url)` followed by `raise_for_status()`. */
  function Fetch(env: Env, url: string): (r: Result<seq<byte>, RequestError>)
    ensures r.Success? <==> env.http(url).Reply? && !IsHttpError(env.http(url).status)
    ensures r.Success? ==> r.value == env.http(url).content
    ensures r.Failure? && env.http(url).Reply? ==> r.error == HttpError(env.http(url).status)
  {
    match env.http(url)
    case TransportFailure => Failure(ConnectionError)
    case Reply(status, content) => if IsHttpError(status) then Failure(HttpError(status)) else Success(content)
  }

  // ---------------------------------------------------------------------------
  // Row normalisation

  /**
    One `Auction(...)` of the list comprehension: absent text cells become "Unknown" and
    absent numbers 0, the region goes through the encoding repair and the technology
    through the vocabulary lookup.
  */
  function NormalizeRow(row: Row, repair: string -> Option<string>): (r: Result<AuctionData, Failure>)
    ensures r.Failure? <==> repair(row.region.GetOr("Unknown")).None?
    ensures r.Failure? ==> r.error == EncodingError(row.region.GetOr("Unknown"))
  {
    var region := row.region.GetOr("Unknown");
    match repair(region)
    case None => Failure(EncodingError(region))
    case Some(fixed) =>
      Success(AuctionData(
        region := fixed,
        technology := MapTechnology(row.technology.GetOr("Unknown")),
        volumeAuctioned := row.volumeAuctioned.GetOr(0),
        volumeSold := row.volumeSold.GetOr(0),
        numberOfWinners := row.numberOfWinners.GetOr(0)))
  }

  /**
    A normalised row: the repaired region, the technology code (or the name itself when it
    is not in the mapping, "Unknown" when missing), and each missing number as 0.
  */
  lemma NormalizeRowFields(row: Row, repair: string -> Option<string>)
    requires NormalizeRow(row, repair).Success?
    ensures var d := NormalizeRow(row, repair).value;
      && Some(d.region) == repair(row.region.GetOr("Unknown"))
      && (row.technology.None? ==> d.technology == "Unknown")
      && (row.technology.Some? && row.technology.value in Mapping ==>
            d.technology == Mapping[row.technology.value] && IsTechType(d.technology))
      && (row.technology.Some? && row.technology.value !in Mapping ==> d.technology == row.technology.value)
      && (row.volumeAuctioned.None? ==> d.volumeAuctioned == 0)
      && (row.volumeSold.None? ==> d.volumeSold == 0)
      && (row.numberOfWinners.None? ==> d.numberOfWinners == 0)
      && (row.volumeAuctioned.Some? ==> d.volumeAuctioned == row.volumeAuctioned.value)
      && (row.volumeSold.Some? ==> d.volumeSold == row.volumeSold.value)
      && (row.numberOfWinners.Some? ==> d.numberOfWinners == row.numberOfWinners.value)
  {
  }

  /** The whole list comprehension: the items in row order, or the first row's failure. */
  function NormalizeRows(rows: seq<Row>, repair: string -> Option<string>): (r: Result<seq<AuctionData>, Failure>)
    ensures r.Success? <==> forall i | 0 <= i < |rows| :: NormalizeRow(rows[i], repair).Success?
    ensures r.Success? ==>
      |r.value| == |rows| && forall i | 0 <= i < |rows| :: NormalizeRow(rows[i], repair) == Success(r.value[i])
    ensures r.Failure? ==>
      exists i | 0 <= i < |rows| ::
        && NormalizeRow(rows[i], repair) == Failure(r.error)
        && forall j | 0 <= j < i :: NormalizeRow(rows[j], repair).Success?
  {
    if rows == [] then Success([])
    else
      match NormalizeRow(rows[0], repair)
      case Failure(e) => Failure(e)
      case Success(item) =>
        match NormalizeRows(rows[1..], repair)
        case Failure(e) =>
          NormalizeRowsFailureShift(rows, repair, e);
          Failure(e)
        case Success(items) =>
          NormalizeRowsSuccessCons(rows, repair, item, items);
          Success([item] + items)
  }

  /** A failure in the tail, after a head that succeeds, is a first failure of the whole list. */
  lemma NormalizeRowsFailureShift(rows: seq<Row>, repair: string -> Option<string>, e: Failure)
    requires rows != [] && NormalizeRow(rows[0], repair).Success?
    requires exists i | 0 <= i < |rows[1..]| ::
      && NormalizeRow(rows[1..][i], repair) == Failure(e)
      && forall j | 0 <= j < i :: NormalizeRow(rows[1..][j], repair).Success?
    ensures exists i | 0 <= i < |rows| ::
      && NormalizeRow(rows[i], repair) == Failure(e)
      && forall j | 0 <= j < i :: NormalizeRow(rows[j], repair).Success?
  {
    var tail := rows[1..];
    var i :| 0 <= i < |tail| && NormalizeRow(tail[i], repair) == Failure(e)
             && forall j | 0 <= j < i :: NormalizeRow(tail[j], repair).Success?;
    assert rows[i + 1] == tail[i];
    forall j | 0 <= j < i + 1 ensures NormalizeRow(rows[j], repair).Success? {
      if j > 0 { assert rows[j] == tail[j - 1]; }
    }
  }

  lemma NormalizeRowsSuccessCons(rows: seq<Row>, repair: string -> Option<string>, item: AuctionData, items: seq<AuctionData>)
    requires rows != [] && NormalizeRow(rows[0], repair) == Success(item)
    requires |items| == |rows[1..]| && forall i | 0 <= i < |rows[1..]| :: NormalizeRow(rows[1..][i], repair) == Success(items[i])
    ensures forall i | 0 <= i < |rows| :: NormalizeRow(rows[i], repair) == Success(([item] + items)[i])
  {
    forall i | 0 < i < |rows| ensures NormalizeRow(rows[i], repair) == Success(([item] + items)[i]) {
      assert rows[i] == rows[1..][i - 1];
    }
  }

  // ---------------------------------------------------------------------------
  // Storing a file (`_process_results_file` and `run_discovery` as functions of the database)

  /** The `try` block of `_process_results_file`: the batch row first, then all line items. */
  function StoreResults(db: Db, contents: seq<byte>, date: Date, hash: string, env: Env): Run
    requires ValidDate(date)
  {
    match env.readParticipants(contents)
    case Failure(e) => Run(db, Fail(SpreadsheetError(e)))
    case Success(participants) =>
      match CreateResults(db, date, participants, hash)
      case Failure(e) => Run(db, Fail(DatabaseError(e)))
      case Success((withBatch, id)) =>
        match env.readVolumeRows(contents)
        case Failure(e) => Run(withBatch, Fail(SpreadsheetError(e)))
        case Success(rows) =>
          match NormalizeRows(rows, env.repairEncoding)
          case Failure(f) => Run(withBatch, Fail(f))
          case Success(items) =>
            match CreateAuctions(withBatch, items, id)
            case Failure(e) => Run(withBatch, Fail(DatabaseError(e)))
            case Success(withItems) => Run(withItems, Pass)
  }

  /** `_process_results_file`: nothing at all when a batch with the file's hash is stored. */
  function ProcessResults(db: Db, contents: seq<byte>, date: Date, env: Env): Run
    requires ValidDate(date)
  {
    var hash := env.md5(contents);
    if HashStored(db, hash) then Run(db, Pass) else StoreResults(db, contents, date, hash, env)
  }

  /** `run_discovery`: only `requests.RequestException` is wrapped into a ScraperException. */
  function Discover(db: Db, env: Env): Run
  {
    match Download(env)
    case Failure(f) => Run(db, Fail(f))
    case Success((contents, date)) => ProcessResults(db, contents, date, env)
  }

  /**
    The published link and the period its file name names, when the index page, the link
    and the download of the file all succeed.
  */
  function LinkedPeriod(env: Env): (r: Option<(string, (int, int))>)
    ensures r.Some? <==>
      && Fetch(env, ResultsUrl).Success?
      && env.findResultsHref(Fetch(env, ResultsUrl).value).Some?
      && env.findResultsHref(Fetch(env, ResultsUrl).value).value != ""
      && ParseFilenameDate(LastSegment(env.findResultsHref(Fetch(env, ResultsUrl).value).value, '/')).Success?
      && Fetch(env, ResultsXlsxLink(env.findResultsHref(Fetch(env, ResultsUrl).value).value)).Success?
    ensures r.Some? ==>
      && r.value.0 == env.findResultsHref(Fetch(env, ResultsUrl).value).value
      && Success(r.value.1) == ParseFilenameDate(LastSegment(r.value.0, '/'))
  {
    match Fetch(env, ResultsUrl)
    case Failure(_) => None
    case Success(page) =>
      var href := env.findResultsHref(page);
      if href.None? || href.value == "" then None
      else
        match ParseFilenameDate(LastSegment(href.value, '/'))
        case Failure(_) => None
        case Success(period) =>
          if Fetch(env, ResultsXlsxLink(href.value)).Failure? then None
          else Some((href.value, period))
  }

  /**
    The part of `run_discovery` before the database is consulted: the index page, the
    link, the period in its file name, the spreadsheet's bytes and the period date.
  */
  function Download(env: Env): (r: Result<(seq<byte>, Date), Failure>)
    ensures r.Success? ==> ValidDate(r.value.1) && r.value.1.day == 1
    ensures r.Success? <==> LinkedPeriod(env).Some? && MinYear <= LinkedPeriod(env).value.1.0 <= MaxYear
    ensures r.Success? ==>
      var (href, (year, month)) := LinkedPeriod(env).value;
      r.value == (env.http(ResultsXlsxLink(href)).content, Date(year, month, 1))
    ensures LinkedPeriod(env).None? ==> r.Failure? && r.error.ScraperException?
    ensures LinkedPeriod(env).Some? && !(MinYear <= LinkedPeriod(env).value.1.0 <= MaxYear) ==>
      r == Failure(DateOutOfRange(LinkedPeriod(env).value.1.0, LinkedPeriod(env).value.1.1))
  {
    match Fetch(env, ResultsUrl)
    case Failure(e) => Failure(ScraperException(FetchFailed(e)))
    case Success(page) =>
      var href := env.findResultsHref(page);
      if href.None? || href.value == "" then Failure(ScraperException(NoResultsLink))
      else
        match ParseFilenameDate(LastSegment(href.value, '/'))
        case Failure(reason) => Failure(ScraperException(reason))
        case Success((year, month)) =>
          match Fetch(env, ResultsXlsxLink(href.value))
          case Failure(e) => Failure(ScraperException(FetchFailed(e)))
          case Success(contents) =>
            match PeriodDate(year, month)
            case Failure(f) => Failure(f)
            case Success(date) => Success((contents, date))
  }

  // ---------------------------------------------------------------------------
  // What a run does to the database

  /** `contents` is a new file whose every step succeeds: the readers, the repair and both inserts. */
  predicate Storable(db: Db, contents: seq<byte>, env: Env)
  {
    var participants := env.readParticipants(contents);
    var rows := env.readVolumeRows(contents);
    && participants.Success? && FitsInt32(participants.value)
    && !HashStored(db, env.md5(contents))
    && rows.Success?
    && NormalizeRows(rows.value, env.repairEncoding).Success?
    && forall k | 0 <= k < |NormalizeRows(rows.value, env.repairEncoding).value| ::
         ValidData(NormalizeRows(rows.value, env.repairEncoding).value[k])
  }

  /**
    A file is accepted exactly when its hash is already stored or it is storable, and a
    storable file adds one batch dated `date` and, owned by it, one line item per row.
  */
  lemma ProcessResultsStores(db: Db, contents: seq<byte>, date: Date, env: Env)
    requires ValidDate(date)
    ensures ProcessResults(db, contents, date, env).outcome == Pass <==>
      HashStored(db, env.md5(contents)) || Storable(db, contents, env)
    ensures Storable(db, contents, env) ==>
      var after := ProcessResults(db, contents, date, env).db;
      var participants := env.readParticipants(contents).value;
      var items := NormalizeRows(env.readVolumeRows(contents).value, env.repairEncoding).value;
      && after.results == db.results + [AuctionResults(db.nextResultsId, date, participants, env.md5(contents))]
      && after.auctions == db.auctions + NewAuctions(items, db.nextResultsId, db.nextAuctionId)
  {
    var hash := env.md5(contents);
    if !HashStored(db, hash) && env.readParticipants(contents).Success? && FitsInt32(env.readParticipants(contents).value) {
      var created := CreateResults(db, date, env.readParticipants(contents).value, hash);
      assert created.Success?;
      assert ResultsIdStored(created.value.0, created.value.1);
    }
  }

  /**
    The batch row and its line items are not written in one transaction: when the batch
    was created but a later step fails, the batch stays stored without its line items, and
    every later run of the same file skips it as already processed.
  */
  lemma PartialBatchPersists(db: Db, contents: seq<byte>, date: Date, retryDate: Date, env: Env)
    requires ValidDate(date) && ValidDate(retryDate)
    requires !HashStored(db, env.md5(contents))
    requires env.readParticipants(contents).Success? && FitsInt32(env.readParticipants(contents).value)
    requires !Storable(db, contents, env)
    ensures ProcessResults(db, contents, date, env).outcome.Fail?
    ensures ProcessResults(db, contents, date, env).db.results ==
      db.results + [AuctionResults(db.nextResultsId, date, env.readParticipants(contents).value, env.md5(contents))]
    ensures ProcessResults(db, contents, date, env).db.auctions == db.auctions
    ensures var after := ProcessResults(db, contents, date, env).db;
      ProcessResults(after, contents, retryDate, env) == Run(after, Pass)
  {
    ProcessResultsStores(db, contents, date, env);
    var after := ProcessResults(db, contents, date, env).db;
    assert after.results[|db.results|].md5Hash == env.md5(contents);
  }

  /** Storing keeps every database constraint and never removes or changes a stored row. */
  lemma ProcessResultsKeepsValid(db: Db, contents: seq<byte>, date: Date, env: Env)
    requires Valid(db) && ValidDate(date)
    ensures Valid(ProcessResults(db, contents, date, env).db)
    ensures Grows(db, ProcessResults(db, contents, date, env).db)
  {
  }

  /**
    A passing run leaves the file's hash stored exactly once, so running it again, with
    any date, does nothing.
  */
  lemma ProcessResultsTwice(db: Db, contents: seq<byte>, date: Date, laterDate: Date, env: Env)
    requires Valid(db) && ValidDate(date) && ValidDate(laterDate)
    requires ProcessResults(db, contents, date, env).outcome == Pass
    ensures var after := ProcessResults(db, contents, date, env).db;
      && CountHash(after.results, env.md5(contents)) == 1
      && ProcessResults(after, contents, laterDate, env) == Run(after, Pass)
  {
    var hash := env.md5(contents);
    var after := ProcessResults(db, contents, date, env).db;
    ProcessResultsStores(db, contents, date, env);
    ProcessResultsKeepsValid(db, contents, date, env);
    if !HashStored(db, hash) {
      assert after.results[|db.results|].md5Hash == hash;
    } else {
      assert after == db;
    }
    UniqueHashCountsOne(after.results, hash);
  }

  /** A run keeps every database constraint, only appends rows, and adds at most one batch, dated the first of a month. */
  lemma DiscoverKeepsValid(db: Db, env: Env)
    requires Valid(db)
    ensures var after := Discover(db, env).db;
      && Valid(after)
      && Grows(db, after)
      && |after.results| <= |db.results| + 1
      && forall i | |db.results| <= i < |after.results| :: after.results[i].date.day == 1
  {
    match Download(env)
    case Failure(_) =>
    case Success((contents, date)) =>
      ProcessResultsStores(db, contents, date, env);
      ProcessResultsKeepsValid(db, contents, date, env);
  }

  /**
    Only a failed request is wrapped into a ScraperException; like a missing link and an
    unreadable file name it stops the run before anything is written, and so does an
    out-of-range year, which escapes as the unwrapped date error.
  */
  lemma DiscoverEarlyFailuresWriteNothing(db: Db, env: Env)
    ensures var r := Discover(db, env);
      r.outcome.Fail? && (r.outcome.error.ScraperException? || r.outcome.error.DateOutOfRange?) ==> r.db == db
  {
  }

  /**
    The reason each early failure gives: a failed request (the index page or the file) is
    wrapped as `FetchFailed`, a missing or empty link is `NoResultsLink`, and an unreadable
    file name is `UnparsableFilename` of the link's last segment; each leaves the database
    as it was.
  */
  lemma DiscoverFailureReasons(db: Db, env: Env)
    ensures var index := Fetch(env, ResultsUrl);
      var r := Discover(db, env);
      && (index.Failure? ==> r == Run(db, Fail(ScraperException(FetchFailed(index.error)))))
      && (index.Success? ==>
            var href := env.findResultsHref(index.value);
            && (href.None? || href.value == "" ==> r == Run(db, Fail(ScraperException(NoResultsLink))))
            && (href.Some? && href.value != "" ==>
                  var filename := LastSegment(href.value, '/');
                  var file := Fetch(env, ResultsXlsxLink(href.value));
                  && (ParseFilenameDate(filename).Failure? ==> r == Run(db, Fail(ScraperException(UnparsableFilename(filename)))))
                  && (ParseFilenameDate(filename).Success? && file.Failure? ==>
                        r == Run(db, Fail(ScraperException(FetchFailed(file.error)))))))
  {
  }

  /** The index page answering with a 4xx or 5xx status, or not at all, ends the run with a wrapped request error. */
  lemma IndexFetchFailure(db: Db, env: Env)
    requires env.http(ResultsUrl).TransportFailure? || IsHttpError(env.http(ResultsUrl).status)
    ensures Discover(db, env) == Run(db, Fail(ScraperException(FetchFailed(
      if env.http(ResultsUrl).TransportFailure? then ConnectionError else HttpError(env.http(ResultsUrl).status)))))
  {
  }

  /**
    A run that stores the downloaded file dates its batch on the first day of the period
    named in the link's file name.
  */
  lemma DiscoverStoresLinkedPeriod(db: Db, env: Env)
    requires LinkedPeriod(env).Some?
    requires MinYear <= LinkedPeriod(env).value.1.0 <= MaxYear
    ensures var (href, (year, month)) := LinkedPeriod(env).value;
      var contents := env.http(ResultsXlsxLink(href)).content;
      Storable(db, contents, env) ==>
        && Discover(db, env).outcome == Pass
        && Discover(db, env).db.results ==
             db.results + [AuctionResults(db.nextResultsId, Date(year, month, 1), env.readParticipants(contents).value, env.md5(contents))]
  {
    var (contents, date) := Download(env).value;
    ProcessResultsStores(db, contents, date, env);
  }

  /** With the same answers from the publisher, a second run after a passing one stores nothing. */
  lemma DiscoverTwice(db: Db, env: Env)
    requires Valid(db)
    requires Discover(db, env).outcome == Pass
    ensures Discover(Discover(db, env).db, env) == Run(Discover(db, env).db, Pass)
  {
    var (contents, date) := Download(env).value;
    ProcessResultsTwice(db, contents, date, date, env);
  }

  // ---------------------------------------------------------------------------
  // The temporary file and the imperative procedures

  /** `TEMP_XLSX_PATH`: whether the file exists, and what it holds. */
  class TempFile {
    var present: bool
    var contents: seq<byte>

    constructor (present: bool)
      ensures this.present == present && contents == []
    {
      this.present := present;
      contents := [];
    }

    /** `mkdir(exist_ok=True)`, then `open(path, "wb").write(data)` */
    method Write(data: seq<byte>)
      modifies this
      ensures present && contents == data
    {
      present, contents := true, data;
    }

    /** `unlink(missing_ok=True)` */
    method Unlink()
      modifies this
      ensures !present
    {
      present := false;
    }
  }

  /** The body of the `try` in `_process_results_file`, reading the staged file; an exception is a `Fail`. */
  method ReadAndStore(store: Store, temp: TempFile, date: Date, hash: string, env: Env) returns (outcome: Outcome<Failure>)
    requires ValidDate(date)
    modifies store
    ensures Run(store.State(), outcome) == StoreResults(old(store.State()), temp.contents, date, hash, env)
  {
    var participants := env.readParticipants(temp.contents);
    if participants.Failure? {
      return Fail(SpreadsheetError(participants.error));
    }
    var created := store.Create(date, participants.value, hash);
    if created.Failure? {
      return Fail(DatabaseError(created.error));
    }
    var rows := env.readVolumeRows(temp.contents);
    if rows.Failure? {
      return Fail(SpreadsheetError(rows.error));
    }
    var items := NormalizeRows(rows.value, env.repairEncoding);
    if items.Failure? {
      return Fail(items.error);
    }
    var inserted := store.BulkCreate(items.value, created.value);
    if inserted.Fail? {
      return Fail(DatabaseError(inserted.error));
    }
    return Pass;
  }

  /**
    `_process_results_file(contents, date)`.  A stored hash returns before the temporary
    file is touched; otherwise the file is written and, however the `try` that reads it
    ends, deleted again.  Writing the file cannot fail here.
  */
  method ProcessResultsFile(store: Store, temp: TempFile, contents: seq<byte>, date: Date, env: Env)
    returns (outcome: Outcome<Failure>)
    requires ValidDate(date)
    modifies store, temp
    ensures Run(store.State(), outcome) == ProcessResults(old(store.State()), contents, date, env)
    ensures HashStored(old(store.State()), env.md5(contents)) ==> unchanged(temp)
    ensures !HashStored(old(store.State()), env.md5(contents)) ==> !temp.present
  {
    var hash := env.md5(contents);
    var found := store.Exists(hash);
    if found {
      return Pass;
    }
    temp.Write(contents);
    outcome := ReadAndStore(store, temp, date, hash, env);
    temp.Unlink();
  }

  /** `run_discovery()` */
  method RunDiscovery(store: Store, temp: TempFile, env: Env) returns (outcome: Outcome<Failure>)
    modifies store, temp
    ensures Run(store.State(), outcome) == Discover(old(store.State()), env)
    ensures temp.present ==> old(temp.present)
  {
    var page := Fetch(env, ResultsUrl);
    if page.Failure? {
      return Fail(ScraperException(FetchFailed(page.error)));
    }
    var href := env.findResultsHref(page.value);
    if href.None? || href.value == "" {
      return Fail(ScraperException(NoResultsLink));
    }
    var fileName := LastSegment(href.value, '/');
    var period := ParseFilenameDate(fileName);
    if period.Failure? {
      return Fail(ScraperException(period.error));
    }
    var (year, month) := period.value;
    var file := Fetch(env, ResultsXlsxLink(href.value));
    if file.Failure? {
      return Fail(ScraperException(FetchFailed(file.error)));
    }
    var date := PeriodDate(year, month);
    if date.Failure? {
      return Fail(date.error);
    }
    outcome := ProcessResultsFile(store, temp, file.value, date.value, env);
  }
}
