/**
  The bulk import command (`populate_auctions_from_json.py`): a JSON document whose
  `results` list holds batches, each with its line items, is stored inside one
  `transaction.atomic` block.  A batch whose hash is already stored is skipped; any
  exception undoes every row the import wrote.
*/
module JsonImport {
  import opened Wrappers
  import opened PyStr
  import opened Models
  import opened Repository

  // ---------------------------------------------------------------------------
  // The document

  /** One element of an entry's `auctions` list; a None field is a missing key. `average_price` (a float) only matters by its presence. */
  datatype JsonAuction = JsonAuction(
    region: Option<string>,
    technology: Option<string>,
    volumeAuctioned: Option<int>,
    hasAveragePrice: bool,
    volumeSold: Option<int>,
    numberOfWinners: Option<int>)

  /** One element of `results`; a None field is a missing key. */
  datatype Entry = Entry(
    md5Hash: Option<string>,
    date: Option<string>,
    numberOfParticipants: Option<int>,
    auctions: Option<seq<JsonAuction>>)

  /** The decoded JSON document: its `results` list, or None when the key is missing. */
  datatype Document = Document(results: Option<seq<Entry>>)

  /** Why `open` or `json.load` failed. */
  datatype LoadError = FileNotFound | NotJson

  /** How the command fails: the first three are `CommandError`s, a database error propagates as it is. */
  datatype ImportError =
    | Unreadable(load: LoadError)
    /** KeyError: "Invalid data structure in JSON file: missing key ..." */
    | MissingKey(key: string)
    /** ValueError from `strptime`: "Invalid data in JSON file: ..." */
    | InvalidDate(text: string)
    | DatabaseError(db: DbError)

  /** The database when the import stopped, and how it stopped. */
  datatype Imported = Imported(db: Db, outcome: Outcome<ImportError>)

  // ---------------------------------------------------------------------------
  // datetime.strptime(text, '%Y-%m-%d').date()

  function DigitValue(ch: char): (d: int)
    requires IsDigit(ch)
    ensures 0 <= d <= 9 && DigitChar(d) == ch
  {
    ch as int - '0' as int
  }

  /** `%m`, the regular expression `1[0-2]|0[1-9]|[1-9]`: the month and the number of characters it took. */
  function ParseMonth(t: string): (r: Option<(int, nat)>)
    ensures r.Some? ==> 1 <= r.value.0 <= 12 && 1 <= r.value.1 <= 2 && r.value.1 <= |t|
  {
    if |t| >= 2 && t[0] == '1' && '0' <= t[1] <= '2' then Some((10 + DigitValue(t[1]), 2))
    else if |t| >= 2 && t[0] == '0' && '1' <= t[1] <= '9' then Some((DigitValue(t[1]), 2))
    else if |t| >= 1 && '1' <= t[0] <= '9' then Some((DigitValue(t[0]), 1))
    else None
  }

  /**
    `%d`, the regular expression `3[01]|[12]\d|0[1-9]|[1-9]| [1-9]`: nothing follows it in
    the pattern, so the first alternative that matches is the one taken.
  */
  function ParseDay(t: string): (r: Option<(int, nat)>)
    ensures r.Some? ==> 1 <= r.value.0 <= 31 && 1 <= r.value.1 <= 2 && r.value.1 <= |t|
  {
    if |t| >= 2 && t[0] == '3' && (t[1] == '0' || t[1] == '1') then Some((30 + DigitValue(t[1]), 2))
    else if |t| >= 2 && (t[0] == '1' || t[0] == '2') && IsDigit(t[1]) then Some((10 * DigitValue(t[0]) + DigitValue(t[1]), 2))
    else if |t| >= 2 && t[0] == '0' && '1' <= t[1] <= '9' then Some((DigitValue(t[1]), 2))
    else if |t| >= 1 && '1' <= t[0] <= '9' then Some((DigitValue(t[0]), 1))
    else if |t| >= 2 && t[0] == ' ' && '1' <= t[1] <= '9' then Some((DigitValue(t[1]), 2))
    else None
  }

  /**
    `datetime.strptime(text, '%Y-%m-%d').date()`: four digits, `-`, a month, `-`, a day and
    nothing after it ("unconverted data remains" otherwise), and then a real calendar day
    (no 30 February, no year 0).  None where it raises ValueError.
  */
  function ParseIsoDate(text: string): (r: Option<Date>)
    ensures r.Some? ==> ValidDate(r.value)
    ensures r.Some? ==> 8 <= |text| <= 10 && text[4] == '-'
  {
    if |text| < 5 || !(IsDigit(text[0]) && IsDigit(text[1]) && IsDigit(text[2]) && IsDigit(text[3])) || text[4] != '-' then None
    else
      var year := 1000 * DigitValue(text[0]) + 100 * DigitValue(text[1]) + 10 * DigitValue(text[2]) + DigitValue(text[3]);
      match ParseMonth(text[5..])
      case None => None
      case Some((month, m)) =>
        var rest := text[5 + m..];
        if |rest| == 0 || rest[0] != '-' then None
        else
          match ParseDay(rest[1..])
          case None => None
          case Some((day, n)) =>
            if n != |rest| - 1 then None
            else if ValidDate(Date(year, month, day)) then Some(Date(year, month, day))
            else None
  }

  /** Two digits, zero-padded. */
  function Pad2(n: int): (s: string)
    requires 0 <= n < 100
    ensures |s| == 2 && IsDigit(s[0]) && IsDigit(s[1])
    ensures DigitValue(s[0]) == n / 10 && DigitValue(s[1]) == n % 10
  {
    [DigitChar(n / 10), DigitChar(n % 10)]
  }

  /** `date.isoformat()`: a four-digit year, the month and the day, zero-padded and joined by `-`. */
  function FormatIsoDate(d: Date): (s: string)
    requires ValidDate(d)
    ensures |s| == 10 && s[4] == '-' && s[7] == '-'
  {
    Pad2(d.year / 100) + Pad2(d.year % 100) + "-" + Pad2(d.month) + "-" + Pad2(d.day)
  }

  /** Every date printed in ISO form is read back as the same date. */
  lemma ParseIsoDateOfFormat(d: Date)
    requires ValidDate(d)
    ensures ParseIsoDate(FormatIsoDate(d)) == Some(d)
  {
    var s := FormatIsoDate(d);
    var hi, lo := Pad2(d.year / 100), Pad2(d.year % 100);
    var mm, dd := Pad2(d.month), Pad2(d.day);
    assert s[0] == hi[0] && s[1] == hi[1] && s[2] == lo[0] && s[3] == lo[1];
    assert s[5..] == mm + "-" + dd;
    assert 1000 * DigitValue(s[0]) + 100 * DigitValue(s[1]) + 10 * DigitValue(s[2]) + DigitValue(s[3]) == d.year;
    assert ParseMonth(s[5..]) == Some((d.month, 2));
    assert s[7..] == "-" + dd;
    assert s[8..] == dd;
    assert ParseDay(dd) == Some((d.day, 2));
  }

  /** Month and day need no zero padding, and a space may stand before a one-digit day. */
  lemma ParseIsoDateExamples()
    ensures ParseIsoDate("2024-3-1") == Some(Date(2024, 3, 1))
    ensures ParseIsoDate("2024-03- 1") == Some(Date(2024, 3, 1))
  {
  }

  /** No 30 February, no month 13, no year 0, no time of day after the date. */
  lemma ParseIsoDateRejects()
    ensures ParseIsoDate("2023-02-29").None?
    ensures ParseIsoDate("2024-13-01").None?
    ensures ParseIsoDate("0000-01-01").None?
    ensures ParseIsoDate("2024-03-01T00:00").None?
  {
  }

  // ---------------------------------------------------------------------------
  // The import, as a function of the database

  /** Every key `Auction.objects.create` reads is present. */
  predicate HasAllKeys(a: JsonAuction)
  {
    a.region.Some? && a.technology.Some? && a.volumeAuctioned.Some? && a.hasAveragePrice
    && a.volumeSold.Some? && a.numberOfWinners.Some?
  }

  /** The stored values of an element: exactly the given ones. */
  function Copy(a: JsonAuction): AuctionData
    requires HasAllKeys(a)
  {
    AuctionData(a.region.value, a.technology.value, a.volumeAuctioned.value, a.volumeSold.value, a.numberOfWinners.value)
  }

  /**
    The keyword arguments of one `Auction.objects.create`, read in the order they are
    written.  Values are stored exactly as given: no technology mapping, no encoding repair.
  */
  function ItemData(a: JsonAuction): (r: Result<AuctionData, ImportError>)
    ensures r.Success? <==> HasAllKeys(a)
    ensures r.Success? ==> r.value == Copy(a)
    ensures r.Failure? ==> r.error.MissingKey?
  {
    if a.region.None? then Failure(MissingKey("region"))
    else if a.technology.None? then Failure(MissingKey("technology"))
    else if a.volumeAuctioned.None? then Failure(MissingKey("volume_auctioned"))
    else if !a.hasAveragePrice then Failure(MissingKey("average_price"))
    else if a.volumeSold.None? then Failure(MissingKey("volume_sold"))
    else if a.numberOfWinners.None? then Failure(MissingKey("number_of_winners"))
    else Success(Copy(a))
  }

  /** The key reported is the first missing one in the order the arguments are written. */
  lemma ItemDataMissingKey(a: JsonAuction)
    requires !HasAllKeys(a)
    ensures ItemData(a) == Failure(MissingKey(
      if a.region.None? then "region"
      else if a.technology.None? then "technology"
      else if a.volumeAuctioned.None? then "volume_auctioned"
      else if !a.hasAveragePrice then "average_price"
      else if a.volumeSold.None? then "volume_sold"
      else "number_of_winners"))
  {
  }

  /** The inner `for`: one `Auction.objects.create` per element, in order, each owned by batch `owner`. */
  function ImportItems(db: Db, items: seq<JsonAuction>, owner: nat): Imported
    decreases |items|
  {
    if items == [] then Imported(db, Pass)
    else
      match ItemData(items[0])
      case Failure(e) => Imported(db, Fail(e))
      case Success(data) =>
        match CreateAuction(db, data, owner)
        case Failure(e) => Imported(db, Fail(DatabaseError(e)))
        case Success(next) => ImportItems(next, items[1..], owner)
  }

  /** One pass of the outer `for`: skipped when the hash is stored, otherwise a new batch and its items. */
  function ImportEntry(db: Db, entry: Entry): Imported
  {
    match entry.md5Hash
    case None => Imported(db, Fail(MissingKey("md5_hash")))
    case Some(hash) =>
      if HashStored(db, hash) then Imported(db, Pass)
      else
        match entry.date
        case None => Imported(db, Fail(MissingKey("date")))
        case Some(text) =>
          match ParseIsoDate(text)
          case None => Imported(db, Fail(InvalidDate(text)))
          case Some(date) =>
            match entry.numberOfParticipants
            case None => Imported(db, Fail(MissingKey("number_of_participants")))
            case Some(participants) =>
              match CreateResults(db, date, participants, hash)
              case Failure(e) => Imported(db, Fail(DatabaseError(e)))
              case Success((next, id)) => ImportItems(next, entry.auctions.GetOr([]), id)
  }

  /** The outer `for`, in order, up to the first exception. */
  function ImportEntries(db: Db, entries: seq<Entry>): Imported
    decreases |entries|
  {
    if entries == [] then Imported(db, Pass)
    else
      var first := ImportEntry(db, entries[0]);
      if first.outcome.Fail? then first else ImportEntries(first.db, entries[1..])
  }

  /**
    Leaving the `atomic` block by an exception: the stored rows are those of `saved`, and
    the id sequences keep the values they reached.
  */
  function RolledBack(saved: Db, reached: Db): (db: Db)
    ensures db.results == saved.results && db.auctions == saved.auctions
    ensures db.nextResultsId == reached.nextResultsId && db.nextAuctionId == reached.nextAuctionId
  {
    reached.(results := saved.results, auctions := saved.auctions)
  }

  /** `Command.handle`: load the document, then import `results` all or nothing. */
  function Handle(db: Db, loaded: Result<Document, LoadError>): Imported
  {
    match loaded
    case Failure(e) => Imported(db, Fail(Unreadable(e)))
    case Success(doc) =>
      match doc.results
      case None => Imported(db, Fail(MissingKey("results")))
      case Some(entries) =>
        var run := ImportEntries(db, entries);
        if run.outcome.Pass? then run else Imported(RolledBack(db, run.db), run.outcome)
  }

  // ---------------------------------------------------------------------------
  // Properties

  /** The rows items whose keys are all present become, with ids from `firstId` on, all owned by `owner`. */
  function CopiedAuctions(items: seq<JsonAuction>, owner: nat, firstId: nat): (r: seq<Auction>)
    requires forall k | 0 <= k < |items| :: HasAllKeys(items[k])
    ensures |r| == |items|
    ensures forall k | 0 <= k < |items| :: r[k] == Auction(firstId + k, Copy(items[k]), owner)
    decreases |items|
  {
    if items == [] then []
    else
      assert forall k | 0 <= k < |items[1..]| :: items[1..][k] == items[k + 1];
      [Auction(firstId, Copy(items[0]), owner)] + CopiedAuctions(items[1..], owner, firstId + 1)
  }

  /** The item loop never touches a batch row, keeps every constraint, and never raises IntegrityError for a stored owner. */
  lemma {:induction false} ImportItemsKeepsValid(db: Db, items: seq<JsonAuction>, owner: nat)
    requires Valid(db)
    ensures var r := ImportItems(db, items, owner);
      && Valid(r.db) && Grows(db, r.db) && r.db.results == db.results && r.db.nextResultsId == db.nextResultsId
    ensures ResultsIdStored(db, owner) ==> ImportItems(db, items, owner).outcome != Fail(DatabaseError(IntegrityError))
    decreases |items|
  {
    if items != [] && ItemData(items[0]).Success? {
      var created := CreateAuction(db, Copy(items[0]), owner);
      if created.Success? {
        var next := created.value;
        assert forall x | ResultsIdStored(db, x) :: ResultsIdStored(next, x) by {
          forall x | ResultsIdStored(db, x) ensures ResultsIdStored(next, x) {
            var i :| 0 <= i < |db.results| && db.results[i].id == x;
            assert next.results[i].id == x;
          }
        }
        ImportItemsKeepsValid(next, items[1..], owner);
      }
    }
  }

  /** When the item loop passes, every item was copied verbatim, in order, owned by `owner`, with consecutive ids. */
  lemma {:induction false} ImportItemsEffect(db: Db, items: seq<JsonAuction>, owner: nat)
    requires ImportItems(db, items, owner).outcome == Pass
    ensures forall k | 0 <= k < |items| :: HasAllKeys(items[k])
    ensures ImportItems(db, items, owner).db.auctions == db.auctions + CopiedAuctions(items, owner, db.nextAuctionId)
    ensures ImportItems(db, items, owner).db.nextAuctionId == db.nextAuctionId + |items|
    decreases |items|
  {
    if items == [] {
      assert db.auctions + [] == db.auctions;
    } else {
      var data := Copy(items[0]);
      var next := CreateAuction(db, data, owner).value;
      ImportItemsEffect(next, items[1..], owner);
      forall k | 0 <= k < |items| ensures HasAllKeys(items[k]) {
        if k > 0 {
          assert items[k] == items[1..][k - 1];
        }
      }
      var added := CopiedAuctions(items[1..], owner, db.nextAuctionId + 1);
      calc {
        ImportItems(db, items, owner).db.auctions;
        next.auctions + added;
        (db.auctions + [Auction(db.nextAuctionId, data, owner)]) + added;
        { ConcatAssociative(db.auctions, [Auction(db.nextAuctionId, data, owner)], added); }
        db.auctions + ([Auction(db.nextAuctionId, data, owner)] + added);
      }
    }
  }

  /** Sequence concatenation regroups freely. */
  lemma ConcatAssociative<T>(a: seq<T>, b: seq<T>, c: seq<T>)
    ensures (a + b) + c == a + (b + c)
  {
  }

  /** A stored hash makes the entry a no-op, whatever else it holds. */
  lemma SkipStoredEntry(db: Db, entry: Entry)
    requires entry.md5Hash.Some? && HashStored(db, entry.md5Hash.value)
    ensures ImportEntry(db, entry) == Imported(db, Pass)
  {
  }

  /**
    An entry with a new hash that passes adds exactly one batch, with the parsed date and
    the given participant count and hash, and one line item per element of `auctions`
    (none when the key is missing), copied verbatim and owned by that batch.
  */
  lemma ImportEntryEffect(db: Db, entry: Entry)
    requires Valid(db)
    ensures var r := ImportEntry(db, entry);
      Valid(r.db) && Grows(db, r.db) && r.outcome != Fail(DatabaseError(IntegrityError))
    ensures var r := ImportEntry(db, entry);
      r.outcome == Pass ==> entry.md5Hash.Some? && HashStored(r.db, entry.md5Hash.value)
    ensures var r := ImportEntry(db, entry);
      r.outcome == Pass && !HashStored(db, entry.md5Hash.value) ==>
        var items := entry.auctions.GetOr([]);
        && ParseIsoDate(entry.date.value).Some?
        && entry.numberOfParticipants.Some?
        && r.db.results == db.results + [AuctionResults(db.nextResultsId, ParseIsoDate(entry.date.value).value,
                                                        entry.numberOfParticipants.value, entry.md5Hash.value)]
        && (forall k | 0 <= k < |items| :: HasAllKeys(items[k]))
        && r.db.auctions == db.auctions + CopiedAuctions(items, db.nextResultsId, db.nextAuctionId)
  {
    var r := ImportEntry(db, entry);
    if entry.md5Hash.Some? && !HashStored(db, entry.md5Hash.value) && entry.date.Some?
       && ParseIsoDate(entry.date.value).Some? && entry.numberOfParticipants.Some? {
      var created := CreateResults(db, ParseIsoDate(entry.date.value).value, entry.numberOfParticipants.value, entry.md5Hash.value);
      if created.Success? {
        var (next, id) := created.value;
        ImportItemsKeepsValid(next, entry.auctions.GetOr([]), id);
        if r.outcome == Pass {
          ImportItemsEffect(next, entry.auctions.GetOr([]), id);
        }
        var i :| 0 <= i < |next.results| && next.results[i].md5Hash == entry.md5Hash.value;
        assert r.db.results[i] == next.results[i];
      }
    }
  }

  /** The entry loop keeps every constraint, only appends, and never raises IntegrityError. */
  lemma {:induction false} ImportEntriesKeepsValid(db: Db, entries: seq<Entry>)
    requires Valid(db)
    ensures var r := ImportEntries(db, entries);
      Valid(r.db) && Grows(db, r.db) && r.outcome != Fail(DatabaseError(IntegrityError))
    decreases |entries|
  {
    if entries != [] {
      var first := ImportEntry(db, entries[0]);
      ImportEntryEffect(db, entries[0]);
      if first.outcome.Pass? {
        ImportEntriesKeepsValid(first.db, entries[1..]);
      }
    }
  }

  /**
    When the entry loop passes, every entry's hash is stored, which is why a hash repeated
    later in the same input is skipped.
  */
  lemma {:induction false} ImportEntriesStoresHashes(db: Db, entries: seq<Entry>)
    requires Valid(db)
    requires ImportEntries(db, entries).outcome == Pass
    ensures forall i | 0 <= i < |entries| ::
      entries[i].md5Hash.Some? && HashStored(ImportEntries(db, entries).db, entries[i].md5Hash.value)
    decreases |entries|
  {
    if entries != [] {
      var first := ImportEntry(db, entries[0]);
      ImportEntryEffect(db, entries[0]);
      ImportEntriesKeepsValid(first.db, entries[1..]);
      ImportEntriesStoresHashes(first.db, entries[1..]);
      var r := ImportEntries(first.db, entries[1..]);
      var h := entries[0].md5Hash.value;
      var j :| 0 <= j < |first.db.results| && first.db.results[j].md5Hash == h;
      assert r.db.results[j] == first.db.results[j];
      forall i | 1 <= i < |entries|
        ensures entries[i].md5Hash.Some? && HashStored(r.db, entries[i].md5Hash.value)
      {
        assert entries[i] == entries[1..][i - 1];
      }
    }
  }

  /** Entries whose hashes are all stored are all skipped. */
  lemma {:induction false} ImportEntriesAllStored(db: Db, entries: seq<Entry>)
    requires forall i | 0 <= i < |entries| :: entries[i].md5Hash.Some? && HashStored(db, entries[i].md5Hash.value)
    ensures ImportEntries(db, entries) == Imported(db, Pass)
    decreases |entries|
  {
    if entries != [] {
      SkipStoredEntry(db, entries[0]);
      assert forall i | 1 <= i < |entries| :: entries[1..][i - 1] == entries[i];
      ImportEntriesAllStored(db, entries[1..]);
    }
  }

  /**
    All or nothing: an import that fails leaves exactly the rows it found, and a passing
    one only appends; either way every constraint still holds and IntegrityError never
    escapes.
  */
  lemma HandleAllOrNothing(db: Db, loaded: Result<Document, LoadError>)
    requires Valid(db)
    ensures var r := Handle(db, loaded);
      r.outcome.Fail? ==> r.db.results == db.results && r.db.auctions == db.auctions
    ensures var r := Handle(db, loaded);
      Valid(r.db) && Grows(db, r.db) && r.outcome != Fail(DatabaseError(IntegrityError))
  {
    if loaded.Success? && loaded.value.results.Some? {
      ImportEntriesKeepsValid(db, loaded.value.results.value);
    }
  }

  /** Running a passing import again on the same document changes nothing at all. */
  lemma HandleTwice(db: Db, loaded: Result<Document, LoadError>)
    requires Valid(db)
    requires Handle(db, loaded).outcome == Pass
    ensures Handle(Handle(db, loaded).db, loaded) == Imported(Handle(db, loaded).db, Pass)
  {
    var entries := loaded.value.results.value;
    ImportEntriesStoresHashes(db, entries);
    ImportEntriesAllStored(Handle(db, loaded).db, entries);
  }

  // ---------------------------------------------------------------------------
  // The command against the store

  /** The item loop of one entry; the first exception ends it. */
  method ImportItemsInto(store: Store, items: seq<JsonAuction>, owner: nat) returns (outcome: Outcome<ImportError>)
    modifies store
    ensures Imported(store.State(), outcome) == ImportItems(old(store.State()), items, owner)
  {
    var j := 0;
    while j < |items|
      invariant 0 <= j <= |items|
      invariant ImportItems(old(store.State()), items, owner) == ImportItems(store.State(), items[j..], owner)
    {
      assert items[j..][1..] == items[j + 1..];
      var data := ItemData(items[j]);
      if data.Failure? {
        return Fail(data.error);
      }
      var created := store.CreateItem(data.value, owner);
      if created.Fail? {
        return Fail(DatabaseError(created.error));
      }
      j := j + 1;
    }
    return Pass;
  }

  /** One pass of the outer loop; `continue` when the hash is stored. */
  method ImportEntryInto(store: Store, entry: Entry) returns (outcome: Outcome<ImportError>)
    modifies store
    ensures Imported(store.State(), outcome) == ImportEntry(old(store.State()), entry)
  {
    if entry.md5Hash.None? {
      return Fail(MissingKey("md5_hash"));
    }
    var hash := entry.md5Hash.value;
    var found := store.Exists(hash);
    if found {
      return Pass;
    }
    if entry.date.None? {
      return Fail(MissingKey("date"));
    }
    var date := ParseIsoDate(entry.date.value);
    if date.None? {
      return Fail(InvalidDate(entry.date.value));
    }
    if entry.numberOfParticipants.None? {
      return Fail(MissingKey("number_of_participants"));
    }
    var created := store.Create(date.value, entry.numberOfParticipants.value, hash);
    if created.Failure? {
      return Fail(DatabaseError(created.error));
    }
    outcome := ImportItemsInto(store, entry.auctions.GetOr([]), created.value);
  }

  /** `Command.handle(filename)`, with the file already opened and decoded into `loaded`. */
  method HandleCommand(store: Store, loaded: Result<Document, LoadError>) returns (outcome: Outcome<ImportError>)
    modifies store
    ensures Imported(store.State(), outcome) == Handle(old(store.State()), loaded)
  {
    if loaded.Failure? {
      return Fail(Unreadable(loaded.error));
    }
    var savedResults, savedAuctions := store.results, store.auctions;
    if loaded.value.results.None? {
      return Fail(MissingKey("results"));
    }
    var entries := loaded.value.results.value;
    var i := 0;
    while i < |entries|
      invariant 0 <= i <= |entries|
      invariant ImportEntries(old(store.State()), entries) == ImportEntries(store.State(), entries[i..])
    {
      assert entries[i..][1..] == entries[i + 1..];
      var step := ImportEntryInto(store, entries[i]);
      if step.Fail? {
        store.Rollback(savedResults, savedAuctions);
        return step;
      }
      i := i + 1;
    }
    return Pass;
  }
}
