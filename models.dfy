/**
  The two stored entities and the constraints the database keeps for them:
  `AuctionResults` (one published batch, unique by the MD5 hash of its file) and
  `Auction` (one region/technology line item, owned by exactly one batch and deleted with it).
  The database is a value `Db`; the operations below are the row-level effects of the
  ORM calls the importers make, on an engine that enforces the declared column types
  (a 32-character hash column, 32-bit integer columns) as PostgreSQL does.
*/
module Models {
  import opened Wrappers

  const Int32Min: int := -0x8000_0000
  const Int32Max: int := 0x7FFF_FFFF
  /** `md5_hash = CharField(max_length=32, unique=True)` */
  const HashMaxLength: nat := 32
  /** `datetime.MINYEAR` and `datetime.MAXYEAR` */
  const MinYear: int := 1
  const MaxYear: int := 9999

  /** The range of an `IntegerField` column. */
  predicate FitsInt32(n: int)
  {
    Int32Min <= n <= Int32Max
  }

  // ---------------------------------------------------------------------------
  // Calendar dates (`datetime.date`)

  datatype Date = Date(year: int, month: int, day: int)

  predicate IsLeapYear(year: int)
  {
    year % 4 == 0 && (year % 100 != 0 || year % 400 == 0)
  }

  function DaysInMonth(year: int, month: int): (n: int)
    requires 1 <= month <= 12
    ensures 28 <= n <= 31
  {
    if month == 2 then (if IsLeapYear(year) then 29 else 28)
    else if month == 4 || month == 6 || month == 9 || month == 11 then 30
    else 31
  }

  /** The dates `datetime.date(year, month, day)` accepts without raising ValueError. */
  predicate ValidDate(d: Date)
  {
    MinYear <= d.year <= MaxYear && 1 <= d.month <= 12 && 1 <= d.day <= DaysInMonth(d.year, d.month)
  }

  /** Chronological order. */
  predicate DateBefore(a: Date, b: Date)
  {
    a.year < b.year || (a.year == b.year && (a.month < b.month || (a.month == b.month && a.day < b.day)))
  }

  // ---------------------------------------------------------------------------
  // Rows

  /**
    The integer and text fields of a line item; `average_price`, a float column, is not modelled.
  */
  datatype AuctionData = AuctionData(
    region: string,
    technology: string,
    volumeAuctioned: int,
    volumeSold: int,
    numberOfWinners: int)

  /** A stored `AuctionResults` row. */
  datatype AuctionResults = AuctionResults(id: nat, date: Date, numberOfParticipants: int, md5Hash: string)

  /** A stored `Auction` row; `resultsId` is the `auction_results` foreign key. */
  datatype Auction = Auction(id: nat, data: AuctionData, resultsId: nat)

  /** The two tables and their id sequences. */
  datatype Db = Db(results: seq<AuctionResults>, auctions: seq<Auction>, nextResultsId: nat, nextAuctionId: nat)

  /** What the engine raises: a violated unique or foreign-key constraint, or a value the column cannot hold. */
  datatype DbError = IntegrityError | DataError

  const EmptyDb: Db := Db([], [], 1, 1)

  predicate HashStored(db: Db, hash: string)
  {
    exists i | 0 <= i < |db.results| :: db.results[i].md5Hash == hash
  }

  predicate ResultsIdStored(db: Db, id: nat)
  {
    exists i | 0 <= i < |db.results| :: db.results[i].id == id
  }

  /** The number of stored batches carrying `hash`. */
  function CountHash(results: seq<AuctionResults>, hash: string): nat
  {
    if results == [] then 0
    else CountHash(results[..|results| - 1], hash) + (if results[|results| - 1].md5Hash == hash then 1 else 0)
  }

  /** The line items owned by batch `id`, in storage order. */
  function ItemsOf(auctions: seq<Auction>, id: nat): (r: seq<Auction>)
    ensures |r| <= |auctions|
    ensures forall a | a in r :: a in auctions && a.resultsId == id
    ensures forall a | a in auctions && a.resultsId == id :: a in r
  {
    if auctions == [] then []
    else
      var init := ItemsOf(auctions[..|auctions| - 1], id);
      var last := auctions[|auctions| - 1];
      assert forall a | a in auctions :: a in auctions[..|auctions| - 1] || a == last;
      if last.resultsId == id then init + [last] else init
  }

  predicate ValidData(d: AuctionData)
  {
    FitsInt32(d.volumeAuctioned) && FitsInt32(d.volumeSold) && FitsInt32(d.numberOfWinners)
  }

  predicate ValidResultsRow(r: AuctionResults)
  {
    ValidDate(r.date) && FitsInt32(r.numberOfParticipants) && |r.md5Hash| <= HashMaxLength
  }

  predicate IncreasingResultsIds(results: seq<AuctionResults>)
  {
    forall i, j | 0 <= i < j < |results| :: results[i].id < results[j].id
  }

  predicate IncreasingAuctionIds(auctions: seq<Auction>)
  {
    forall i, j | 0 <= i < j < |auctions| :: auctions[i].id < auctions[j].id
  }

  /** `unique=True` on `md5_hash`. */
  predicate UniqueHashes(results: seq<AuctionResults>)
  {
    forall i, j | 0 <= i < j < |results| :: results[i].md5Hash != results[j].md5Hash
  }

  /** The foreign key: every line item names a stored batch. */
  predicate Owned(db: Db)
  {
    forall k | 0 <= k < |db.auctions| :: ResultsIdStored(db, db.auctions[k].resultsId)
  }

  /** Everything the engine guarantees of the stored rows. */
  predicate Valid(db: Db)
  {
    && (forall i | 0 <= i < |db.results| :: ValidResultsRow(db.results[i]) && db.results[i].id < db.nextResultsId)
    && (forall k | 0 <= k < |db.auctions| :: ValidData(db.auctions[k].data) && db.auctions[k].id < db.nextAuctionId)
    && IncreasingResultsIds(db.results)
    && IncreasingAuctionIds(db.auctions)
    && UniqueHashes(db.results)
    && Owned(db)
  }

  /** Rows are only ever appended, never changed or removed, and the id sequences only advance. */
  predicate Grows(before: Db, after: Db)
  {
    && before.results <= after.results
    && before.auctions <= after.auctions
    && before.nextResultsId <= after.nextResultsId
    && before.nextAuctionId <= after.nextAuctionId
  }

  lemma EmptyDbValid()
    ensures Valid(EmptyDb)
  {
  }

  /** Unique hashes mean a stored hash is stored exactly once. */
  lemma {:induction false} UniqueHashCountsOne(results: seq<AuctionResults>, hash: string)
    requires UniqueHashes(results)
    ensures CountHash(results, hash) == if exists i | 0 <= i < |results| :: results[i].md5Hash == hash then 1 else 0
    decreases |results|
  {
    if results != [] {
      var init := results[..|results| - 1];
      UniqueHashCountsOne(init, hash);
      if results[|results| - 1].md5Hash == hash {
        assert !exists i | 0 <= i < |init| :: init[i].md5Hash == hash;
      }
    }
  }

  /** A line item's foreign key names exactly one stored batch. */
  lemma OwnerIsUnique(db: Db, k: nat, i: nat, j: nat)
    requires Valid(db) && k < |db.auctions|
    requires i < |db.results| && j < |db.results|
    requires db.results[i].id == db.auctions[k].resultsId && db.results[j].id == db.auctions[k].resultsId
    ensures i == j
  {
  }

  // ---------------------------------------------------------------------------
  // Row-level effects of the ORM calls

  /** `AuctionResults.objects.create(date=..., number_of_participants=..., md5_hash=...)` */
  function CreateResults(db: Db, date: Date, participants: int, hash: string): (r: Result<(Db, nat), DbError>)
    requires ValidDate(date)
    ensures r.Failure? <==> |hash| > HashMaxLength || !FitsInt32(participants) || HashStored(db, hash)
    ensures r.Failure? ==> (r.error == DataError <==> |hash| > HashMaxLength || !FitsInt32(participants))
    ensures r.Success? ==>
      && r.value.0.auctions == db.auctions
      && r.value.0.results == db.results + [AuctionResults(r.value.1, date, participants, hash)]
      && r.value.0.nextAuctionId == db.nextAuctionId
      && r.value.1 == db.nextResultsId < r.value.0.nextResultsId
    ensures r.Success? ==> HashStored(r.value.0, hash) && ResultsIdStored(r.value.0, r.value.1)
    ensures r.Success? && Valid(db) ==> Valid(r.value.0)
  {
    if |hash| > HashMaxLength || !FitsInt32(participants) then Failure(DataError)
    else if HashStored(db, hash) then Failure(IntegrityError)
    else
      var id := db.nextResultsId;
      var row := AuctionResults(id, date, participants, hash);
      var db' := db.(results := db.results + [row], nextResultsId := id + 1);
      assert db'.results[|db.results|] == row;
      assert forall x | 0 <= x < |db.results| :: db'.results[x] == db.results[x];
      assert forall x | ResultsIdStored(db, x) :: ResultsIdStored(db', x);
      Success((db', id))
  }

  /** The rows `items` become when stored with ids from `firstId` on, all owned by batch `owner`. */
  function NewAuctions(items: seq<AuctionData>, owner: nat, firstId: nat): (r: seq<Auction>)
    ensures |r| == |items|
    ensures forall k | 0 <= k < |r| :: r[k] == Auction(firstId + k, items[k], owner)
  {
    seq(|items|, k requires 0 <= k < |items| => Auction(firstId + k, items[k], owner))
  }

  /**
    `Auction.objects.bulk_create(items)` (one INSERT: all rows or none), and, for a single
    item, `Auction.objects.create(...)`.  An empty list issues no statement at all.
  */
  function CreateAuctions(db: Db, items: seq<AuctionData>, owner: nat): (r: Result<Db, DbError>)
    ensures r.Failure? <==>
      (exists k | 0 <= k < |items| :: !ValidData(items[k])) || (items != [] && !ResultsIdStored(db, owner))
    ensures r.Success? ==>
      && r.value.results == db.results
      && r.value.auctions == db.auctions + NewAuctions(items, owner, db.nextAuctionId)
      && r.value.nextResultsId == db.nextResultsId
      && r.value.nextAuctionId == db.nextAuctionId + |items|
    ensures r.Success? && Valid(db) ==> Valid(r.value)
  {
    if exists k | 0 <= k < |items| :: !ValidData(items[k]) then Failure(DataError)
    else if items == [] then Success(db)
    else if !ResultsIdStored(db, owner) then Failure(IntegrityError)
    else
      var added := NewAuctions(items, owner, db.nextAuctionId);
      var db' := db.(auctions := db.auctions + added, nextAuctionId := db.nextAuctionId + |items|);
      assert forall x | 0 <= x < |db.auctions| :: db'.auctions[x] == db.auctions[x];
      assert forall x | 0 <= x < |added| :: db'.auctions[|db.auctions| + x] == added[x];
      Success(db')
  }

  /** `Auction.objects.create(..., auction_results=owner)`: one INSERT of one line item. */
  function CreateAuction(db: Db, data: AuctionData, owner: nat): (r: Result<Db, DbError>)
    ensures r.Failure? <==> !ValidData(data) || !ResultsIdStored(db, owner)
    ensures r.Failure? ==> (r.error == DataError <==> !ValidData(data))
    ensures r.Success? ==>
      && r.value.results == db.results
      && r.value.auctions == db.auctions + [Auction(db.nextAuctionId, data, owner)]
      && r.value.nextResultsId == db.nextResultsId
      && r.value.nextAuctionId == db.nextAuctionId + 1
    ensures r.Success? && Valid(db) ==> Valid(r.value)
  {
    if !ValidData(data) then Failure(DataError)
    else if !ResultsIdStored(db, owner) then Failure(IntegrityError)
    else
      var db' := db.(auctions := db.auctions + [Auction(db.nextAuctionId, data, owner)], nextAuctionId := db.nextAuctionId + 1);
      assert forall x | 0 <= x < |db.auctions| :: db'.auctions[x] == db.auctions[x];
      Success(db')
  }

  /** Inserting one line item by itself or as a bulk insert of one has the same effect. */
  lemma CreateAuctionIsBulkOfOne(db: Db, data: AuctionData, owner: nat)
    ensures CreateAuction(db, data, owner) == CreateAuctions(db, [data], owner)
  {
    assert (exists k | 0 <= k < |[data]| :: !ValidData([data][k])) <==> !ValidData(data) by {
      if !ValidData(data) {
        assert !ValidData([data][0]);
      }
    }
    if CreateAuction(db, data, owner).Success? {
      assert NewAuctions([data], owner, db.nextAuctionId) == [Auction(db.nextAuctionId, data, owner)];
    }
  }

  // ---------------------------------------------------------------------------
  // Cascade delete (`on_delete=models.CASCADE`)

  function RemoveResults(results: seq<AuctionResults>, id: nat): (r: seq<AuctionResults>)
    ensures forall x | x in r :: x in results && x.id != id
    ensures forall x | x in results && x.id != id :: x in r
  {
    if results == [] then []
    else
      var rest := RemoveResults(results[1..], id);
      assert forall x | x in results :: x == results[0] || x in results[1..];
      if results[0].id == id then rest else [results[0]] + rest
  }

  lemma {:induction false} RemoveResultsKeepsOrder(results: seq<AuctionResults>, id: nat)
    requires IncreasingResultsIds(results)
    ensures IncreasingResultsIds(RemoveResults(results, id))
    decreases |results|
  {
    if results != [] {
      var tail := results[1..];
      RemoveResultsKeepsOrder(tail, id);
      if results[0].id != id {
        var rest := RemoveResults(tail, id);
        forall x | x in rest ensures x.id > results[0].id {
          var i :| 0 <= i < |tail| && tail[i] == x;
          assert results[i + 1] == x;
        }
        ResultsSortedCons(results[0], rest);
      }
    }
  }

  lemma ResultsSortedCons(head: AuctionResults, rest: seq<AuctionResults>)
    requires IncreasingResultsIds(rest)
    requires forall x | x in rest :: x.id > head.id
    ensures IncreasingResultsIds([head] + rest)
  {
    var r := [head] + rest;
    assert forall x | 0 < x < |r| :: r[x] == rest[x - 1];
  }

  lemma {:induction false} RemoveResultsKeepsUniqueHashes(results: seq<AuctionResults>, id: nat)
    requires UniqueHashes(results)
    ensures UniqueHashes(RemoveResults(results, id))
    decreases |results|
  {
    if results != [] {
      var tail := results[1..];
      RemoveResultsKeepsUniqueHashes(tail, id);
      if results[0].id != id {
        var rest := RemoveResults(tail, id);
        forall x | x in rest ensures x.md5Hash != results[0].md5Hash {
          var i :| 0 <= i < |tail| && tail[i] == x;
          assert results[i + 1] == x;
        }
        var r := [results[0]] + rest;
        assert forall x | 0 < x < |r| :: r[x] == rest[x - 1];
      }
    }
  }

  function RemoveAuctionsOf(auctions: seq<Auction>, id: nat): (r: seq<Auction>)
    ensures forall x | x in r :: x in auctions && x.resultsId != id
    ensures forall x | x in auctions && x.resultsId != id :: x in r
  {
    if auctions == [] then []
    else
      var rest := RemoveAuctionsOf(auctions[1..], id);
      assert forall x | x in auctions :: x == auctions[0] || x in auctions[1..];
      if auctions[0].resultsId == id then rest else [auctions[0]] + rest
  }

  lemma {:induction false} RemoveAuctionsKeepsOrder(auctions: seq<Auction>, id: nat)
    requires IncreasingAuctionIds(auctions)
    ensures IncreasingAuctionIds(RemoveAuctionsOf(auctions, id))
    decreases |auctions|
  {
    if auctions != [] {
      var tail := auctions[1..];
      RemoveAuctionsKeepsOrder(tail, id);
      if auctions[0].resultsId != id {
        var rest := RemoveAuctionsOf(tail, id);
        forall x | x in rest ensures x.id > auctions[0].id {
          var i :| 0 <= i < |tail| && tail[i] == x;
          assert auctions[i + 1] == x;
        }
        AuctionsSortedCons(auctions[0], rest);
      }
    }
  }

  lemma AuctionsSortedCons(head: Auction, rest: seq<Auction>)
    requires IncreasingAuctionIds(rest)
    requires forall x | x in rest :: x.id > head.id
    ensures IncreasingAuctionIds([head] + rest)
  {
    var r := [head] + rest;
    assert forall x | 0 < x < |r| :: r[x] == rest[x - 1];
  }

  /** Deleting batch `id` deletes every line item it owns and nothing else. */
  function DeleteResults(db: Db, id: nat): (db': Db)
    ensures !ResultsIdStored(db', id)
    ensures forall a | a in db'.auctions :: a.resultsId != id
    ensures forall x | x in db.results && x.id != id :: x in db'.results
    ensures forall a | a in db.auctions && a.resultsId != id :: a in db'.auctions
    ensures forall x | x in db'.results :: x in db.results
    ensures forall a | a in db'.auctions :: a in db.auctions
  {
    var db' := db.(results := RemoveResults(db.results, id), auctions := RemoveAuctionsOf(db.auctions, id));
    assert forall i | 0 <= i < |db'.results| :: db'.results[i] in db'.results;
    db'
  }

  /** The cascade keeps every constraint, the foreign key included. */
  lemma DeleteResultsValid(db: Db, id: nat)
    requires Valid(db)
    ensures Valid(DeleteResults(db, id))
  {
    RemoveResultsKeepsOrder(db.results, id);
    RemoveResultsKeepsUniqueHashes(db.results, id);
    RemoveAuctionsKeepsOrder(db.auctions, id);
    DeletedRowsValid(db, id);
    DeletedOwnersStored(db, id);
  }

  lemma DeletedRowsValid(db: Db, id: nat)
    requires Valid(db)
    ensures forall i | 0 <= i < |DeleteResults(db, id).results| ::
      ValidResultsRow(DeleteResults(db, id).results[i]) && DeleteResults(db, id).results[i].id < db.nextResultsId
    ensures forall k | 0 <= k < |DeleteResults(db, id).auctions| ::
      ValidData(DeleteResults(db, id).auctions[k].data) && DeleteResults(db, id).auctions[k].id < db.nextAuctionId
  {
    var db' := DeleteResults(db, id);
    forall i | 0 <= i < |db'.results|
      ensures ValidResultsRow(db'.results[i]) && db'.results[i].id < db.nextResultsId
    {
      assert db'.results[i] in db.results;
    }
    forall k | 0 <= k < |db'.auctions|
      ensures ValidData(db'.auctions[k].data) && db'.auctions[k].id < db.nextAuctionId
    {
      assert db'.auctions[k] in db.auctions;
    }
  }

  lemma DeletedOwnersStored(db: Db, id: nat)
    requires Valid(db)
    ensures Owned(DeleteResults(db, id))
  {
    var db' := DeleteResults(db, id);
    forall k | 0 <= k < |db'.auctions|
      ensures ResultsIdStored(db', db'.auctions[k].resultsId)
    {
      var a := db'.auctions[k];
      assert a in db.auctions;
      var kk :| 0 <= kk < |db.auctions| && db.auctions[kk] == a;
      var i :| 0 <= i < |db.results| && db.results[i].id == a.resultsId;
      assert db.results[i] in db'.results;
    }
  }

  // ---------------------------------------------------------------------------
  // Listing order (`Meta.ordering`), with strings compared code point by code point

  predicate StringLess(a: string, b: string)
  {
    if a == [] then b != []
    else if b == [] then false
    else if a[0] != b[0] then a[0] < b[0]
    else StringLess(a[1..], b[1..])
  }

  lemma {:induction false} StringLessIrreflexive(a: string)
    ensures !StringLess(a, a)
    decreases |a|
  {
    if a != [] { StringLessIrreflexive(a[1..]); }
  }

  lemma {:induction false} StringLessTransitive(a: string, b: string, c: string)
    requires StringLess(a, b) && StringLess(b, c)
    ensures StringLess(a, c)
    decreases |a|
  {
    if a != [] && b != [] && c != [] && a[0] == b[0] && b[0] == c[0] {
      StringLessTransitive(a[1..], b[1..], c[1..]);
    }
  }

  lemma {:induction false} StringLessTotal(a: string, b: string)
    requires a != b
    ensures StringLess(a, b) || StringLess(b, a)
    decreases |a|
  {
    if a != [] && b != [] && a[0] == b[0] {
      assert a == [a[0]] + a[1..] && b == [b[0]] + b[1..];
      StringLessTotal(a[1..], b[1..]);
    }
  }

  lemma StringLessAsymmetric(a: string, b: string)
    requires StringLess(a, b)
    ensures !StringLess(b, a)
  {
    if StringLess(b, a) {
      StringLessTransitive(a, b, a);
      StringLessIrreflexive(a);
    }
  }

  /** `AuctionResults.Meta.ordering = ["-date", "-id"]`: newest first, then the higher id first. */
  predicate ResultsPrecede(a: AuctionResults, b: AuctionResults)
  {
    DateBefore(b.date, a.date) || (a.date == b.date && a.id > b.id)
  }

  /** `Auction.Meta.ordering = ["region", "technology", "-id"]` */
  predicate AuctionPrecedes(a: Auction, b: Auction)
  {
    || StringLess(a.data.region, b.data.region)
    || (a.data.region == b.data.region && StringLess(a.data.technology, b.data.technology))
    || (a.data.region == b.data.region && a.data.technology == b.data.technology && a.id > b.id)
  }

  /** The batch order is a strict total order on rows with distinct ids. */
  lemma ResultsOrderStrictTotal(a: AuctionResults, b: AuctionResults, c: AuctionResults)
    ensures !ResultsPrecede(a, a)
    ensures ResultsPrecede(a, b) && ResultsPrecede(b, c) ==> ResultsPrecede(a, c)
    ensures a.id != b.id ==> ResultsPrecede(a, b) || ResultsPrecede(b, a)
  {
  }

  /** The line-item order is a strict total order on rows with distinct ids. */
  lemma AuctionOrderStrictTotal(a: Auction, b: Auction, c: Auction)
    ensures !AuctionPrecedes(a, a)
    ensures AuctionPrecedes(a, b) && AuctionPrecedes(b, c) ==> AuctionPrecedes(a, c)
    ensures a.id != b.id ==> AuctionPrecedes(a, b) || AuctionPrecedes(b, a)
  {
    StringLessIrreflexive(a.data.region);
    StringLessIrreflexive(a.data.technology);
    if AuctionPrecedes(a, b) && AuctionPrecedes(b, c) {
      if StringLess(a.data.region, b.data.region) && StringLess(b.data.region, c.data.region) {
        StringLessTransitive(a.data.region, b.data.region, c.data.region);
      }
      if a.data.region == b.data.region == c.data.region
        && StringLess(a.data.technology, b.data.technology) && StringLess(b.data.technology, c.data.technology)
      {
        StringLessTransitive(a.data.technology, b.data.technology, c.data.technology);
      }
    }
    if a.id != b.id {
      if a.data.region != b.data.region {
        StringLessTotal(a.data.region, b.data.region);
      } else if a.data.technology != b.data.technology {
        StringLessTotal(a.data.technology, b.data.technology);
      }
    }
  }

  /** A listing is in order when every earlier row precedes every later one. */
  predicate ResultsListed(s: seq<AuctionResults>)
  {
    forall i, j | 0 <= i < j < |s| :: ResultsPrecede(s[i], s[j])
  }

  predicate AuctionsListed(s: seq<Auction>)
  {
    forall i, j | 0 <= i < j < |s| :: AuctionPrecedes(s[i], s[j])
  }

  lemma ResultsListedHeads(s: seq<AuctionResults>, t: seq<AuctionResults>)
    requires ResultsListed(s) && ResultsListed(t)
    requires s != [] && t != [] && s[0] in t && t[0] in s
    ensures s[0] == t[0]
  {
    var i :| 0 <= i < |t| && t[i] == s[0];
    var j :| 0 <= j < |s| && s[j] == t[0];
    assert s[0] == t[0] || ResultsPrecede(s[0], t[0]) by { if j > 0 { assert ResultsPrecede(s[0], s[j]); } }
    assert s[0] == t[0] || ResultsPrecede(t[0], s[0]) by { if i > 0 { assert ResultsPrecede(t[0], t[i]); } }
    ResultsOrderStrictTotal(s[0], t[0], s[0]);
  }

  lemma MultisetTails<T>(s: seq<T>, t: seq<T>)
    requires s != [] && t != [] && s[0] == t[0] && multiset(s) == multiset(t)
    ensures multiset(s[1..]) == multiset(t[1..])
  {
    assert s == [s[0]] + s[1..] && t == [t[0]] + t[1..];
    assert multiset(s[1..]) == multiset(s) - multiset{s[0]};
    assert multiset(t[1..]) == multiset(t) - multiset{t[0]};
  }

  lemma ResultsListedTail(s: seq<AuctionResults>)
    requires s != [] && ResultsListed(s)
    ensures ResultsListed(s[1..])
  {
    assert forall i | 0 <= i < |s[1..]| :: s[1..][i] == s[i + 1];
  }

  /** The batch ordering leaves no freedom: two ordered listings of the same rows are identical. */
  lemma {:induction false} ResultsListingDetermined(s: seq<AuctionResults>, t: seq<AuctionResults>)
    requires ResultsListed(s) && ResultsListed(t)
    requires multiset(s) == multiset(t)
    ensures s == t
    decreases |s|
  {
    if s != [] {
      assert s[0] in multiset(t);
      assert t != [] && t[0] in multiset(s);
      ResultsListedHeads(s, t);
      ResultsListedTail(s);
      ResultsListedTail(t);
      MultisetTails(s, t);
      ResultsListingDetermined(s[1..], t[1..]);
      assert s == [s[0]] + s[1..] && t == [t[0]] + t[1..];
    }
  }

  lemma AuctionPrecedesAsymmetric(a: Auction, b: Auction)
    ensures AuctionPrecedes(a, b) ==> !AuctionPrecedes(b, a)
  {
    AuctionOrderStrictTotal(a, b, a);
  }

  lemma AuctionsListedHeads(s: seq<Auction>, t: seq<Auction>)
    requires AuctionsListed(s) && AuctionsListed(t)
    requires s != [] && t != [] && s[0] in t && t[0] in s
    ensures s[0] == t[0]
  {
    var i :| 0 <= i < |t| && t[i] == s[0];
    var j :| 0 <= j < |s| && s[j] == t[0];
    assert s[0] == t[0] || AuctionPrecedes(s[0], t[0]) by { if j > 0 { assert AuctionPrecedes(s[0], s[j]); } }
    assert s[0] == t[0] || AuctionPrecedes(t[0], s[0]) by { if i > 0 { assert AuctionPrecedes(t[0], t[i]); } }
    AuctionPrecedesAsymmetric(s[0], t[0]);
  }

  /** The line-item ordering leaves no freedom either. */
  lemma {:induction false} AuctionsListingDetermined(s: seq<Auction>, t: seq<Auction>)
    requires AuctionsListed(s) && AuctionsListed(t)
    requires multiset(s) == multiset(t)
    ensures s == t
    decreases |s|
  {
    if s != [] {
      assert s[0] in multiset(t);
      assert t != [] && t[0] in multiset(s);
      AuctionsListedHeads(s, t);
      MultisetTails(s, t);
      AuctionsListingDetermined(s[1..], t[1..]);
      assert s == [s[0]] + s[1..] && t == [t[0]] + t[1..];
    }
  }
}
