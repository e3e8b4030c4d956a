/**
  The database as the importers use it: a mutable handle whose methods are the ORM calls
  `filter(md5_hash=...).exists()`, `objects.create`, `bulk_create`, and the rollback of an
  `atomic` block.  Each method's effect is a row-level function of `Models`: `Exists` is
  `HashStored`, `Create` is `CreateResults`, `BulkCreate` is `CreateAuctions` and
  `CreateItem` is `CreateAuction`.
*/
module Repository {
  import opened Wrappers
  import opened Models

  class Store {
    var results: seq<AuctionResults>
    var auctions: seq<Auction>
    var nextResultsId: nat
    var nextAuctionId: nat

    /** The stored rows and the id sequences, as a value. */
    function State(): Db
      reads this
    {
      Db(results, auctions, nextResultsId, nextAuctionId)
    }

    /** An empty database; both id sequences start at 1. */
    constructor ()
      ensures State() == EmptyDb
    {
      results, auctions := [], [];
      nextResultsId, nextAuctionId := 1, 1;
    }

    /** `AuctionResults.objects.filter(md5_hash=hash).exists()` */
    method Exists(hash: string) returns (found: bool)
      ensures found <==> HashStored(State(), hash)
    {
      found := HashStored(State(), hash);
    }

    /** `AuctionResults.objects.create(...)`: the new row's id, or the error the engine raised. */
    method Create(date: Date, participants: int, hash: string) returns (r: Result<nat, DbError>)
      requires ValidDate(date)
      modifies this
      ensures CreateResults(old(State()), date, participants, hash).Success? ==>
        r == Success(CreateResults(old(State()), date, participants, hash).value.1)
        && State() == CreateResults(old(State()), date, participants, hash).value.0
      ensures CreateResults(old(State()), date, participants, hash).Failure? ==>
        r == Failure(CreateResults(old(State()), date, participants, hash).error) && State() == old(State())
    {
      match CreateResults(State(), date, participants, hash)
      case Success((db, id)) =>
        results, nextResultsId := db.results, db.nextResultsId;
        r := Success(id);
      case Failure(e) =>
        r := Failure(e);
    }

    /** `Auction.objects.bulk_create(...)` with every item owned by batch `owner`. */
    method BulkCreate(items: seq<AuctionData>, owner: nat) returns (r: Outcome<DbError>)
      modifies this
      ensures CreateAuctions(old(State()), items, owner).Success? ==>
        r == Pass && State() == CreateAuctions(old(State()), items, owner).value
      ensures CreateAuctions(old(State()), items, owner).Failure? ==>
        r == Fail(CreateAuctions(old(State()), items, owner).error) && State() == old(State())
    {
      match CreateAuctions(State(), items, owner)
      case Success(db) =>
        auctions, nextAuctionId := db.auctions, db.nextAuctionId;
        r := Pass;
      case Failure(e) =>
        r := Fail(e);
    }

    /** `Auction.objects.create(...)` of one line item owned by batch `owner`. */
    method CreateItem(data: AuctionData, owner: nat) returns (r: Outcome<DbError>)
      modifies this
      ensures CreateAuction(old(State()), data, owner).Success? ==>
        r == Pass && State() == CreateAuction(old(State()), data, owner).value
      ensures CreateAuction(old(State()), data, owner).Failure? ==>
        r == Fail(CreateAuction(old(State()), data, owner).error) && State() == old(State())
    {
      match CreateAuction(State(), data, owner)
      case Success(db) =>
        auctions, nextAuctionId := db.auctions, db.nextAuctionId;
        r := Pass;
      case Failure(e) =>
        r := Fail(e);
    }

    /**
      Leaving an `atomic` block by an exception: the rows return to what they were when the
      block was entered.  PostgreSQL sequences are not transactional, so the id counters keep
      the values they reached.
    */
    method Rollback(savedResults: seq<AuctionResults>, savedAuctions: seq<Auction>)
      modifies this
      ensures results == savedResults && auctions == savedAuctions
      ensures nextResultsId == old(nextResultsId) && nextAuctionId == old(nextAuctionId)
    {
      results, auctions := savedResults, savedAuctions;
    }
  }
}
