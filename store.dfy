/**
 * The `Url` collection together with its auto-increment counter
 * (server.js:25-36), seen through the two queries the handlers make: the
 * lookup by id of the resolve route (server.js:52) and the
 * lookup-then-save of the create route (server.js:76-94). Rows are only
 * ever appended; none is updated or deleted.
 */
module Store {
  import opened Wrappers
  import opened Mapping

  /** What a create request obtains from the store: the row already there, a new row, or a failed save. */
  datatype CreateOutcome =
    | Existing(row: UrlMapping)
    | Inserted(row: UrlMapping)
    | SaveRejected

  class UrlStore {
    /** The documents of the collection, in insertion order. */
    var rows: seq<UrlMapping>
    /** The value the auto-increment sequence hands to the next saved document. */
    var nextId: int

    ghost predicate Valid()
      reads this
    {
      WellFormed(rows, nextId)
    }

    /** An empty collection whose sequence starts at `firstId`. */
    constructor (firstId: int)
      requires 0 < firstId
      ensures Valid() && rows == [] && nextId == firstId
    {
      rows := [];
      nextId := firstId;
    }

    /** `Url.findOne({ original })`, scanning the rows in order. */
    method FindByOriginal(original: string) returns (found: Option<UrlMapping>)
      ensures found == FindOriginal(rows, original)
    {
      var i := 0;
      while i < |rows|
        invariant 0 <= i <= |rows|
        invariant FindOriginal(rows[i..], original) == FindOriginal(rows, original)
      {
        if rows[i].original == original {
          return Some(rows[i]);
        }
        assert rows[i..][1..] == rows[i + 1..];
        i := i + 1;
      }
      return None;
    }

    /** `Url.findOne({ short_url })`, scanning the rows in order. */
    method FindById(id: int) returns (found: Option<UrlMapping>)
      ensures found == FindShortUrl(rows, id)
    {
      var i := 0;
      while i < |rows|
        invariant 0 <= i <= |rows|
        invariant FindShortUrl(rows[i..], id) == FindShortUrl(rows, id)
      {
        if rows[i].shortUrl == id {
          return Some(rows[i]);
        }
        assert rows[i..][1..] == rows[i + 1..];
        i := i + 1;
      }
      return None;
    }

    /**
     * Look the original up; when it is absent, save a new document, which
     * schema validation may refuse. A saved document takes the sequence's
     * next value. Whether a refused save still advances the sequence is left
     * open: the counter only never goes back.
     */
    method GetOrCreate(original: string) returns (outcome: CreateOutcome)
      requires Valid()
      modifies this
      ensures Valid()
      ensures FindOriginal(old(rows), original).Some? ==>
        outcome == Existing(FindOriginal(old(rows), original).value) && rows == old(rows) && nextId == old(nextId)
      ensures FindOriginal(old(rows), original).None? && !SatisfiesSchema(original) ==>
        outcome == SaveRejected && rows == old(rows) && old(nextId) <= nextId
      ensures FindOriginal(old(rows), original).None? && SatisfiesSchema(original) ==>
        && outcome == Inserted(UrlMapping(original, old(nextId)))
        && rows == old(rows) + [outcome.row]
        && nextId == old(nextId) + 1
      ensures outcome.Inserted? ==> forall i :: 0 <= i < |old(rows)| ==> old(rows)[i].shortUrl < outcome.row.shortUrl
      ensures !outcome.SaveRejected? ==>
        outcome.row.original == original && FindShortUrl(rows, outcome.row.shortUrl) == Some(outcome.row)
      ensures forall u :: FindOriginal(old(rows), u).Some? ==> FindOriginal(rows, u) == FindOriginal(old(rows), u)
      ensures forall id :: FindShortUrl(old(rows), id).Some? ==> FindShortUrl(rows, id) == FindShortUrl(old(rows), id)
    {
      var found := FindByOriginal(original);
      if found.Some? {
        FindShortUrlOfStoredRow(rows, nextId, found.value);
        return Existing(found.value);
      }
      if !SatisfiesSchema(original) {
        return SaveRejected;
      }
      var row := UrlMapping(original, nextId);
      InsertPreservesWellFormed(rows, nextId, original);
      forall u {
        FindOriginalAfterAppend(rows, row, u);
      }
      forall id {
        FindShortUrlAfterAppend(rows, row, id);
      }
      FindShortUrlOfStoredRow(rows + [row], nextId + 1, row);
      rows := rows + [row];
      nextId := nextId + 1;
      return Inserted(row);
    }

    /**
     * Idempotence of the store: a second `GetOrCreate` of the same original
     * finds the row the first one returned, and the two calls add at most
     * one row.
     */
    method GetOrCreateTwice(original: string) returns (first: CreateOutcome, second: CreateOutcome)
      requires Valid()
      modifies this
      ensures Valid()
      ensures !first.SaveRejected? ==> second == Existing(first.row)
      ensures |old(rows)| <= |rows| <= |old(rows)| + 1
      ensures rows[..|old(rows)|] == old(rows)
    {
      first := GetOrCreate(original);
      if !first.SaveRejected? {
        FindOriginalOfStoredRow(rows, nextId, first.row);
      }
      second := GetOrCreate(original);
    }
  }
}
