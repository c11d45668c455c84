/**
 * The persisted rows of the `Url` collection (server.js:25-36) and the
 * lookups the handlers run against them, as functions on a sequence of rows
 * in insertion order. `WellFormed` is the invariant the store keeps: ids
 * positive, strictly increasing and below the counter, originals distinct,
 * and every stored original one that passed schema validation.
 */
module Mapping {
  import opened Wrappers

  /** One document: the submitted URL and the auto-incremented `short_url`. */
  datatype UrlMapping = UrlMapping(original: string, shortUrl: int)

  const MaxOriginalLength: nat := 100

  /**
   * Schema validation of `original`: the `required` validator refuses the
   * empty string and the `maxLength: 100` validator refuses anything longer.
   */
  predicate SatisfiesSchema(original: string): (ok: bool)
    ensures !ok <==> original == "" || |original| > MaxOriginalLength
  {
    0 < |original| <= MaxOriginalLength
  }

  predicate IdsIncreasing(rows: seq<UrlMapping>)
  {
    forall i, j :: 0 <= i < j < |rows| ==> rows[i].shortUrl < rows[j].shortUrl
  }

  predicate OriginalsDistinct(rows: seq<UrlMapping>)
  {
    forall i, j :: 0 <= i < j < |rows| ==> rows[i].original != rows[j].original
  }

  predicate WellFormed(rows: seq<UrlMapping>, nextId: int)
  {
    && 0 < nextId
    && IdsIncreasing(rows)
    && OriginalsDistinct(rows)
    && forall i :: 0 <= i < |rows| ==> 0 < rows[i].shortUrl < nextId && SatisfiesSchema(rows[i].original)
  }

  /** `findOne({ original })`: a row whose original equals the input exactly, or nothing. */
  function FindOriginal(rows: seq<UrlMapping>, original: string): (found: Option<UrlMapping>)
    ensures found.Some? ==> found.value in rows && found.value.original == original
    ensures found.None? <==> forall i :: 0 <= i < |rows| ==> rows[i].original != original
    decreases |rows|
  {
    if rows == [] then None
    else if rows[0].original == original then Some(rows[0])
    else FindOriginal(rows[1..], original)
  }

  /** `findOne({ short_url })`: the row carrying the given id, or nothing. */
  function FindShortUrl(rows: seq<UrlMapping>, id: int): (found: Option<UrlMapping>)
    ensures found.Some? ==> found.value in rows && found.value.shortUrl == id
    ensures found.None? <==> forall i :: 0 <= i < |rows| ==> rows[i].shortUrl != id
    decreases |rows|
  {
    if rows == [] then None
    else if rows[0].shortUrl == id then Some(rows[0])
    else FindShortUrl(rows[1..], id)
  }

  /** In a well-formed collection a stored row is the one its original finds. */
  lemma {:induction false} FindOriginalOfStoredRow(rows: seq<UrlMapping>, nextId: int, m: UrlMapping)
    requires WellFormed(rows, nextId) && m in rows
    ensures FindOriginal(rows, m.original) == Some(m)
    decreases |rows|
  {
    if rows[0] != m {
      assert m in rows[1..];
      assert WellFormed(rows[1..], nextId);
      FindOriginalOfStoredRow(rows[1..], nextId, m);
    }
  }

  /** In a well-formed collection a stored row is the one its id finds: resolving an id handed out returns its row. */
  lemma {:induction false} FindShortUrlOfStoredRow(rows: seq<UrlMapping>, nextId: int, m: UrlMapping)
    requires WellFormed(rows, nextId) && m in rows
    ensures FindShortUrl(rows, m.shortUrl) == Some(m)
    decreases |rows|
  {
    if rows[0] != m {
      assert m in rows[1..];
      assert WellFormed(rows[1..], nextId);
      FindShortUrlOfStoredRow(rows[1..], nextId, m);
    }
  }

  /** Appending a row leaves every earlier lookup by original as it was. */
  lemma {:induction false} FindOriginalAfterAppend(rows: seq<UrlMapping>, m: UrlMapping, original: string)
    ensures FindOriginal(rows + [m], original) ==
      if FindOriginal(rows, original).Some? then FindOriginal(rows, original)
      else if m.original == original then Some(m)
      else None
    decreases |rows|
  {
    if rows != [] {
      assert (rows + [m])[1..] == rows[1..] + [m];
      FindOriginalAfterAppend(rows[1..], m, original);
    }
  }

  /** Appending a row leaves every earlier lookup by id as it was. */
  lemma {:induction false} FindShortUrlAfterAppend(rows: seq<UrlMapping>, m: UrlMapping, id: int)
    ensures FindShortUrl(rows + [m], id) ==
      if FindShortUrl(rows, id).Some? then FindShortUrl(rows, id)
      else if m.shortUrl == id then Some(m)
      else None
    decreases |rows|
  {
    if rows != [] {
      assert (rows + [m])[1..] == rows[1..] + [m];
      FindShortUrlAfterAppend(rows[1..], m, id);
    }
  }

  /** Inserting a new, schema-valid original under the counter's value keeps the collection well formed. */
  lemma InsertPreservesWellFormed(rows: seq<UrlMapping>, nextId: int, original: string)
    requires WellFormed(rows, nextId)
    requires FindOriginal(rows, original).None? && SatisfiesSchema(original)
    ensures WellFormed(rows + [UrlMapping(original, nextId)], nextId + 1)
  {
  }
}
