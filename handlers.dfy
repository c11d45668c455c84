/**
 * The three `/api/shorturl` routes of server.js as request-to-response
 * steps over a `UrlStore`. A response is the value the route hands to
 * Express: a redirect, one of the two JSON bodies, or an error passed on to
 * Express's error handler (`next(err)` or a synchronous throw).
 *
 * The hostname extraction of `new URL(...)` and the `dns.lookup` outcome are
 * parameters: `hostOf` gives the hostname of a submission, or nothing when
 * the URL constructor throws, and `lookupSucceeds` says whether resolving a
 * hostname succeeds.
 */
module Handlers {
  import opened Wrappers
  import opened Validation
  import opened Mapping
  import opened Store

  const InvalidUrl: string := "Invalid URL"
  const InvalidHostname: string := "Invalid Hostname"
  const NoShortUrlFound: string := "No short URL found for the given input"
  const NoIdSupplied: string := "No ID supplied. usage: /api/shorturl/:id"

  datatype Response =
    | Redirect(location: string)                       // res.redirect(original)
    | Shortened(originalUrl: string, shortUrl: int)    // res.json({ original_url, short_url })
    | ErrorJson(error: string)                         // res.json({ error })
    | ServerError                                      // handed to Express's error handler

  /**
   * The response the resolve route owes for `id`, given the stored rows: a
   * rejected id is answered without looking at the rows, an accepted one by
   * the row carrying the number it denotes.
   */
  function ResolveResponse(rows: seq<UrlMapping>, id: string): (resp: Response)
    ensures resp == ErrorJson(InvalidUrl) <==> !IsValidShortId(id)
    ensures resp == ErrorJson(NoShortUrlFound) <==>
      IsValidShortId(id) && forall i :: 0 <= i < |rows| ==> rows[i].shortUrl != DecimalValue(id)
    ensures resp.Redirect? ==>
      IsValidShortId(id) && exists i :: 0 <= i < |rows| && rows[i].shortUrl == DecimalValue(id) && rows[i].original == resp.location
    ensures resp.Redirect? || resp == ErrorJson(InvalidUrl) || resp == ErrorJson(NoShortUrlFound)
  {
    match ParseShortId(id)
    case None => ErrorJson(InvalidUrl)
    case Some(n) =>
      match FindShortUrl(rows, n)
      case None => ErrorJson(NoShortUrlFound)
      case Some(m) => Redirect(m.original)
  }

  /** Round trip: the numeral of any stored row's id resolves to a redirect to that row's original. */
  lemma ResolveStoredRow(rows: seq<UrlMapping>, nextId: int, m: UrlMapping)
    requires WellFormed(rows, nextId) && m in rows
    ensures ResolveResponse(rows, DecimalString(m.shortUrl)) == Redirect(m.original)
  {
    NumeralIsValidId(m.shortUrl);
    FindShortUrlOfStoredRow(rows, nextId, m);
  }

  /** `GET /api/shorturl/:id`: check the id, then look it up. */
  method HandleResolve(store: UrlStore, id: string) returns (resp: Response)
    ensures !IsValidShortId(id) ==> resp == ErrorJson(InvalidUrl)
    ensures IsValidShortId(id) && FindShortUrl(store.rows, DecimalValue(id)).None? ==>
      resp == ErrorJson(NoShortUrlFound)
    ensures IsValidShortId(id) && FindShortUrl(store.rows, DecimalValue(id)).Some? ==>
      resp == Redirect(FindShortUrl(store.rows, DecimalValue(id)).value.original)
    ensures resp == ResolveResponse(store.rows, id)
  {
    var parsed := ParseShortId(id);
    if parsed.None? {
      return ErrorJson(InvalidUrl);
    }
    var found := store.FindById(parsed.value);
    if found.None? {
      return ErrorJson(NoShortUrlFound);
    }
    return Redirect(found.value.original);
  }

  /**
   * `GET /api/shorturl` and `GET /api/shorturl/:id`: `segment` is the path
   * segment after `/api/shorturl/`. It is empty for `/api/shorturl` and
   * `/api/shorturl/`, which Express routes to the no-id handler, since `:id`
   * never binds an empty segment.
   */
  method HandleGet(store: UrlStore, segment: string) returns (resp: Response)
    ensures segment == "" ==> resp == ErrorJson(NoIdSupplied)
    ensures segment != "" ==> resp == ResolveResponse(store.rows, segment)
  {
    if segment == "" {
      return ErrorJson(NoIdSupplied);
    }
    resp := HandleResolve(store, segment);
  }

  /** The submission gets past the prefix check, the URL parse and the DNS lookup. */
  ghost predicate PassesChecks(url: Option<string>, hostOf: string -> Option<string>, lookupSucceeds: string -> bool)
  {
    && url.Some?
    && HasHttpPrefix(url.value)
    && hostOf(url.value).Some?
    && lookupSucceeds(hostOf(url.value).value)
  }

  /**
   * `POST /api/shorturl`: `url` is the form field, absent when the body has
   * none (reading `startsWith` of it then throws).
   */
  method HandleCreate(store: UrlStore, url: Option<string>, hostOf: string -> Option<string>, lookupSucceeds: string -> bool)
    returns (resp: Response)
    requires store.Valid()
    modifies store
    ensures store.Valid()
    ensures url.None? ==> resp == ServerError
    ensures url.Some? && !HasHttpPrefix(url.value) ==> resp == ErrorJson(InvalidUrl)
    ensures url.Some? && HasHttpPrefix(url.value) && hostOf(url.value).None? ==> resp == ServerError
    ensures url.Some? && HasHttpPrefix(url.value) && hostOf(url.value).Some? && !lookupSucceeds(hostOf(url.value).value) ==>
      resp == ErrorJson(InvalidHostname)
    ensures !PassesChecks(url, hostOf, lookupSucceeds) ==> store.rows == old(store.rows) && store.nextId == old(store.nextId)
    ensures PassesChecks(url, hostOf, lookupSucceeds) && FindOriginal(old(store.rows), url.value).Some? ==>
      && resp == Shortened(url.value, FindOriginal(old(store.rows), url.value).value.shortUrl)
      && store.rows == old(store.rows) && store.nextId == old(store.nextId)
    ensures PassesChecks(url, hostOf, lookupSucceeds) && FindOriginal(old(store.rows), url.value).None? && !SatisfiesSchema(url.value) ==>
      resp == ServerError && store.rows == old(store.rows) && old(store.nextId) <= store.nextId
    ensures PassesChecks(url, hostOf, lookupSucceeds) && FindOriginal(old(store.rows), url.value).None? && SatisfiesSchema(url.value) ==>
      && resp == Shortened(url.value, old(store.nextId))
      && store.rows == old(store.rows) + [UrlMapping(url.value, old(store.nextId))]
      && store.nextId == old(store.nextId) + 1
    ensures resp.Shortened? ==>
      url.Some? && resp.originalUrl == url.value && ResolveResponse(store.rows, DecimalString(resp.shortUrl)) == Redirect(url.value)
  {
    if url.None? {
      return ServerError;
    }
    var u := url.value;
    if !HasHttpPrefix(u) {
      return ErrorJson(InvalidUrl);
    }
    var host := hostOf(u);
    if host.None? {
      return ServerError;
    }
    if !lookupSucceeds(host.value) {
      return ErrorJson(InvalidHostname);
    }
    var outcome := store.GetOrCreate(u);
    if outcome.SaveRejected? {
      return ServerError;
    }
    var m := outcome.row;
    ResolveStoredRow(store.rows, store.nextId, m);
    resp := Shortened(m.original, m.shortUrl);
  }

  /**
   * Submitting the same URL twice: each request makes its own DNS lookup, so
   * once the first is shortened the second gets the same short id unless its
   * lookup fails, and the two requests store at most one row.
   */
  method SubmitTwice(store: UrlStore, url: string, hostOf: string -> Option<string>,
                     firstLookup: string -> bool, secondLookup: string -> bool)
    returns (first: Response, second: Response)
    requires store.Valid()
    modifies store
    ensures store.Valid()
    ensures first.Shortened? ==> second == first || second == ErrorJson(InvalidHostname)
    ensures first.Shortened? && hostOf(url).Some? && secondLookup(hostOf(url).value) ==> second == first
    ensures |old(store.rows)| <= |store.rows| <= |old(store.rows)| + 1
    ensures store.rows[..|old(store.rows)|] == old(store.rows)
  {
    first := HandleCreate(store, Some(url), hostOf, firstLookup);
    if first.Shortened? {
      FindOriginalOfStoredRow(store.rows, store.nextId, UrlMapping(first.originalUrl, first.shortUrl));
    }
    second := HandleCreate(store, Some(url), hostOf, secondLookup);
  }

  /** A first and a repeated POST of https://www.freecodecamp.org against a fresh collection whose sequence starts at 1. */
  method CreateWalkthrough()
  {
    var store := new UrlStore(1);
    var fcc := "https://www.freecodecamp.org";
    assert fcc[..4] == "http";
    var created := HandleCreate(store, Some(fcc), u => Some("www.freecodecamp.org"), h => true);
    assert created == Shortened(fcc, 1);
    var again := HandleCreate(store, Some(fcc), u => Some("www.freecodecamp.org"), h => true);
    assert again == Shortened(fcc, 1) && |store.rows| == 1;
  }

  /** GETs of ids "1", "01", "9999" and of no id against a collection holding the single row of id 1. */
  method ResolveWalkthrough()
  {
    var store := new UrlStore(1);
    var fcc := "https://www.freecodecamp.org";
    store.rows, store.nextId := [UrlMapping(fcc, 1)], 2;
    assert "1"[..1] == "1" && "1"[..0] == "";
    var redirect := HandleGet(store, "1");
    assert redirect == Redirect(fcc);
    assert "01"[..1] == "0";
    var leadingZero := HandleGet(store, "01");
    assert leadingZero == ErrorJson(InvalidUrl);
    assert "9999"[..1] == "9";
    assert "9999"[..3] == "999" && "999"[..2] == "99" && "99"[..1] == "9" && "9"[..0] == "";
    assert DecimalValue("9999") == 9999;
    var missing := HandleGet(store, "9999");
    assert missing == ErrorJson(NoShortUrlFound);
    var noId := HandleGet(store, "");
    assert noId == ErrorJson(NoIdSupplied);
  }

  /** A POST of ftp://example.com and a POST whose hostname does not resolve both leave a fresh collection empty. */
  method RejectionWalkthrough()
  {
    var store := new UrlStore(1);
    assert "ftp://example.com"[..4][0] == 'f';
    var ftp := HandleCreate(store, Some("ftp://example.com"), u => Some("example.com"), h => true);
    assert ftp == ErrorJson(InvalidUrl) && store.rows == [];
    assert "http://nowhere.invalid"[..4] == "http";
    var unknownHost := HandleCreate(store, Some("http://nowhere.invalid"), u => Some("nowhere.invalid"), h => false);
    assert unknownHost == ErrorJson(InvalidHostname) && store.rows == [];
  }
}
