# URL shortener: verified model of the identifier store and its two routes

This project models the core of a small Express/MongoDB URL-shortening
service (`server.js`). The model covers three pieces:

- the **short-id check** of `GET /api/shorturl/:id`. It accepts exactly the non-empty
  all-digit strings that do not start with `"0"`.
- the **scheme-prefix check** of `POST /api/shorturl`. It rejects any submission
  not beginning with `"http"`.
- the **mapping store**. This is the `Url` collection of `{original, short_url}` documents
  with an auto-incremented `short_url`. A create request runs an exact-match lookup
  and then a save. A resolve request runs an exact-match lookup by id.

Modules, one per component:

- `Wrappers` (`wrappers.dfy`): `Option`.
- `Validation` (`validation.dfy`): the two checks. The id check is paired with its
  reference definition: the accepted ids are exactly the canonical decimal numerals
  of the positive integers (`ValidIdsAreNumerals`). `ParseShortId` is the check
  followed by the string-to-number cast that Mongoose applies to the query value.
- `Mapping` (`mapping.dfy`): the row datatype and the schema rule. Mongoose's
  `required` rejects an empty string, and `maxLength` is 100. Also here: the invariant
  `WellFormed` and the two `findOne` lookups as recursive functions, with lemmas.
  The invariant says ids are positive, strictly increasing and below the counter,
  that originals are distinct, and that every stored original passed the schema.
  The lemmas cover uniqueness of lookups, lookups after an append, and preservation
  of the invariant.
- `Store` (`store.dfy`): class `UrlStore`. It holds a mutable `rows` sequence and the
  `nextId` counter. Its lookups are loops proved against the lookup functions.
  `GetOrCreate` does the lookup-then-save of the create route.
- `Handlers` (`handlers.dfy`): the `Response` datatype with the four exact error
  strings, and the three routes as methods over a store. Three walkthrough
  methods check concrete requests against the contracts alone:
  - `CreateWalkthrough`: a first and a repeated POST of `https://www.freecodecamp.org`
    against a fresh collection starting at 1.
  - `ResolveWalkthrough`: GETs of `1`, `01`, `9999` and of no id against that one row.
  - `RejectionWalkthrough`: a POST of `ftp://example.com` and a POST whose hostname
    does not resolve.

The outcome of `dns.lookup` is a parameter, `lookupSucceeds`. So is the hostname
extraction of `new URL(...)`: `hostOf` gives the hostname, or nothing when the
constructor throws.

Three error paths of the create route end in Express's error handler (`ServerError`):

- A submission the URL constructor cannot parse throws inside the route. It gets no
  `"Invalid URL"` reply.
- A failed save is passed to `next(err)`.
- A request body without a `url` field makes `startsWith` throw.

## Model

| member | source | states |
|---|---|---|
| `Validation.IsValidShortId` | server.js:47-48 | accepts exactly the non-empty all-digit strings whose first character is not `0`, and every accepted string denotes an integer greater than 0 |
| `Validation.LeadingNonZeroIsPositive` | server.js:47 | a run of digits whose first digit is not zero denotes a positive number |
| `Validation.HasHttpPrefix` | server.js:67 | holds exactly when the submission is `"http"` followed by anything (so both `http` and `https` pass, and nothing else is checked) |
| `Validation.ParseShortId` | server.js:47-52 | yields a value exactly when the id check accepts the string; the value is positive and the string is its canonical numeral, so the store is only queried with positive ids |
| `Validation.NumeralIsValidId` | server.js:48 | the numeral of every positive integer passes the check and denotes that integer |
| `Validation.ValidIdIsCanonicalNumeral` | server.js:47-48 | every accepted id denotes a positive integer whose numeral is the id itself (no leading zero, digits only) |
| `Validation.ValidIdsAreNumerals` | server.js:48 | the accept set is exactly the numerals of the positive integers (both directions) |
| `Validation.RejectedIds` | server.js:48 | a leading `"0"` (so `"0"` and `"01"`), the empty string, and any non-digit character are each rejected |
| `Mapping.SatisfiesSchema` | server.js:25-31 | a save is refused exactly when the original is empty (`required`) or longer than 100 characters (`maxLength`) |
| `Mapping.FindOriginal` | server.js:76 | returns a stored row whose original equals the input exactly, or nothing exactly when no row has that original |
| `Mapping.FindShortUrl` | server.js:52 | returns a stored row carrying the id, or nothing exactly when no row carries it |
| `Mapping.FindOriginalOfStoredRow` | server.js:76-93 | in a well-formed collection the lookup by a stored row's original returns that very row |
| `Mapping.FindShortUrlOfStoredRow` | server.js:52-59 | in a well-formed collection the lookup by a stored row's id returns that very row |
| `Mapping.FindOriginalAfterAppend` | server.js:79-81 | after appending a row, a lookup by original returns what it returned before, else the new row if it matches, else nothing |
| `Mapping.FindShortUrlAfterAppend` | server.js:79-81 | after appending a row, a lookup by id returns what it returned before, else the new row if it matches, else nothing |
| `Mapping.InsertPreservesWellFormed` | server.js:25-34 | saving a schema-valid original that is not yet stored, under the counter's value, keeps ids positive, increasing and fresh and originals distinct |
| `Store.UrlStore.constructor` | server.js:25-36 | a new collection is empty, well formed, and its sequence starts at the given positive value |
| `Store.UrlStore.FindByOriginal` | server.js:76 | the scan returns the same row as the lookup function `FindOriginal` |
| `Store.UrlStore.FindById` | server.js:52 | the scan returns the same row as the lookup function `FindShortUrl` |
| `Store.UrlStore.GetOrCreate` | server.js:76-94 | stored original: returns the existing row, nothing changes; new original over the schema limits: the save is refused, no row is added; otherwise exactly one row is appended, carrying the counter's value, greater than every existing id; the returned row resolves by its id; every lookup by original or by id that found a row before still finds the same row |
| `Store.UrlStore.GetOrCreateTwice` | server.js:76-93 | a second `GetOrCreate` of the same original returns the row the first one returned, as an existing row; the two calls only append, and add at most one row |
| `Handlers.ResolveResponse` | server.js:47-60 | `"Invalid URL"` exactly when the id check rejects; `"No short URL found for the given input"` exactly when the id is accepted and no row carries its number; otherwise a redirect to the original of a row carrying that number |
| `Handlers.ResolveStoredRow` | server.js:52-59 | round trip: the numeral of any stored row's id resolves to a redirect to that row's original |
| `Handlers.HandleResolve` | server.js:46-63 | a rejected id answers `"Invalid URL"` whatever the store holds; an accepted id with no row answers `"No short URL found for the given input"`; otherwise a redirect to the row's original |
| `Handlers.HandleGet` | server.js:42-63 | an empty segment (`/api/shorturl` or `/api/shorturl/`) answers `"No ID supplied. usage: /api/shorturl/:id"`; a non-empty segment gets the resolve route's response |
| `Handlers.HandleCreate` | server.js:65-99 | missing field or unparsable URL: server error; no `"http"` prefix: `"Invalid URL"`; failed hostname lookup: `"Invalid Hostname"`; all of these leave the store untouched; otherwise the `GetOrCreate` outcome as `{original_url, short_url}` or a server error on a refused save; any shortened reply resolves back to the submitted URL |
| `Handlers.SubmitTwice` | server.js:65-93 | two POSTs of the same URL, each with its own DNS lookup: once the first is shortened, the second gets the same reply unless its lookup fails (then `"Invalid Hostname"`); at most one row is added and none is changed |

## Left out

- Express setup, CORS, static files, template rendering, environment configuration and `app.listen` (server.js:1-17, 38-40, 101-103). These are transport plumbing.
- The MongoDB connection and its error handler (server.js:20-23). A `findOne` that fails with a database error (`next(err)` at server.js:53 and 77) is not modelled. Store reads always succeed, and a save fails only on schema validation; write errors (`next(err)` at server.js:82) are not modelled.
- The internals of the auto-increment sequence (server.js:9, 34). Its starting value is a constructor parameter. After a refused save, the counter is only known not to go back, because whether a refused save consumes a value is decided inside that library.
- Store.UrlStore.GetOrCreate: says only `old(nextId) <= nextId` after a refused save, for the reason above.
- The URL parsing of `new URL(...)` (server.js:70). It is an opaque parameter `hostOf`.
- The network `dns.lookup` (server.js:71). It is an opaque boolean parameter `lookupSucceeds`. Within one request it is a fixed function of the hostname. A transient failure is modelled only by giving another request a different function, as `SubmitTwice` does.
- Concurrency: the check-then-insert race between simultaneous create requests (server.js:76-81). The model is sequential, so it never holds two rows with the same original.
- HTTP status codes and the redirect mechanics (server.js:59). Only the outcome value is modelled.
- String lengths. The schema's `maxLength` counts UTF-16 code units, while the model counts characters. The two agree outside the astral planes. Whether the `maxLength` spelling is honoured depends on the Mongoose version, which is not part of this model. The model takes the limit as enforced.
- Number precision. The id string is cast to a JavaScript number before the query, which is exact only up to 2^53. The model treats every accepted id as the exact integer it denotes.
