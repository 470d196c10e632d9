# Trakt votes gateway: credential lifecycle and rating calls

This project models the core of a small gateway that lets a Stremio add-on
record a user's ratings on Trakt. The core is `src/trakt.js`. It covers:

- exchanging an OAuth authorization code for tokens (the `authorization_code`
  grant, section 4.1.3 of RFC 6749);
- refreshing a user's token on demand (the `refresh_token` grant, section 6 of
  RFC 6749), with the expiry taken from `expires_in` (section 5.1 of RFC 6749);
- posting a single rating;
- looking up the user's rating for one IMDb id by scanning the listed ratings.

Per-user credentials live in a Redis store under the key `"trakt:" + userId`.

Each user's credentials are in one of three states at a given second
(`Credentials.StateOf`):

- no record;
- valid: `expires_at_unix` minus now is more than 30 s;
- expiring: 30 s or less left, with a missing expiry counted as 0.

`refreshTokenIfNeeded` sends a refresh request only in the expiring state. It
writes a replacement record only when the refresh succeeds.

Modelling choices:

- **HTTP.** Every HTTP exchange is an input: the `ok` flag plus the parsed
  body. Each operation returns the request it would send, as an out-parameter;
  `None` means no request is made.
- **Clock.** The clock is an input in milliseconds. `refreshTokenIfNeeded`
  reads it twice: once for the expiry test (`nowMs`) and once for the new
  expiry (`issuedMs`).
- **Errors.** A thrown `Error` is a `Failure` carrying its message. `null` is
  `None`.
- **Store.** The store is a class holding the map from Redis key to parsed
  record, plus a ghost history of every attempted save. `TokenStore.StoreKeyInjective`
  shows that keying by `"trakt:" + userId` keeps users apart.
- **Store function names.** `src/trakt.js:3` imports `saveTokenForUser` and
  `getTokenForUser`, but `src/redis.js` exports only `storeToken`, `getToken`
  and `deleteToken` (src/redis.js:15,29,43). The sources are ES modules, and
  importing a name a module does not export is a link-time error, so
  `src/trakt.js` as written cannot load. The model assumes a store that
  provides a read and a write (`Store.Get`, `Store.Save`), and binds to
  neither set of names.
- **Swallowed store writes.** `storeToken` catches a failed Redis write, logs
  it and returns normally (src/redis.js:16-21). `Store.Save` takes an input
  `lands` saying whether the write reached Redis; when it did not, the old
  record stays, while `exchangeCodeForToken` and `refreshTokenIfNeeded` still
  return the new record (src/trakt.js:27-28, 64-65).

Behaviour of the source worth stating plainly:

- **Rating range.** `postRating` forwards `rating` unchanged with no range
  check (src/trakt.js:82, 85), although its comment at src/trakt.js:72 says
  `integer 1..10`.
- **List choice.** Every type other than `"movie"` selects the `shows` list
  (src/trakt.js:81-86, 116), `"series"` included, although the comment at
  src/trakt.js:70 names only "movie" or "show".
- **Default lifetime.** A missing or zero `expires_in` gives a lifetime of
  86400 s (src/trakt.js:25, 62), because of the `||` fallback.
- **Failed refresh in a lookup.** `getUserRatingForItem` returns null for a
  missing record or a non-ok listing (src/trakt.js:112, 126-128), but a
  rejected refresh inside `refreshTokenIfNeeded` throws (src/trakt.js:57-60)
  and is not caught, so the lookup throws too.

Records written by the OAuth callback in `src/app.js` use other field names.
To `src/trakt.js` they are records with none of the three fields, and
`Credentials.CallbackRecordAlwaysRefreshes` shows that such a record always
takes the refresh path, with no refresh token.

## Model

| member | source | states |
|---|---|---|
| `TokenStore.StoreKey` | src/redis.js:17 | the key is the `trakt:` prefix followed by the user id, and the id can be read back from it |
| `TokenStore.StoreKeyInjective` | src/redis.js:31 | two users share a key only if they are the same user, so per-user writes never touch another user's record |
| `TokenStore.Store.Get` | src/redis.js:29-37 | a record is returned exactly when one is stored under the user's key; otherwise absent |
| `TokenStore.Store.Save` | src/redis.js:15-22 | when the write lands the user's record is replaced wholesale, and when it fails the old record stays and the call still returns; the attempt is logged, and every other user's record is unchanged |
| `Credentials.UnixSeconds` | src/trakt.js:37 | the Unix second of a millisecond clock reading is its floor: `s * 1000 <= ms < s * 1000 + 1000` |
| `Credentials.ExpiryOrZero` | src/trakt.js:39 | `expires_at_unix || 0`: the stored expiry when present, else 0 |
| `Credentials.Lifetime` | src/trakt.js:25 | `expires_in || 86400`: the given lifetime when present and non-zero, else 86400; never 0 |
| `Credentials.ErrorMessage` | src/trakt.js:22 | the thrown message is the upstream message when it is a non-empty string, else the fallback; it is empty only if the fallback is |
| `Credentials.IssuedRecord` | src/trakt.js:25-26 | the new record copies both tokens from the response and expires `Lifetime` seconds after the issuing second |
| `Credentials.StateOf` | src/trakt.js:35-41 | no record, valid (more than 30 s left) or expiring; a record with no expiry is always expiring |
| `Credentials.RefreshOutcome` | src/trakt.js:34-66 | no record gives null with no call and no write; a refresh request carrying the stored refresh token is sent iff the record is expiring; otherwise the stored record is returned unchanged; a write happens iff the refresh is ok and saves exactly the returned record; a rejected refresh throws the upstream message and writes nothing |
| `Credentials.IssuedRecordState` | src/trakt.js:37-41 | a freshly issued record is valid at a later second iff fewer than lifetime minus 30 seconds have passed since it was issued |
| `Credentials.RefreshSettles` | src/trakt.js:39-65 | once the record a successful refresh saved is what the store holds (the write landed) and its lifetime is above 30 s, a second call in the same second sends nothing and returns it |
| `Credentials.CallbackRecordAlwaysRefreshes` | src/app.js:56-60 | a record in the callback's shape is always refreshed, and the refresh request carries no refresh token |
| `Credentials.ExchangeCodeForToken` | src/trakt.js:8-29 | sends an `authorization_code` grant with the code; a non-ok answer throws the upstream message and writes nothing; an ok answer saves the issued record and returns exactly it, the record being stored only if the write lands |
| `Credentials.RefreshTokenIfNeeded` | src/trakt.js:34-66 | returns, sends and saves what `RefreshOutcome` says for the user's stored record; the store changes only by that save, and only if the write lands |
| `Ratings.ListFor` | src/trakt.js:116 | the movies list iff the type is exactly `"movie"`, the shows list for every other type |
| `Ratings.PayloadFor` | src/trakt.js:80-86 | one key, `movies` iff the type is `"movie"` and `shows` otherwise, holding one entry with the IMDb id and the rating unchanged |
| `Ratings.IdsOf` | src/trakt.js:132 | an item's ids are the movie's ids when present, else the show's ids when present, else an empty ids object |
| `Ratings.Matches` | src/trakt.js:133 | an item matches only through a movie or show carrying the IMDb id, and a movie's ids that do not match hide a matching show's ids |
| `Ratings.FirstRating` | src/trakt.js:131-137 | a found rating is the rating of some item in the list that matches the IMDb id |
| `Ratings.FirstRatingAt` | src/trakt.js:131-136 | when item `i` is the first whose ids (movie ids, else show ids, else none) match, the lookup yields item `i`'s rating |
| `Ratings.FirstRatingNone` | src/trakt.js:131-137 | the lookup yields nothing iff no item matches |
| `Ratings.FindRating` | src/trakt.js:130-137 | the early-return loop yields the first matching item's rating, or nothing |
| `Ratings.SubmittedRatingIsFound` | src/trakt.js:80-136 | the list posted to and the list read agree, and once the list shows the posted entry with no earlier match, the lookup returns the submitted rating |
| `Ratings.PostRating` | src/trakt.js:74-104 | refreshes as `RefreshOutcome` says; throws that error, or "No token for user" with nothing posted; otherwise posts the single-entry payload with the record's access token and returns the upstream body, or throws its `error`, else its JSON text |
| `Ratings.GetUserRatingForItem` | src/trakt.js:110-138 | refreshes as `RefreshOutcome` says; a refresh error is thrown; no record gives null with no listing call; otherwise it lists `movies` iff the type is `"movie"` (else `shows`) and returns null on a non-ok answer, else the first match's rating |

## Left out

- HTTP details are not modelled: headers, the Bearer header format (section
  2.1 of RFC 6750), the API version and key headers, and the client id, secret
  and redirect URI posted with each token request. These come from environment
  configuration (`src/config.js`), which is not part of this model.
- JSON handling is outside the model: `JSON.stringify` and `resp.json()`. A
  body that fails to parse, and so throws, is not modelled. A JSON
  `expires_in`, `expires_at_unix` or `rating` that is not an integer is not
  modelled either, and neither is a `message` or an `error` field that is not a
  string (src/trakt.js:22, 59, 101).
- A ratings listing body that is not an array is not modelled. The model
  assumes an item's `rating` is present.
- A `null` element of the listing array is not modelled: the source throws a
  `TypeError` at `item.movie` (src/trakt.js:132), while every `RatedItem` of
  the model is an object.
- A `fetch` that rejects (a network or DNS failure; the source sets no
  timeout) is not modelled. In the source every operation then throws
  (src/trakt.js:9, 44, 88, 118), including `getUserRatingForItem`, which
  returns null only for a non-ok answer (src/trakt.js:126-128). Every
  `TokenResponse`, `ApiResponse` and `ListingResponse` of the model carries an
  `ok` flag and a body, so this path cannot be expressed.
- JavaScript number precision is not modelled. Numbers in the source are
  doubles, so `Math.floor(Date.now() / 1000) + (data.expires_in || 86400)`
  (src/trakt.js:25, 62) and the `expires_at_unix - nowUnix > 30` test
  (src/trakt.js:39) round above 2^53; the model's `int` is exact.
- Redis storage and serialisation are not modelled. Of the errors that
  `src/redis.js` logs and swallows, only a failed write is modelled, by the
  `lands` input of `Store.Save`. A failed read is not an input of the model:
  a present record always reads as present, and a call whose read fails
  behaves like a call on a store without that key (src/redis.js:33-36). A
  stored value that is falsy but parses (for example the JSON text `0`) is not
  modelled either. The store is only
  the map of parsed records.
- `deleteToken` (src/redis.js:43-50) is not modelled, because `src/trakt.js`
  never calls it.
- The Express routes of `src/app.js` and the add-on manifest of
  `src/addon.js` are not part of this model.
- Concurrent refreshes for the same user are not modelled. The source does not
  guard against them.
- How the remote service lists a posted rating (`Ratings.Listed`, used by the
  write-then-read lemma) is an assumption about that service, not something
  the source states.
