/** The Trakt token lifecycle of src/trakt.js: exchanging an authorization code
    (the `authorization_code` grant, section 4.1.3 of RFC 6749), refreshing
    on demand (the `refresh_token` grant, section 6 of RFC 6749) and the
    per-user state machine that decides when to refresh. */
module Credentials {
  import opened Wrappers
  import opened TokenStore

  /** Seconds a record must still have left to be used without a refresh. */
  const REFRESH_MARGIN: int := 30
  /** Lifetime assumed when the token endpoint gives no (or a zero) `expires_in`. */
  const DEFAULT_LIFETIME: int := 86400

  const EXCHANGE_FAILED: string := "Failed exchanging code"
  const REFRESH_FAILED: string := "Failed to refresh token"

  /** What the token endpoint answered: the `ok` status and the parsed body
      (section 5.1 of RFC 6749 on success, an error object otherwise). */
  datatype TokenResponse = TokenResponse(
    ok: bool,
    accessToken: Option<string>,
    refreshToken: Option<string>,
    expiresIn: Option<int>,
    message: Option<string>)

  /** The body posted to the token endpoint, up to the client credentials. */
  datatype TokenRequest =
    | AuthorizationCodeGrant(code: string)
    | RefreshTokenGrant(refreshToken: Option<string>)
  {
    function GrantType(): (grantType: string) {
      match this
      case AuthorizationCodeGrant(_) => "authorization_code"
      case RefreshTokenGrant(_) => "refresh_token"
    }
  }

  /** `Math.floor(Date.now() / 1000)` for a clock reading in milliseconds. */
  function UnixSeconds(nowMs: nat): (seconds: nat)
    ensures seconds * 1000 <= nowMs < seconds * 1000 + 1000
  {
    nowMs / 1000
  }

  /** `expires_in || 86400`: a missing or zero lifetime falls back to one day. */
  function Lifetime(expiresIn: Option<int>): (seconds: int)
    ensures seconds != 0
    ensures expiresIn.Some? && expiresIn.value != 0 ==> seconds == expiresIn.value
    ensures expiresIn == None || expiresIn == Some(0) ==> seconds == DEFAULT_LIFETIME
  {
    if expiresIn.Some? && expiresIn.value != 0 then expiresIn.value else DEFAULT_LIFETIME
  }

  /** `data?.message || fallback`: the upstream message when it is a non-empty string. */
  function ErrorMessage(message: Option<string>, fallback: string): (m: string)
    ensures m == fallback || (message.Some? && m == message.value)
    ensures message.Some? && message.value != "" ==> m == message.value
    ensures m == "" ==> fallback == ""
  {
    if message.Some? && message.value != "" then message.value else fallback
  }

  /** The record built from a successful token response at clock reading `issuedMs`:
      exactly the three fields, with the expiry in Unix seconds. */
  function IssuedRecord(resp: TokenResponse, issuedMs: nat): (r: TokenRecord)
    ensures r.accessToken == resp.accessToken && r.refreshToken == resp.refreshToken
    ensures r.expiresAtUnix.Some? && r.expiresAtUnix.value - UnixSeconds(issuedMs) == Lifetime(resp.expiresIn)
  {
    TokenRecord(resp.accessToken, resp.refreshToken, Some(UnixSeconds(issuedMs) + Lifetime(resp.expiresIn)))
  }

  /** `expires_at_unix || 0`: a missing expiry reads as the epoch. */
  function ExpiryOrZero(record: TokenRecord): (expiry: int)
    ensures record.expiresAtUnix.Some? ==> expiry == record.expiresAtUnix.value
    ensures record.expiresAtUnix.None? ==> expiry == 0
  {
    if record.expiresAtUnix.Some? then record.expiresAtUnix.value else 0
  }

  /** The three states of a user's credentials at a given second. */
  datatype TokenState = NoRecord | Valid | Expiring

  function StateOf(stored: Option<TokenRecord>, nowUnix: nat): (s: TokenState)
    ensures s == NoRecord <==> stored.None?
    ensures s == Valid <==> stored.Some? && ExpiryOrZero(stored.value) - nowUnix > REFRESH_MARGIN
    ensures stored.Some? && stored.value.expiresAtUnix.None? ==> s == Expiring
  {
    if stored.None? then NoRecord
    else if ExpiryOrZero(stored.value) - nowUnix > REFRESH_MARGIN then Valid
    else Expiring
  }

  /** What one `refreshTokenIfNeeded` call does: the value it returns (or the
      error it throws), the refresh request it sends, and the record it saves. */
  datatype RefreshStep = RefreshStep(
    result: Result<Option<TokenRecord>, string>,
    request: Option<TokenRequest>,
    saved: Option<TokenRecord>)

  /** The refresh decision for the record `stored`, the clock readings `nowMs`
      (the expiry test) and `issuedMs` (the new expiry), and the endpoint's
      answer `resp`, which is used only when a request is sent. */
  function RefreshOutcome(stored: Option<TokenRecord>, nowMs: nat, resp: TokenResponse, issuedMs: nat): (o: RefreshStep)
    // no record: null, nothing sent, nothing written
    ensures stored.None? ==> o == RefreshStep(Success(None), None, None)
    // a refresh request is sent exactly when the record is expiring, and carries the stored refresh token
    ensures o.request.Some? <==> StateOf(stored, UnixSeconds(nowMs)) == Expiring
    ensures o.request.Some? ==> o.request == Some(RefreshTokenGrant(stored.value.refreshToken))
    // without a request, the stored record comes back unchanged and nothing is written
    ensures o.request.None? ==> o.result == Success(stored) && o.saved.None?
    // a write happens only after a successful refresh, and saves exactly what is returned
    ensures o.saved.Some? <==> o.request.Some? && resp.ok
    ensures o.saved.Some? ==> o.result == Success(o.saved) && o.saved.value == IssuedRecord(resp, issuedMs)
    // a rejected refresh throws the upstream message and leaves the old record in place
    ensures o.request.Some? && !resp.ok ==> o.result == Failure(ErrorMessage(resp.message, REFRESH_FAILED)) && o.saved.None?
  {
    match StateOf(stored, UnixSeconds(nowMs))
    case NoRecord => RefreshStep(Success(None), None, None)
    case Valid => RefreshStep(Success(stored), None, None)
    case Expiring =>
      var request := RefreshTokenGrant(stored.value.refreshToken);
      if !resp.ok then
        RefreshStep(Failure(ErrorMessage(resp.message, REFRESH_FAILED)), Some(request), None)
      else
        var record := IssuedRecord(resp, issuedMs);
        RefreshStep(Success(Some(record)), Some(request), Some(record))
  }

  /** A record just issued stays usable without refresh for its lifetime less the margin. */
  lemma IssuedRecordState(resp: TokenResponse, issuedMs: nat, nowMs: nat)
    ensures StateOf(Some(IssuedRecord(resp, issuedMs)), UnixSeconds(nowMs)) == Valid
        <==> UnixSeconds(nowMs) - UnixSeconds(issuedMs) < Lifetime(resp.expiresIn) - REFRESH_MARGIN
  {
  }

  /** Once the record a successful refresh saved is what the store holds (the
      write landed) and its lifetime exceeds the margin, a second call in the
      same second sends nothing and returns it. A write that did not land leaves
      the old, expiring record in place, and the next call refreshes again. */
  lemma RefreshSettles(stored: Option<TokenRecord>, nowMs: nat, resp: TokenResponse, resp': TokenResponse, issuedMs: nat, laterMs: nat)
    requires RefreshOutcome(stored, nowMs, resp, issuedMs).saved.Some?
    requires Lifetime(resp.expiresIn) > REFRESH_MARGIN
    requires UnixSeconds(laterMs) == UnixSeconds(issuedMs)
    ensures var saved := RefreshOutcome(stored, nowMs, resp, issuedMs).saved;
            RefreshOutcome(saved, laterMs, resp', laterMs) == RefreshStep(Success(saved), None, None)
  {
  }

  /** A record written by the OAuth callback of src/app.js carries none of the
      fields read here, so every call takes the refresh path, without a refresh token. */
  lemma CallbackRecordAlwaysRefreshes(nowMs: nat, resp: TokenResponse, issuedMs: nat)
    ensures RefreshOutcome(Some(TokenRecord(None, None, None)), nowMs, resp, issuedMs).request
         == Some(RefreshTokenGrant(None))
  {
  }

  /** `exchangeCodeForToken`: posts the code; on a non-ok answer throws the upstream
      message and writes nothing; otherwise saves the issued record and returns it,
      whether or not the write lands (`writeLands`). */
  method ExchangeCodeForToken(store: Store, code: string, userId: string, resp: TokenResponse, nowMs: nat, writeLands: bool)
    returns (result: Result<TokenRecord, string>, request: TokenRequest)
    modifies store
    ensures request == AuthorizationCodeGrant(code) && request.GrantType() == "authorization_code"
    ensures !resp.ok ==> result == Failure(ErrorMessage(resp.message, EXCHANGE_FAILED))
    ensures resp.ok ==> result == Success(IssuedRecord(resp, nowMs))
    ensures store.entries == EntriesAfter(old(store.entries), userId, if resp.ok then Some(IssuedRecord(resp, nowMs)) else None, writeLands)
    ensures store.saves == SavesAfter(old(store.saves), userId, if resp.ok then Some(IssuedRecord(resp, nowMs)) else None)
  {
    request := AuthorizationCodeGrant(code);
    if !resp.ok {
      return Failure(ErrorMessage(resp.message, EXCHANGE_FAILED)), request;
    }
    var record := IssuedRecord(resp, nowMs);
    store.Save(userId, record, writeLands);
    result := Success(record);
  }

  /** `refreshTokenIfNeeded`: reads the user's record and, when it is expiring,
      refreshes it; behaves as `RefreshOutcome` describes, the save landing
      only when `writeLands`. */
  method RefreshTokenIfNeeded(store: Store, userId: string, nowMs: nat, resp: TokenResponse, issuedMs: nat, writeLands: bool)
    returns (result: Result<Option<TokenRecord>, string>, request: Option<TokenRequest>)
    modifies store
    ensures var o := RefreshOutcome(old(store.Get(userId)), nowMs, resp, issuedMs);
            && result == o.result && request == o.request
            && store.entries == EntriesAfter(old(store.entries), userId, o.saved, writeLands)
            && store.saves == SavesAfter(old(store.saves), userId, o.saved)
  {
    var stored := store.Get(userId);
    if stored.None? {
      return Success(None), None;
    }
    var nowUnix := UnixSeconds(nowMs);
    if ExpiryOrZero(stored.value) - nowUnix > REFRESH_MARGIN {
      return Success(stored), None;
    }
    request := Some(RefreshTokenGrant(stored.value.refreshToken));
    if !resp.ok {
      return Failure(ErrorMessage(resp.message, REFRESH_FAILED)), request;
    }
    var record := IssuedRecord(resp, issuedMs);
    store.Save(userId, record, writeLands);
    result := Success(Some(record));
  }
}
