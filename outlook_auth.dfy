/**
 * The Graph access-token cache: one entry per account id, reused while it
 * has more than a minute left, replaced after each successful client
 * credentials request. The clock, the credentials and the token service's
 * answer are parameters.
 */
module OutlookAuth {
  import opened Wrappers

  /** Tokens within this many milliseconds of expiry are not reused. */
  const RefreshMarginMs: int := 60000
  /** The lifetime assumed when the token service gives no expiry. */
  const DefaultLifetimeMs: int := 3600000

  datatype CachedToken = CachedToken(token: string, expiresAt: int)

  /** What the client credentials request gave: a token ("" when the result has none) and its expiry, or an error. */
  datatype AcquireOutcome = Acquired(accessToken: string, expiresOn: Option<int>) | AcquireThrew(message: string)

  const MissingCredentials: string := "Missing OUTLOOK_CLIENT_ID or OUTLOOK_CLIENT_SECRET env vars"
  const NoAccessToken: string := "Failed to acquire access token from Azure AD"

  /** The reuse test. */
  predicate Fresh(cached: CachedToken, now: int)
  {
    cached.expiresAt > now + RefreshMarginMs
  }

  /** One call: the token or the error, the cache afterwards, and whether the token service was asked. */
  datatype TokenRun = TokenRun(result: Result<string, string>, entries: map<string, CachedToken>, acquired: bool)

  /** The reference definition of `getAccessToken`, at clock reading `now`. */
  function TokenStep(entries: map<string, CachedToken>, accountId: string, now: int,
                     clientId: string, clientSecret: string, acquire: AcquireOutcome): (r: TokenRun)
    ensures r.result.Ok? ==> accountId in r.entries && r.entries[accountId].token == r.result.value
    ensures forall k :: k != accountId ==> (k in r.entries <==> k in entries)
    ensures forall k :: k != accountId && k in entries ==> r.entries[k] == entries[k]
    ensures r.result.Err? ==> r.entries == entries
  {
    if accountId in entries && Fresh(entries[accountId], now) then
      TokenRun(Ok(entries[accountId].token), entries, false)
    else if clientId == "" || clientSecret == "" then
      TokenRun(Err(MissingCredentials), entries, false)
    else match acquire
      case AcquireThrew(message) => TokenRun(Err(message), entries, true)
      case Acquired(token, expiresOn) =>
        if token == "" then TokenRun(Err(NoAccessToken), entries, true)
        else
          var expiresAt := if expiresOn.Some? then expiresOn.value else now + DefaultLifetimeMs;
          TokenRun(Ok(token), entries[accountId := CachedToken(token, expiresAt)], true)
  }

  /** The module-level `tokenCache`. */
  class TokenCache {
    var entries: map<string, CachedToken>

    constructor ()
      ensures entries == map[]
    {
      entries := map[];
    }

    /** `getAccessToken` for the account `accountId`. */
    method GetAccessToken(accountId: string, now: int, clientId: string, clientSecret: string,
                          acquire: AcquireOutcome)
      returns (result: Result<string, string>, acquired: bool)
      modifies this
      ensures TokenRun(result, entries, acquired) == TokenStep(old(entries), accountId, now, clientId, clientSecret, acquire)
    {
      if accountId in entries {
        var cached := entries[accountId];
        if Fresh(cached, now) {
          return Ok(cached.token), false;
        }
      }
      if clientId == "" || clientSecret == "" {
        return Err(MissingCredentials), false;
      }
      acquired := true;
      if acquire.AcquireThrew? {
        return Err(acquire.message), acquired;
      }
      if acquire.accessToken == "" {
        return Err(NoAccessToken), acquired;
      }
      var expiresAt := if acquire.expiresOn.Some? then acquire.expiresOn.value else now + DefaultLifetimeMs;
      entries := entries[accountId := CachedToken(acquire.accessToken, expiresAt)];
      result := Ok(acquire.accessToken);
    }
  }

  // ---------------------------------------------------------------------

  /** The token service is asked exactly when there is no entry with more than a minute left and the credentials are set. */
  lemma AcquiresIffStale(entries: map<string, CachedToken>, accountId: string, now: int,
                         clientId: string, clientSecret: string, acquire: AcquireOutcome)
    ensures TokenStep(entries, accountId, now, clientId, clientSecret, acquire).acquired
            <==> !(accountId in entries && Fresh(entries[accountId], now)) && clientId != "" && clientSecret != ""
  {
  }

  /** A fresh entry is returned as it is and the cache is left alone. */
  lemma FreshEntryReused(entries: map<string, CachedToken>, accountId: string, now: int,
                         clientId: string, clientSecret: string, acquire: AcquireOutcome)
    requires accountId in entries && Fresh(entries[accountId], now)
    ensures TokenStep(entries, accountId, now, clientId, clientSecret, acquire)
            == TokenRun(Ok(entries[accountId].token), entries, false)
  {
  }

  /** After a successful request the account's entry holds the new token and its expiry, or an hour from now. */
  lemma AcquiredTokenStored(entries: map<string, CachedToken>, accountId: string, now: int,
                            clientId: string, clientSecret: string, token: string, expiresOn: Option<int>)
    requires !(accountId in entries && Fresh(entries[accountId], now))
    requires clientId != "" && clientSecret != "" && token != ""
    ensures var r := TokenStep(entries, accountId, now, clientId, clientSecret, Acquired(token, expiresOn));
            && r.result == Ok(token)
            && r.entries[accountId] == CachedToken(token, if expiresOn.Some? then expiresOn.value else now + DefaultLifetimeMs)
  {
  }

  /**
   * A token stored at `now` without an expiry serves every later call
   * before `now + 3540000` from the cache, and is replaced from then on.
   */
  lemma DefaultTokenWindow(entries: map<string, CachedToken>, accountId: string, now: int, later: int,
                             clientId: string, clientSecret: string, token: string, acquire: AcquireOutcome)
    requires !(accountId in entries && Fresh(entries[accountId], now))
    requires clientId != "" && clientSecret != "" && token != ""
    ensures var stored := TokenStep(entries, accountId, now, clientId, clientSecret, Acquired(token, None)).entries;
            var again := TokenStep(stored, accountId, later, clientId, clientSecret, acquire);
            && (later < now + DefaultLifetimeMs - RefreshMarginMs ==> again == TokenRun(Ok(token), stored, false))
            && (later >= now + DefaultLifetimeMs - RefreshMarginMs ==> again.acquired)
  {
    var stored := TokenStep(entries, accountId, now, clientId, clientSecret, Acquired(token, None)).entries;
    assert stored[accountId] == CachedToken(token, now + DefaultLifetimeMs);
  }
}
