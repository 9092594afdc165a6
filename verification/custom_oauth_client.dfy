/** The custom OAuth2 client: configuration checks and the static-key bypass,
    the refresh-token grant, the access-token entry point that goes through the
    shared token manager, and the device-authorization poll loop.

    HTTP responses are scripted inputs and the clock is a parameter. */
module CustomOAuth {
  import opened Common
  import opened TokenManager

  /** The custom-OAuth part of the configuration. */
  datatype CustomSettings = CustomSettings(
    authServerUrl: Option<string>,
    clientId: Option<string>,
    staticApiKey: Option<string>,
    scope: Option<string>)

  /** The constructor's static key: the configured key trimmed, and absent when
      that leaves nothing. */
  function StaticKeyOf(settings: CustomSettings): (key: Option<string>)
    ensures key.Some? <==> settings.staticApiKey.Some? && !IsBlank(settings.staticApiKey.value)
    ensures key.Some? ==> key.value == Trim(settings.staticApiKey.value) && key.value != ""
  {
    var trimmed := if Truthy(settings.staticApiKey) then Some(Trim(settings.staticApiKey.value)) else None;
    if Truthy(trimmed) then trimmed else None
  }

  /** The constructor's validation: with a static key anything goes; without
      one, authServerUrl and then clientId must be non-empty (they are not
      trimmed here). On success it yields the static key. */
  function CheckSettings(settings: CustomSettings): (r: Result<Option<string>, AuthError>)
    ensures r.Ok? ==> r.value == StaticKeyOf(settings)
    ensures r.Ok? <==> StaticKeyOf(settings).Some? || (Truthy(settings.authServerUrl) && Truthy(settings.clientId))
    ensures r == Err(MissingAuthServerUrl) <==> StaticKeyOf(settings).None? && !Truthy(settings.authServerUrl)
    ensures r == Err(MissingClientId) <==>
              StaticKeyOf(settings).None? && Truthy(settings.authServerUrl) && !Truthy(settings.clientId)
  {
    var key := StaticKeyOf(settings);
    if key.None? && !Truthy(settings.authServerUrl) then Err(MissingAuthServerUrl)
    else if key.None? && !Truthy(settings.clientId) then Err(MissingClientId)
    else Ok(key)
  }

  /** The fields of a successful token-endpoint response. */
  datatype TokenGrant = TokenGrant(accessToken: Option<string>, refreshToken: Option<string>, expiresIn: int)

  /** The token endpoint's answer to a refresh-token grant. */
  datatype RefreshResponse = RefreshOk(grant: TokenGrant) | RefreshRejected(status: nat)

  /** refreshAccessToken, given the credential the client holds. In static mode
      it is the key alone, without refresh token or expiry; otherwise it needs a
      refresh token, fails on a non-ok status, and on success expires
      `expiresIn` seconds from now and keeps the previous refresh token when the
      server sends none. */
  function RefreshGrant(staticKey: Option<string>, current: TokenCredentials,
                        response: RefreshResponse, now: int): (r: Result<TokenCredentials, AuthError>)
    ensures staticKey.Some? ==> r == Ok(TokenCredentials(staticKey, None, None))
    ensures staticKey.None? ==>
              (r == Err(ClientHasNoRefreshToken) <==> !Truthy(current.refreshToken))
    ensures staticKey.None? && Truthy(current.refreshToken) ==>
              (r.Err? <==> response.RefreshRejected?)
              && (response.RefreshRejected? ==> r.error == TokenRefreshFailed(response.status))
    ensures staticKey.None? && r.Ok? ==>
              && r.value.accessToken == response.grant.accessToken
              && r.value.expiryDate == Some(now + response.grant.expiresIn * 1000)
              && r.value.refreshToken == (if response.grant.refreshToken.None? then current.refreshToken
                                          else response.grant.refreshToken)
  {
    if staticKey.Some? then Ok(TokenCredentials(staticKey, None, None))
    else if !Truthy(current.refreshToken) then Err(ClientHasNoRefreshToken)
    else match response
      case RefreshRejected(status) => Err(TokenRefreshFailed(status))
      case RefreshOk(grant) =>
        var kept := if grant.refreshToken.Some? then grant.refreshToken else current.refreshToken;
        Ok(TokenCredentials(grant.accessToken, kept, Some(now + grant.expiresIn * 1000)))
  }

  /** The client's refresh capability as the shared manager uses it. */
  function RefreshWith(staticKey: Option<string>, response: RefreshResponse, now: int)
    : TokenCredentials -> Result<TokenCredentials, AuthError>
  {
    c => RefreshGrant(staticKey, c, response, now)
  }

  /** A refreshed credential that carries an access token and lives longer than
      the expiry margin is used as it is by an unforced call of the manager at
      any time `t` up to the expiry margin before its expiry, and from then on is
      refreshed again. */
  lemma RefreshedCredentialIsUsable(current: TokenCredentials, response: RefreshResponse, now: int, t: int)
    requires now >= 0
    requires RefreshGrant(None, current, response, now).Ok?
    requires Truthy(response.grant.accessToken) && response.grant.expiresIn * 1000 > ExpiryMarginMs
    ensures NeedsRefresh(RefreshGrant(None, current, response, now).value, false, t)
            <==> now + response.grant.expiresIn * 1000 <= t + ExpiryMarginMs
  {
  }

  /** A refreshed credential can itself be refreshed later, unless the server
      sent an empty refresh token (which `??` keeps). */
  lemma RefreshedCredentialIsRenewable(current: TokenCredentials, response: RefreshResponse, now: int)
    requires RefreshGrant(None, current, response, now).Ok?
    ensures Truthy(RefreshGrant(None, current, response, now).value.refreshToken)
            <==> response.grant.refreshToken != Some("")
  {
  }

  /** A static-key credential could never pass through the manager: it is
      always expired and cannot be renewed. This is why static mode bypasses it. */
  lemma StaticCredentialRejectedByManager(key: string, current: TokenCredentials, response: RefreshResponse,
                                          now: int, client: TokenCredentials, io: StoreIo,
                                          refresh: TokenCredentials -> Result<TokenCredentials, AuthError>)
    requires io.lockGranted
    ensures var c := RefreshGrant(Some(key), current, response, now).value;
            GetValidRun(Written(c), client, false, now, io, refresh).result == Err(NoRefreshTokenAvailable)
  {
  }

  /** Through the manager, the client is only ever asked to refresh a credential
      that has a refresh token, so the client's own "no refresh token" error
      never surfaces. */
  lemma ManagerNeverTriggersClientCheck(file: CredentialFile, client: TokenCredentials, forceRefresh: bool,
                                        now: int, io: StoreIo, response: RefreshResponse)
    ensures GetValidRun(file, client, forceRefresh, now, io, RefreshWith(None, response, now)).result
            != Err(ClientHasNoRefreshToken)
  {
    var refresh := RefreshWith(None, response, now);
    if io.lockGranted && ReadOutcome(file).Ok? {
      var current := if file.Json? then file.credentials else client;
      if NeedsRefresh(current, forceRefresh, now) && Truthy(current.refreshToken) {
        assert refresh(current) == RefreshGrant(None, current, response, now);
        RefreshIsPersistedAndAdopted(file, client, forceRefresh, now, io, refresh);
      }
    }
  }

  /** What getAccessToken makes of the manager's result: its access token, or
      an error when there is none. */
  function AccessTokenOf(result: Result<TokenCredentials, AuthError>): (r: Result<string, AuthError>)
    ensures r.Ok? <==> result.Ok? && Truthy(result.value.accessToken)
    ensures r.Ok? ==> Some(r.value) == result.value.accessToken
    ensures result.Err? ==> r == Err(result.error)
    ensures result.Ok? && !Truthy(result.value.accessToken) ==> r == Err(NoAccessToken)
  {
    match result
    case Err(e) => Err(e)
    case Ok(c) => if Truthy(c.accessToken) then Ok(c.accessToken.value) else Err(NoAccessToken)
  }

  /** The device-code endpoint's answer; a successful body is passed on unread. */
  datatype DeviceCodeResponse = DeviceCodeOk(body: string) | DeviceCodeRejected(status: nat)

  /** The token endpoint's answer to one device-code poll. */
  datatype PollResponse = PollOk(grant: TokenGrant) | PollError(error: string, description: Option<string>)

  /** One turn of the poll loop: whether the abort signal is set when the turn
      starts, the clock when the answer arrives, the answer, and whether the
      signal is set once an error answer has been read. */
  datatype PollRound = PollRound(abortedBefore: bool, now: int, response: PollResponse, abortedAfter: bool)

  /** How the loop ends for a script of rounds: a credential to persist, an
      error, or the script runs out while the loop would keep polling. */
  datatype PollEnd = Granted(credentials: TokenCredentials) | Stopped(error: AuthError) | Exhausted

  datatype PollTrace = PollTrace(end: PollEnd, requests: nat)

  /** The error codes that mean "keep polling" (section 3.5 of RFC 8628). */
  predicate KeepPolling(error: string)
  {
    error == "authorization_pending" || error == "slow_down"
  }

  /** The text of a polling failure: the description, or the error code when the
      description is missing or empty. */
  function FailureDetail(error: string, description: Option<string>): string
  {
    if Truthy(description) then description.value else error
  }

  /** The credential a successful poll yields. */
  function DeviceCredentials(grant: TokenGrant, now: int): TokenCredentials
  {
    TokenCredentials(grant.accessToken, grant.refreshToken, Some(now + grant.expiresIn * 1000))
  }

  /** The poll loop over a script of rounds; `requests` counts the token
      requests sent, which is never more than the rounds scripted. */
  function PollSpec(rounds: seq<PollRound>): (trace: PollTrace)
    ensures trace.requests <= |rounds|
    ensures trace.end.Exhausted? ==> trace.requests == |rounds|
  {
    if rounds == [] then PollTrace(Exhausted, 0)
    else
      var round := rounds[0];
      if round.abortedBefore then PollTrace(Stopped(DeviceAuthorizationCancelled), 0)
      else match round.response
        case PollOk(grant) => PollTrace(Granted(DeviceCredentials(grant, round.now)), 1)
        case PollError(error, description) =>
          if round.abortedAfter then PollTrace(Stopped(DeviceAuthorizationCancelled), 1)
          else if KeepPolling(error) then
            var rest := PollSpec(rounds[1..]);
            PollTrace(rest.end, rest.requests + 1)
          else PollTrace(Stopped(TokenPollingFailed(FailureDetail(error, description))), 1)
  }

  /** A round after which the loop polls again. */
  predicate PendingRound(round: PollRound)
  {
    !round.abortedBefore && round.response.PollError? && !round.abortedAfter && KeepPolling(round.response.error)
  }

  /** Pending rounds only add one request each to what follows them. */
  lemma {:induction false} PollAfterPending(pending: seq<PollRound>, rest: seq<PollRound>)
    requires forall k :: 0 <= k < |pending| ==> PendingRound(pending[k])
    ensures PollSpec(pending + rest).end == PollSpec(rest).end
    ensures PollSpec(pending + rest).requests == |pending| + PollSpec(rest).requests
  {
    if pending == [] {
      assert pending + rest == rest;
    } else {
      assert (pending + rest)[0] == pending[0];
      assert (pending + rest)[1..] == pending[1..] + rest;
      PollAfterPending(pending[1..], rest);
    }
  }

  /** N pending answers followed by a success: exactly N + 1 requests, and the
      credential comes from the last answer. */
  lemma PendingThenGranted(pending: seq<PollRound>, last: PollRound, rest: seq<PollRound>)
    requires forall k :: 0 <= k < |pending| ==> PendingRound(pending[k])
    requires !last.abortedBefore && last.response.PollOk?
    ensures PollSpec(pending + [last] + rest)
            == PollTrace(Granted(DeviceCredentials(last.response.grant, last.now)), |pending| + 1)
  {
    assert pending + [last] + rest == pending + ([last] + rest);
    PollAfterPending(pending, [last] + rest);
  }

  /** An abort seen before a request ends the loop as cancelled, and no request
      is sent in that round or after it. */
  lemma CancelledBeforeRequest(pending: seq<PollRound>, cancelled: PollRound, rest: seq<PollRound>)
    requires forall k :: 0 <= k < |pending| ==> PendingRound(pending[k])
    requires cancelled.abortedBefore
    ensures PollSpec(pending + [cancelled] + rest) == PollTrace(Stopped(DeviceAuthorizationCancelled), |pending|)
  {
    assert pending + [cancelled] + rest == pending + ([cancelled] + rest);
    PollAfterPending(pending, [cancelled] + rest);
  }

  /** An abort seen after an error answer ends the loop as cancelled, whatever
      the error was, after that round's one request. */
  lemma CancelledAfterError(pending: seq<PollRound>, round: PollRound, rest: seq<PollRound>)
    requires forall k :: 0 <= k < |pending| ==> PendingRound(pending[k])
    requires !round.abortedBefore && round.response.PollError? && round.abortedAfter
    ensures PollSpec(pending + [round] + rest) == PollTrace(Stopped(DeviceAuthorizationCancelled), |pending| + 1)
  {
    assert pending + [round] + rest == pending + ([round] + rest);
    PollAfterPending(pending, [round] + rest);
  }

  /** Any other error code ends the loop with the server's description, or its
      error code when there is no description. */
  lemma UnexpectedErrorFails(pending: seq<PollRound>, round: PollRound, rest: seq<PollRound>)
    requires forall k :: 0 <= k < |pending| ==> PendingRound(pending[k])
    requires !round.abortedBefore && !round.abortedAfter
    requires round.response.PollError? && !KeepPolling(round.response.error)
    ensures var detail := if Truthy(round.response.description) then round.response.description.value
                          else round.response.error;
            PollSpec(pending + [round] + rest) == PollTrace(Stopped(TokenPollingFailed(detail)), |pending| + 1)
  {
    assert pending + [round] + rest == pending + ([round] + rest);
    PollAfterPending(pending, [round] + rest);
  }

  /** How pollDeviceToken returns: authorized, by throwing, or still polling
      when the script runs out. */
  datatype PollOutcome = Authorized | PollThrew(error: AuthError) | StillPolling

  /** The credential a new client starts with: `{}`. */
  const NoCredentials := TokenCredentials(None, None, None)

  class CustomOAuth2Client {
    var credentials: TokenCredentials
    const settings: CustomSettings
    const staticApiKey: Option<string>
    var hasLoggedStaticApiKeyUsage: bool
    /** How often the static-key notice has been printed. */
    ghost var staticKeyNotices: nat
    const sharedManager: SharedTokenManager

    ghost predicate Valid()
      reads this
    {
      && CheckSettings(settings) == Ok(staticApiKey)
      && staticKeyNotices == (if hasLoggedStaticApiKeyUsage then 1 else 0)
    }

    constructor (settings: CustomSettings, store: CredentialStore)
      requires CheckSettings(settings).Ok?
      ensures Valid() && fresh(sharedManager) && sharedManager.store == store
      ensures this.settings == settings && staticApiKey == StaticKeyOf(settings)
      ensures credentials == NoCredentials && !hasLoggedStaticApiKeyUsage
    {
      this.settings := settings;
      staticApiKey := StaticKeyOf(settings);
      credentials := NoCredentials;
      hasLoggedStaticApiKeyUsage := false;
      staticKeyNotices := 0;
      sharedManager := new SharedTokenManager(store);
    }

    /** The constructor as the source has it: validate the configuration, throw
      on a missing authServerUrl or clientId, otherwise build a client whose
      manager guards the given credential store. */
    static method Create(settings: CustomSettings, store: CredentialStore)
      returns (r: Result<CustomOAuth2Client, AuthError>)
      ensures r.Err? <==> CheckSettings(settings).Err?
      ensures r.Err? ==> r.error == CheckSettings(settings).error
      ensures r.Ok? ==> && fresh(r.value) && r.value.Valid()
                        && r.value.settings == settings && r.value.sharedManager.store == store
                        && r.value.staticApiKey == StaticKeyOf(settings)
                        && r.value.credentials == NoCredentials && !r.value.hasLoggedStaticApiKeyUsage
    {
      var checked := CheckSettings(settings);
      if checked.Err? {
        return Err(checked.error);
      }
      var client := new CustomOAuth2Client(settings, store);
      r := Ok(client);
    }

    method GetCredentials() returns (c: TokenCredentials)
      ensures c == credentials
    {
      c := credentials;
    }

    method SetCredentials(c: TokenCredentials)
      requires Valid()
      modifies this
      ensures Valid() && credentials == c
      ensures hasLoggedStaticApiKeyUsage == old(hasLoggedStaticApiKeyUsage)
      ensures staticKeyNotices == old(staticKeyNotices)
    {
      credentials := c;
    }

    method RefreshAccessToken(response: RefreshResponse, now: int) returns (r: Result<TokenCredentials, AuthError>)
      ensures r == RefreshGrant(staticApiKey, credentials, response, now)
    {
      r := RefreshGrant(staticApiKey, credentials, response, now);
    }

    /** getAccessToken. In static mode: the key, the notice printed on the first
      use only, and neither the store nor the in-memory credential touched.
      Otherwise: the manager's run with this client's refresh, the client
      holding whatever the manager last gave it, and the access token of the
      result (an error when it has none). */
    method GetAccessToken(forceRefresh: bool, now: int, io: StoreIo, response: RefreshResponse)
      returns (r: Result<string, AuthError>)
      requires Valid() && !sharedManager.store.locked
      modifies this, sharedManager.store
      ensures Valid() && !sharedManager.store.locked
      ensures staticApiKey.Some? ==>
                && r == Ok(staticApiKey.value)
                && hasLoggedStaticApiKeyUsage && staticKeyNotices == 1
                && credentials == old(credentials)
                && sharedManager.store.file == old(sharedManager.store.file)
      ensures staticApiKey.None? ==>
                var run := GetValidRun(old(sharedManager.store.file), old(credentials), forceRefresh, now, io,
                                       RefreshWith(None, response, now));
                && r == AccessTokenOf(run.result)
                && credentials == run.client
                && sharedManager.store.file == run.file
                && hasLoggedStaticApiKeyUsage == old(hasLoggedStaticApiKeyUsage)
                && staticKeyNotices == old(staticKeyNotices)
    {
      if staticApiKey.Some? {
        if !hasLoggedStaticApiKeyUsage {
          staticKeyNotices := staticKeyNotices + 1;
          hasLoggedStaticApiKeyUsage := true;
        }
        return Ok(staticApiKey.value);
      }
      var result, client, _ := sharedManager.GetValidCredentials(credentials, forceRefresh, now, io,
                                                                  RefreshWith(None, response, now));
      credentials := client;
      if result.Err? {
        return Err(result.error);
      }
      if !Truthy(result.value.accessToken) {
        return Err(NoAccessToken);
      }
      r := Ok(result.value.accessToken.value);
    }

    /** requestDeviceAuthorization: a non-ok status fails with that status, a
      successful body is handed back unread. */
    method RequestDeviceAuthorization(response: DeviceCodeResponse) returns (r: Result<string, AuthError>)
      ensures response.DeviceCodeRejected? ==> r == Err(DeviceAuthorizationFailed(response.status))
      ensures response.DeviceCodeOk? ==> r == Ok(response.body)
    {
      if response.DeviceCodeRejected? {
        return Err(DeviceAuthorizationFailed(response.status));
      }
      r := Ok(response.body);
    }

    /** The end of a successful poll: save the credential through the manager,
      and only once that succeeded adopt it in memory. */
    method SaveThenAdopt(c: TokenCredentials, io: StoreIo) returns (outcome: PollOutcome)
      requires Valid() && !sharedManager.store.locked
      modifies this, sharedManager.store
      ensures Valid() && !sharedManager.store.locked
      ensures hasLoggedStaticApiKeyUsage == old(hasLoggedStaticApiKeyUsage)
      ensures var save := SaveRun(old(sharedManager.store.file), c, io);
              && sharedManager.store.file == save.file
              && (save.result.Ok? ==> outcome == Authorized && credentials == c)
              && (save.result.Err? ==> outcome == PollThrew(save.result.error) && credentials == old(credentials))
    {
      var saved, _ := sharedManager.SaveCredentials(c, io);
      if saved.Err? {
        return PollThrew(saved.error);
      }
      SetCredentials(c);
      outcome := Authorized;
    }

    /** pollDeviceToken over a script of rounds: as many requests as PollSpec
      says; a granted credential is saved through the manager first and only
      adopted in memory once the save succeeded. */
    method PollDeviceToken(rounds: seq<PollRound>, io: StoreIo) returns (outcome: PollOutcome, requests: nat)
      requires Valid() && !sharedManager.store.locked
      modifies this, sharedManager.store
      ensures Valid() && !sharedManager.store.locked
      ensures hasLoggedStaticApiKeyUsage == old(hasLoggedStaticApiKeyUsage)
      ensures requests == PollSpec(rounds).requests
      ensures PollSpec(rounds).end.Granted? ==>
                var c := PollSpec(rounds).end.credentials;
                var save := SaveRun(old(sharedManager.store.file), c, io);
                && sharedManager.store.file == save.file
                && (save.result.Ok? ==> outcome == Authorized && credentials == c)
                && (save.result.Err? ==> outcome == PollThrew(save.result.error) && credentials == old(credentials))
      ensures PollSpec(rounds).end.Stopped? ==>
                && outcome == PollThrew(PollSpec(rounds).end.error)
                && credentials == old(credentials)
                && sharedManager.store.file == old(sharedManager.store.file)
      ensures PollSpec(rounds).end.Exhausted? ==>
                && outcome == StillPolling
                && credentials == old(credentials)
                && sharedManager.store.file == old(sharedManager.store.file)
    {
      var i := 0;
      requests := 0;
      while i < |rounds|
        invariant 0 <= i <= |rounds|
        invariant requests == i
        invariant forall k :: 0 <= k < i ==> PendingRound(rounds[k])
        invariant PollSpec(rounds).end == PollSpec(rounds[i..]).end
        invariant PollSpec(rounds).requests == i + PollSpec(rounds[i..]).requests
        decreases |rounds| - i
      {
        var round := rounds[i];
        assert rounds[i..][0] == round;
        if round.abortedBefore {
          return PollThrew(DeviceAuthorizationCancelled), requests;
        }
        requests := requests + 1;
        match round.response {
          case PollOk(grant) =>
            outcome := SaveThenAdopt(DeviceCredentials(grant, round.now), io);
            return outcome, requests;
          case PollError(error, description) =>
            if round.abortedAfter {
              return PollThrew(DeviceAuthorizationCancelled), requests;
            }
            if !KeepPolling(error) {
              return PollThrew(TokenPollingFailed(FailureDetail(error, description))), requests;
            }
        }
        assert rounds[i..][1..] == rounds[i + 1..];
        i := i + 1;
      }
      assert rounds[i..] == [];
      outcome := StillPolling;
    }
  }
}
