/** The shared token manager: a credential file guarded by a file lock, and the
    "read, decide, refresh, write" sequence run while the lock is held.

    The manager's client (getCredentials / setCredentials / refreshAccessToken)
    is passed as values: the credential the client holds in memory, and the
    refresh it performs once a credential has been pushed into it. Each run
    returns the credential the client holds afterwards. */
module TokenManager {
  import opened Common

  /** A credential as it is stored and shared; each field may be absent. The
      credential file spells the fields access_token, refresh_token and
      expiry_date (milliseconds since the epoch). */
  datatype TokenCredentials = TokenCredentials(
    accessToken: Option<string>,
    refreshToken: Option<string>,
    expiryDate: Option<int>)

  /** Tokens are treated as expired this many milliseconds before their expiry date. */
  const ExpiryMarginMs: int := 60 * 1000

  /** isTokenExpired: a credential with no expiry date (absent or 0) is expired;
      otherwise it is expired from `ExpiryMarginMs` before its expiry date on. */
  function IsTokenExpired(c: TokenCredentials, now: int): (expired: bool)
    ensures c.expiryDate.None? || c.expiryDate == Some(0) ==> expired
    ensures c.expiryDate.Some? && c.expiryDate.value != 0 ==>
              (expired <==> c.expiryDate.value <= now + ExpiryMarginMs)
  {
    if c.expiryDate.None? || c.expiryDate.value == 0 then true
    else now >= c.expiryDate.value - ExpiryMarginMs
  }

  /** Once expired, a credential stays expired as time goes on. */
  lemma ExpiryIsMonotonic(c: TokenCredentials, t1: int, t2: int)
    requires t1 <= t2 && IsTokenExpired(c, t1)
    ensures IsTokenExpired(c, t2)
  {
  }

  /** The state of the credential file as the manager's read sees it. */
  datatype CredentialFile =
    | ReadFails(code: string)            // reading fails with this error code
    | NotJson(text: string)              // text that JSON.parse rejects (the empty text among them)
    | Json(credentials: TokenCredentials) // text that parses to this credential

  /** The error code of a file that does not exist. */
  const ENOENT := "ENOENT"

  /** readCredentials: an empty, whitespace-only or missing file reads as absent,
      a file that is not JSON or cannot be read for another reason is an error,
      and a JSON file yields the credential it holds. */
  function ReadOutcome(file: CredentialFile): (r: Result<Option<TokenCredentials>, AuthError>)
    ensures r == Ok(None) <==> file == ReadFails(ENOENT) || (file.NotJson? && IsBlank(file.text))
    ensures r.Err? <==> (file.ReadFails? && file.code != ENOENT) || (file.NotJson? && !IsBlank(file.text))
    ensures r.Ok? && r.value.Some? <==> file.Json?
    ensures file.Json? ==> r == Ok(Some(file.credentials))
  {
    match file
    case ReadFails(code) => if code == ENOENT then Ok(None) else Err(StoreReadFailed(code))
    case NotJson(text) => if IsBlank(text) then Ok(None) else Err(StoreCorrupt)
    case Json(c) => Ok(Some(c))
  }

  /** What writeCredentials leaves in the file: the credential serialised anew. */
  function Written(c: TokenCredentials): (file: CredentialFile)
    ensures ReadOutcome(file) == Ok(Some(c))
  {
    Json(c)
  }

  /** The interactions of one call, in the order they happen. */
  datatype Call =
    | LockAcquired
    | LockReleased
    | StoreRead
    | StoreWrite(credentials: TokenCredentials)      // an attempted write
    | ClientGet                                      // client.getCredentials()
    | ClientSet(credentials: TokenCredentials)       // client.setCredentials(...)
    | ClientRefresh(given: TokenCredentials)         // client.refreshAccessToken(), the client holding `given`

  /** Whether acquiring the lock succeeds within its retry budget and whether
      the write to the credential file succeeds. */
  datatype StoreIo = StoreIo(lockGranted: bool, writeSucceeds: bool)

  /** What one call of the manager does: its result (return or throw), the
      credential file afterwards, the credential the client holds afterwards,
      and the interactions in order. */
  datatype Run = Run(
    result: Result<TokenCredentials, AuthError>,
    file: CredentialFile,
    client: TokenCredentials,
    calls: seq<Call>)

  /** What one saveCredentials call does: it returns nothing or throws, and
      leaves the credential file and the interactions in order. */
  datatype SaveTrace = SaveTrace(
    result: Result<(), AuthError>,
    file: CredentialFile,
    calls: seq<Call>)

  /** A refresh is needed when forced, when there is no access token, or when
      the credential is expired. */
  predicate NeedsRefresh(c: TokenCredentials, forceRefresh: bool, now: int)
  {
    forceRefresh || !Truthy(c.accessToken) || IsTokenExpired(c, now)
  }

  /** The interactions that establish the starting credential: the store is
      read, and the client is asked for its own credential only when the store
      has none. */
  function Consulted(file: CredentialFile): seq<Call>
  {
    if file.Json? then [StoreRead] else [StoreRead, ClientGet]
  }

  /** The try block of getValidCredentials: everything that happens while the
      lock is held. */
  function LockedRun(file: CredentialFile, client: TokenCredentials, forceRefresh: bool, now: int,
                     writeSucceeds: bool, refresh: TokenCredentials -> Result<TokenCredentials, AuthError>): Run
  {
    match ReadOutcome(file)
    case Err(e) => Run(Err(e), file, client, [StoreRead])
    case Ok(stored) =>
      var current := if stored.Some? then stored.value else client;
      var decided := Decide(file, client, current, forceRefresh, now, writeSucceeds, refresh);
      decided.(calls := Consulted(file) + decided.calls)
  }

  /** The rest of the try block once the starting credential `current` is
      known: return it, throw, or refresh, write and adopt. The interactions
      are those after the store (and the client) were consulted. */
  function Decide(file: CredentialFile, client: TokenCredentials, current: TokenCredentials, forceRefresh: bool,
                  now: int, writeSucceeds: bool, refresh: TokenCredentials -> Result<TokenCredentials, AuthError>): Run
  {
    if !NeedsRefresh(current, forceRefresh, now) then
      Run(Ok(current), file, current, [ClientSet(current)])
    else if !Truthy(current.refreshToken) then
      Run(Err(NoRefreshTokenAvailable), file, client, [])
    else
      var asked := [ClientSet(current), ClientRefresh(current)];
      match refresh(current)
      case Err(e) => Run(Err(e), file, current, asked)
      case Ok(renewed) =>
        if !writeSucceeds then
          Run(Err(StoreWriteFailed), file, current, asked + [StoreWrite(renewed)])
        else
          Run(Ok(renewed), Written(renewed), renewed, asked + [StoreWrite(renewed), ClientSet(renewed)])
  }

  /** getValidCredentials: acquire the lock, run the try block, release the lock
      in the finally block. A lock that cannot be acquired leaves everything as
      it was. */
  function GetValidRun(file: CredentialFile, client: TokenCredentials, forceRefresh: bool, now: int,
                       io: StoreIo, refresh: TokenCredentials -> Result<TokenCredentials, AuthError>): Run
  {
    if !io.lockGranted then Run(Err(LockNotAcquired), file, client, [])
    else
      var inner := LockedRun(file, client, forceRefresh, now, io.writeSucceeds, refresh);
      inner.(calls := [LockAcquired] + inner.calls + [LockReleased])
  }

  /** saveCredentials: acquire the lock, write, release. */
  function SaveRun(file: CredentialFile, c: TokenCredentials, io: StoreIo): SaveTrace
  {
    if !io.lockGranted then SaveTrace(Err(LockNotAcquired), file, [])
    else if !io.writeSucceeds then SaveTrace(Err(StoreWriteFailed), file, [LockAcquired, StoreWrite(c), LockReleased])
    else SaveTrace(Ok(()), Written(c), [LockAcquired, StoreWrite(c), LockReleased])
  }

  /** The lock discipline of a call: nothing happens when the lock is not
      acquired; otherwise the call begins by acquiring it, ends by releasing it,
      and touches the lock nowhere in between, so it is released exactly once. */
  predicate Bracketed(calls: seq<Call>, lockGranted: bool)
  {
    if !lockGranted then calls == []
    else
      && |calls| >= 2
      && calls[0] == LockAcquired
      && calls[|calls| - 1] == LockReleased
      && LockFree(calls[1..|calls| - 1])
  }

  /** Interactions that neither acquire nor release the lock. */
  predicate LockFree(calls: seq<Call>)
  {
    forall k :: 0 <= k < |calls| ==> calls[k] != LockAcquired && calls[k] != LockReleased
  }

  /** Wrapping lock-free interactions in an acquire and a release brackets them. */
  lemma BracketAround(inner: seq<Call>)
    requires LockFree(inner)
    ensures Bracketed([LockAcquired] + inner + [LockReleased], true)
  {
    var calls := [LockAcquired] + inner + [LockReleased];
    assert calls[1..|calls| - 1] == inner;
  }

  /** Number of occurrences of `e` in `calls`. */
  function Count(calls: seq<Call>, e: Call): nat
  {
    if calls == [] then 0 else (if calls[0] == e then 1 else 0) + Count(calls[1..], e)
  }

  lemma {:induction false} CountAppend(a: seq<Call>, b: seq<Call>, e: Call)
    ensures Count(a + b, e) == Count(a, e) + Count(b, e)
  {
    if a == [] {
      assert a + b == b;
    } else {
      assert (a + b)[1..] == a[1..] + b;
      CountAppend(a[1..], b, e);
    }
  }

  /** A call that never mentions `e` counts it zero times. */
  lemma {:induction false} CountAbsent(calls: seq<Call>, e: Call)
    requires forall k :: 0 <= k < |calls| ==> calls[k] != e
    ensures Count(calls, e) == 0
  {
    if calls != [] {
      CountAbsent(calls[1..], e);
    }
  }

  /** A bracketed call acquires and releases the lock exactly once each. */
  lemma BracketedReleasesOnce(calls: seq<Call>)
    requires Bracketed(calls, true)
    ensures Count(calls, LockAcquired) == 1 && Count(calls, LockReleased) == 1
  {
    var middle := calls[1..|calls| - 1];
    assert calls == [LockAcquired] + middle + [LockReleased];
    CountAbsent(middle, LockAcquired);
    CountAbsent(middle, LockReleased);
    CountAppend([LockAcquired] + middle, [LockReleased], LockAcquired);
    CountAppend([LockAcquired] + middle, [LockReleased], LockReleased);
    CountAppend([LockAcquired], middle, LockAcquired);
    CountAppend([LockAcquired], middle, LockReleased);
  }

  /** The try block never acquires or releases the lock itself. */
  lemma LockedRunShape(file: CredentialFile, client: TokenCredentials, forceRefresh: bool, now: int,
                       writeSucceeds: bool, refresh: TokenCredentials -> Result<TokenCredentials, AuthError>)
    ensures LockFree(LockedRun(file, client, forceRefresh, now, writeSucceeds, refresh).calls)
    ensures var run := LockedRun(file, client, forceRefresh, now, writeSucceeds, refresh);
            ReadOutcome(file).Ok? ==> |Consulted(file)| <= |run.calls| && run.calls[..|Consulted(file)|] == Consulted(file)
  {
    if ReadOutcome(file).Ok? {
      var current := if file.Json? then file.credentials else client;
      assert ReadOutcome(file) == Ok(if file.Json? then Some(file.credentials) else None);
      var consulted := Consulted(file);
      var decided := Decide(file, client, current, forceRefresh, now, writeSucceeds, refresh);
      var calls := consulted + decided.calls;
      assert calls[..|consulted|] == consulted;
      DecideIsLockFree(file, client, current, forceRefresh, now, writeSucceeds, refresh);
      LockFreeAppend(consulted, decided.calls);
    }
  }

  lemma DecideIsLockFree(file: CredentialFile, client: TokenCredentials, current: TokenCredentials, forceRefresh: bool,
                         now: int, writeSucceeds: bool, refresh: TokenCredentials -> Result<TokenCredentials, AuthError>)
    ensures LockFree(Decide(file, client, current, forceRefresh, now, writeSucceeds, refresh).calls)
  {
  }

  lemma LockFreeAppend(a: seq<Call>, b: seq<Call>)
    requires LockFree(a) && LockFree(b)
    ensures LockFree(a + b)
  {
    forall k | 0 <= k < |a + b|
      ensures (a + b)[k] != LockAcquired && (a + b)[k] != LockReleased
    {
      if k >= |a| { assert (a + b)[k] == b[k - |a|]; }
    }
  }

  /** getValidCredentials releases the lock exactly once on every exit path,
      and the same holds of saveCredentials. */
  lemma ReleasedOnEveryPath(file: CredentialFile, client: TokenCredentials, forceRefresh: bool, now: int,
                            io: StoreIo, refresh: TokenCredentials -> Result<TokenCredentials, AuthError>, c: TokenCredentials)
    ensures Bracketed(GetValidRun(file, client, forceRefresh, now, io, refresh).calls, io.lockGranted)
    ensures Bracketed(SaveRun(file, c, io).calls, io.lockGranted)
  {
    if io.lockGranted {
      LockedRunShape(file, client, forceRefresh, now, io.writeSucceeds, refresh);
      BracketAround(LockedRun(file, client, forceRefresh, now, io.writeSucceeds, refresh).calls);
      BracketAround([StoreWrite(c)]);
    }
  }
  /** Both operations release the lock exactly once whenever they acquired it,
      and touch it not at all otherwise. */
  lemma ReleasedExactlyOnce(file: CredentialFile, client: TokenCredentials, forceRefresh: bool, now: int,
                            io: StoreIo, refresh: TokenCredentials -> Result<TokenCredentials, AuthError>, c: TokenCredentials)
    ensures var calls := GetValidRun(file, client, forceRefresh, now, io, refresh).calls;
            if io.lockGranted then Count(calls, LockAcquired) == 1 && Count(calls, LockReleased) == 1 else calls == []
    ensures var calls := SaveRun(file, c, io).calls;
            if io.lockGranted then Count(calls, LockAcquired) == 1 && Count(calls, LockReleased) == 1 else calls == []
  {
    ReleasedOnEveryPath(file, client, forceRefresh, now, io, refresh, c);
    if io.lockGranted {
      BracketedReleasesOnce(GetValidRun(file, client, forceRefresh, now, io, refresh).calls);
      BracketedReleasesOnce(SaveRun(file, c, io).calls);
    }
  }

  /** Whenever getValidCredentials returns a credential, the client holds
      exactly that credential afterwards. */
  lemma ClientHoldsResult(file: CredentialFile, client: TokenCredentials, forceRefresh: bool, now: int,
                          io: StoreIo, refresh: TokenCredentials -> Result<TokenCredentials, AuthError>)
    ensures var run := GetValidRun(file, client, forceRefresh, now, io, refresh);
            run.result.Ok? ==> run.client == run.result.value
  {
    if io.lockGranted && ReadOutcome(file).Ok? {
      var current := if file.Json? then file.credentials else client;
      if NeedsRefresh(current, forceRefresh, now) && Truthy(current.refreshToken) {
        RefreshIsPersistedAndAdopted(file, client, forceRefresh, now, io, refresh);
      }
    }
  }

  /** The credential the manager starts from: the stored one when the store
      holds one, the client's in-memory one when the store reads as absent. */
  lemma StoredCredentialWins(file: CredentialFile, client1: TokenCredentials, client2: TokenCredentials,
                             forceRefresh: bool, now: int, io: StoreIo,
                             refresh: TokenCredentials -> Result<TokenCredentials, AuthError>)
    requires file.Json?
    ensures var r1 := GetValidRun(file, client1, forceRefresh, now, io, refresh);
            var r2 := GetValidRun(file, client2, forceRefresh, now, io, refresh);
            io.lockGranted ==> r1.result == r2.result && r1.file == r2.file && ClientGet !in r1.calls
  {
    var inner := LockedRun(file, client1, forceRefresh, now, io.writeSucceeds, refresh);
    LockedRunShape(file, client1, forceRefresh, now, io.writeSucceeds, refresh);
    if io.lockGranted {
      var calls := [LockAcquired] + inner.calls + [LockReleased];
      assert forall k :: 0 <= k < |inner.calls| ==> inner.calls[k] != ClientGet;
      assert forall k :: 0 <= k < |calls| ==> calls[k] != ClientGet by {
        forall k | 0 <= k < |calls| ensures calls[k] != ClientGet {
          if 0 < k < |calls| - 1 { assert calls[k] == inner.calls[k - 1]; }
        }
      }
    }
  }

  /** When the store reads as absent, the run is the one the client's own
      credential would give if it had been stored. */
  lemma AbsentStoreUsesClient(file: CredentialFile, client: TokenCredentials, forceRefresh: bool, now: int,
                              io: StoreIo, refresh: TokenCredentials -> Result<TokenCredentials, AuthError>)
    requires ReadOutcome(file) == Ok(None)
    ensures var absent := GetValidRun(file, client, forceRefresh, now, io, refresh);
            var stored := GetValidRun(Json(client), client, forceRefresh, now, io, refresh);
            absent.result == stored.result && absent.client == stored.client
            && (io.lockGranted ==> ClientGet in absent.calls)
  {
    if io.lockGranted {
      var inner := LockedRun(file, client, forceRefresh, now, io.writeSucceeds, refresh);
      LockedRunShape(file, client, forceRefresh, now, io.writeSucceeds, refresh);
      assert inner.calls[1] == Consulted(file)[1] == ClientGet;
      assert ([LockAcquired] + inner.calls + [LockReleased])[2] == ClientGet;
      AbsentStoreSameOutcome(file, client, forceRefresh, now, io, refresh);
    }
  }

  /** The outcome part of AbsentStoreUsesClient, branch by branch. */
  lemma AbsentStoreSameOutcome(file: CredentialFile, client: TokenCredentials, forceRefresh: bool, now: int,
                               io: StoreIo, refresh: TokenCredentials -> Result<TokenCredentials, AuthError>)
    requires ReadOutcome(file) == Ok(None)
    requires io.lockGranted
    ensures var absent := LockedRun(file, client, forceRefresh, now, io.writeSucceeds, refresh);
            var stored := LockedRun(Json(client), client, forceRefresh, now, io.writeSucceeds, refresh);
            absent.result == stored.result && absent.client == stored.client
  {
    assert ReadOutcome(Json(client)) == Ok(Some(client));
    if NeedsRefresh(client, forceRefresh, now) && Truthy(client.refreshToken) {
      RefreshRunUnfolded(file, client, forceRefresh, now, io, refresh);
      RefreshRunUnfolded(Json(client), client, forceRefresh, now, io, refresh);
    }
  }

  /** A usable credential is returned as it is: not forced, an access token
      present and not expired means no refresh, no write, and the client is
      given that credential. */
  lemma FreshCredentialUntouched(file: CredentialFile, client: TokenCredentials, now: int,
                                 io: StoreIo, refresh: TokenCredentials -> Result<TokenCredentials, AuthError>)
    requires io.lockGranted
    requires ReadOutcome(file).Ok?
    requires var current := if file.Json? then file.credentials else client;
             Truthy(current.accessToken) && !IsTokenExpired(current, now)
    ensures var current := if file.Json? then file.credentials else client;
            var run := GetValidRun(file, client, false, now, io, refresh);
            && run.result == Ok(current)
            && run.file == file
            && run.client == current
            && run.calls == [LockAcquired, StoreRead] + (if file.Json? then [] else [ClientGet])
                            + [ClientSet(current), LockReleased]
  {
  }

  /** A credential that must be renewed but has no refresh token is fatal:
      no refresh is asked for, nothing is written and the client keeps what it had. */
  lemma MissingRefreshTokenIsFatal(file: CredentialFile, client: TokenCredentials, forceRefresh: bool, now: int,
                                   io: StoreIo, refresh: TokenCredentials -> Result<TokenCredentials, AuthError>)
    requires io.lockGranted
    requires ReadOutcome(file).Ok?
    requires var current := if file.Json? then file.credentials else client;
             NeedsRefresh(current, forceRefresh, now) && !Truthy(current.refreshToken)
    ensures var run := GetValidRun(file, client, forceRefresh, now, io, refresh);
            && run.result == Err(NoRefreshTokenAvailable)
            && run.file == file
            && run.client == client
            && run.calls == [LockAcquired] + Consulted(file) + [LockReleased]
            && Count(run.calls, ClientRefresh(if file.Json? then file.credentials else client)) == 0
  {
    var current := if file.Json? then file.credentials else client;
    var run := GetValidRun(file, client, forceRefresh, now, io, refresh);
    assert ReadOutcome(file) == Ok(if file.Json? then Some(file.credentials) else None);
    var inner := LockedRun(file, client, forceRefresh, now, io.writeSucceeds, refresh);
    assert inner == Run(Err(NoRefreshTokenAvailable), file, client, Consulted(file));
    assert run.calls == [LockAcquired] + Consulted(file) + [LockReleased];
    CountAbsent(run.calls, ClientRefresh(current));
  }

  /** The run of a call that has to refresh a renewable credential, written out:
      everything up to the refresh is fixed, and what follows depends only on
      the refresh's outcome and on whether the write succeeds. */
  lemma RefreshRunUnfolded(file: CredentialFile, client: TokenCredentials, forceRefresh: bool, now: int,
                           io: StoreIo, refresh: TokenCredentials -> Result<TokenCredentials, AuthError>)
    requires io.lockGranted
    requires ReadOutcome(file).Ok?
    requires var current := if file.Json? then file.credentials else client;
             NeedsRefresh(current, forceRefresh, now) && Truthy(current.refreshToken)
    ensures var current := if file.Json? then file.credentials else client;
            var asked := [LockAcquired] + Consulted(file) + [ClientSet(current), ClientRefresh(current)];
            GetValidRun(file, client, forceRefresh, now, io, refresh) ==
              match refresh(current)
              case Err(e) => Run(Err(e), file, current, asked + [LockReleased])
              case Ok(renewed) =>
                if !io.writeSucceeds then Run(Err(StoreWriteFailed), file, current, asked + [StoreWrite(renewed), LockReleased])
                else Run(Ok(renewed), Written(renewed), renewed, asked + [StoreWrite(renewed), ClientSet(renewed), LockReleased])
  {
    var current := if file.Json? then file.credentials else client;
    var consulted := Consulted(file);
    var asked := [LockAcquired] + consulted + [ClientSet(current), ClientRefresh(current)];
    assert ReadOutcome(file) == Ok(if file.Json? then Some(file.credentials) else None);
    var inner := LockedRun(file, client, forceRefresh, now, io.writeSucceeds, refresh);
    match refresh(current)
    case Err(e) =>
      assert inner.calls == consulted + [ClientSet(current), ClientRefresh(current)];
      assert [LockAcquired] + inner.calls + [LockReleased] == asked + [LockReleased];
    case Ok(renewed) =>
      if !io.writeSucceeds {
        assert inner.calls == consulted + [ClientSet(current), ClientRefresh(current)] + [StoreWrite(renewed)];
        assert [LockAcquired] + inner.calls + [LockReleased] == asked + [StoreWrite(renewed), LockReleased];
      } else {
        assert inner.calls == consulted + [ClientSet(current), ClientRefresh(current)] + [StoreWrite(renewed), ClientSet(renewed)];
        assert [LockAcquired] + inner.calls + [LockReleased] == asked + [StoreWrite(renewed), ClientSet(renewed), LockReleased];
      }
  }

  /** A renewable credential that needs a refresh is refreshed exactly once,
      right after the client was given it; a successful refresh is written to
      the file, then given to the client and returned. */
  lemma RefreshIsPersistedAndAdopted(file: CredentialFile, client: TokenCredentials, forceRefresh: bool, now: int,
                                     io: StoreIo, refresh: TokenCredentials -> Result<TokenCredentials, AuthError>)
    requires io.lockGranted
    requires ReadOutcome(file).Ok?
    requires var current := if file.Json? then file.credentials else client;
             NeedsRefresh(current, forceRefresh, now) && Truthy(current.refreshToken)
    ensures var current := if file.Json? then file.credentials else client;
            var run := GetValidRun(file, client, forceRefresh, now, io, refresh);
            var asked := [LockAcquired] + Consulted(file) + [ClientSet(current), ClientRefresh(current)];
            && Count(run.calls, ClientRefresh(current)) == 1
            && |asked| <= |run.calls| && run.calls[..|asked|] == asked
            && (refresh(current).Ok? && io.writeSucceeds ==>
                  && run.result == refresh(current)
                  && run.file == Written(run.result.value)
                  && run.client == run.result.value
                  && run.calls[|asked|..] == [StoreWrite(run.result.value), ClientSet(run.result.value), LockReleased])
            && (refresh(current).Ok? && !io.writeSucceeds ==>
                  run.result == Err(StoreWriteFailed) && run.file == file && run.client == current)
            && (refresh(current).Err? ==> run.result == refresh(current) && run.file == file && run.client == current)
  {
    var current := if file.Json? then file.credentials else client;
    var run := GetValidRun(file, client, forceRefresh, now, io, refresh);
    var before := [LockAcquired] + Consulted(file) + [ClientSet(current)];
    var asked := [LockAcquired] + Consulted(file) + [ClientSet(current), ClientRefresh(current)];
    RefreshRunUnfolded(file, client, forceRefresh, now, io, refresh);
    var tail := run.calls[|asked|..];
    assert run.calls == asked + tail;
    assert asked == before + [ClientRefresh(current)];
    CountAbsent(before, ClientRefresh(current));
    CountAbsent(tail, ClientRefresh(current));
    CountAppend(before, [ClientRefresh(current)], ClientRefresh(current));
    CountAppend(asked, tail, ClientRefresh(current));
  }

  /** A forced call never returns a credential without asking the client to
      refresh: its result, when it has one, is the client's refresh of the
      starting credential. */
  lemma ForcedCallRefreshes(file: CredentialFile, client: TokenCredentials, now: int,
                            io: StoreIo, refresh: TokenCredentials -> Result<TokenCredentials, AuthError>)
    ensures var current := if file.Json? then file.credentials else client;
            var run := GetValidRun(file, client, true, now, io, refresh);
            run.result.Ok? ==> ClientRefresh(current) in run.calls && run.result == refresh(current)
  {
    var current := if file.Json? then file.credentials else client;
    var run := GetValidRun(file, client, true, now, io, refresh);
    if io.lockGranted && ReadOutcome(file).Ok? && Truthy(current.refreshToken) {
      RefreshIsPersistedAndAdopted(file, client, true, now, io, refresh);
      var asked := [LockAcquired] + Consulted(file) + [ClientSet(current), ClientRefresh(current)];
      assert run.calls[|asked| - 1] == asked[|asked| - 1];
    }
  }

  /** A call either leaves the file as it found it or has written the
      credential it returns. */
  lemma FileChangesOnlyByWrite(file: CredentialFile, client: TokenCredentials, forceRefresh: bool, now: int,
                               io: StoreIo, refresh: TokenCredentials -> Result<TokenCredentials, AuthError>)
    ensures var run := GetValidRun(file, client, forceRefresh, now, io, refresh);
            run.file == file || (run.result.Ok? && run.file == Written(run.result.value))
  {
    if io.lockGranted && ReadOutcome(file).Ok? {
      var current := if file.Json? then file.credentials else client;
      if NeedsRefresh(current, forceRefresh, now) && Truthy(current.refreshToken) {
        RefreshIsPersistedAndAdopted(file, client, forceRefresh, now, io, refresh);
      }
    }
  }

  /** A second call made after a call that rewrote the file sees what the first
      one wrote: if that credential is still fresh, it is returned without
      another refresh, whatever the second client holds in memory. */
  lemma SecondCallSeesFirstRefresh(file: CredentialFile, client1: TokenCredentials, force1: bool, now1: int,
                                   io1: StoreIo, refresh1: TokenCredentials -> Result<TokenCredentials, AuthError>,
                                   client2: TokenCredentials, now2: int, io2: StoreIo,
                                   refresh2: TokenCredentials -> Result<TokenCredentials, AuthError>)
    requires var first := GetValidRun(file, client1, force1, now1, io1, refresh1);
             first.result.Ok? && first.file != file
    requires var first := GetValidRun(file, client1, force1, now1, io1, refresh1);
             Truthy(first.result.value.accessToken) && !IsTokenExpired(first.result.value, now2)
    requires io2.lockGranted
    ensures var first := GetValidRun(file, client1, force1, now1, io1, refresh1);
            var second := GetValidRun(first.file, client2, false, now2, io2, refresh2);
            && first.file == Written(first.result.value)
            && second.result == first.result
            && second.file == first.file
            && second.calls == [LockAcquired, StoreRead, ClientSet(first.result.value), LockReleased]
  {
    var first := GetValidRun(file, client1, force1, now1, io1, refresh1);
    FileChangesOnlyByWrite(file, client1, force1, now1, io1, refresh1);
    assert first.file == Json(first.result.value);
    var c := first.result.value;
    assert ReadOutcome(first.file) == Ok(Some(c));
    FreshCredentialUntouched(first.file, client2, now2, io2, refresh2);
    var second := GetValidRun(first.file, client2, false, now2, io2, refresh2);
    assert second.calls == [LockAcquired, StoreRead] + [] + [ClientSet(c), LockReleased];
    assert [LockAcquired, StoreRead] + [] + [ClientSet(c), LockReleased] == [LockAcquired, StoreRead, ClientSet(c), LockReleased];
  }

  /** The file lock together with the credential file it guards. */
  class CredentialStore {
    var file: CredentialFile
    var locked: bool

    constructor (file: CredentialFile)
      ensures this.file == file && !locked
    {
      this.file := file;
      locked := false;
    }
  }

  class SharedTokenManager {
    const store: CredentialStore

    constructor (store: CredentialStore)
      ensures this.store == store
    {
      this.store := store;
    }

    /** acquireLock: takes the lock when the lock library grants it. */
    method AcquireLock(granted: bool) returns (acquired: bool)
      requires !store.locked
      modifies store
      ensures acquired == granted && store.locked == granted && store.file == old(store.file)
    {
      acquired := granted;
      store.locked := granted;
    }

    /** The release function acquireLock hands back. */
    method ReleaseLock()
      requires store.locked
      modifies store
      ensures !store.locked && store.file == old(store.file)
    {
      store.locked := false;
    }

    /** readCredentials, only ever called with the lock held: a missing file
      and contents that trim to nothing read as absent. */
    method ReadCredentials() returns (r: Result<Option<TokenCredentials>, AuthError>)
      requires store.locked
      ensures r == ReadOutcome(store.file)
    {
      match store.file
      case ReadFails(code) =>
        r := if code == ENOENT then Ok(None) else Err(StoreReadFailed(code));
      case NotJson(text) =>
        r := if Trim(text) == "" then Ok(None) else Err(StoreCorrupt);
      case Json(c) =>
        r := Ok(Some(c));
    }

    /** writeCredentials, only ever called with the lock held. */
    method WriteCredentials(c: TokenCredentials, succeeds: bool) returns (written: bool)
      requires store.locked
      modifies store
      ensures written == succeeds && store.locked
      ensures store.file == if succeeds then Written(c) else old(store.file)
    {
      written := succeeds;
      if succeeds {
        store.file := Written(c);
      }
    }

    /** The try block of getValidCredentials. */
    method ReadDecideRefreshWrite(clientCredentials: TokenCredentials, forceRefresh: bool, now: int,
                                  writeSucceeds: bool, refresh: TokenCredentials -> Result<TokenCredentials, AuthError>)
      returns (r: Result<TokenCredentials, AuthError>, client: TokenCredentials, ghost calls: seq<Call>)
      requires store.locked
      modifies store
      ensures store.locked
      ensures Run(r, store.file, client, calls)
              == LockedRun(old(store.file), clientCredentials, forceRefresh, now, writeSucceeds, refresh)
    {
      client := clientCredentials;
      var read := ReadCredentials();
      calls := [StoreRead];
      if read.Err? {
        return Err(read.error), client, calls;
      }
      var credentials: TokenCredentials;
      if read.value.None? {
        credentials := client;
        calls := calls + [ClientGet];
      } else {
        credentials := read.value.value;
      }
      if NeedsRefresh(credentials, forceRefresh, now) {
        if !Truthy(credentials.refreshToken) {
          return Err(NoRefreshTokenAvailable), client, calls;
        }
        client := credentials;
        calls := calls + [ClientSet(credentials)];
        var refreshed := refresh(credentials);
        calls := calls + [ClientRefresh(credentials)];
        if refreshed.Err? {
          return Err(refreshed.error), client, calls;
        }
        credentials := refreshed.value;
        var written := WriteCredentials(credentials, writeSucceeds);
        calls := calls + [StoreWrite(credentials)];
        if !written {
          return Err(StoreWriteFailed), client, calls;
        }
      }
      client := credentials;
      calls := calls + [ClientSet(credentials)];
      r := Ok(credentials);
    }

    /** getValidCredentials: the whole call, lock acquisition and release included.
      The lock is free again afterwards, whatever happened. */
    method GetValidCredentials(clientCredentials: TokenCredentials, forceRefresh: bool, now: int, io: StoreIo,
                               refresh: TokenCredentials -> Result<TokenCredentials, AuthError>)
      returns (r: Result<TokenCredentials, AuthError>, client: TokenCredentials, ghost calls: seq<Call>)
      requires !store.locked
      modifies store
      ensures !store.locked
      ensures Run(r, store.file, client, calls)
              == GetValidRun(old(store.file), clientCredentials, forceRefresh, now, io, refresh)
    {
      var acquired := AcquireLock(io.lockGranted);
      if !acquired {
        return Err(LockNotAcquired), clientCredentials, [];
      }
      r, client, calls := ReadDecideRefreshWrite(clientCredentials, forceRefresh, now, io.writeSucceeds, refresh);
      ReleaseLock();
      calls := [LockAcquired] + calls + [LockReleased];
    }

    /** saveCredentials: write a credential under the lock. */
    method SaveCredentials(c: TokenCredentials, io: StoreIo)
      returns (r: Result<(), AuthError>, ghost calls: seq<Call>)
      requires !store.locked
      modifies store
      ensures !store.locked
      ensures SaveTrace(r, store.file, calls) == SaveRun(old(store.file), c, io)
    {
      var acquired := AcquireLock(io.lockGranted);
      if !acquired {
        return Err(LockNotAcquired), [];
      }
      var written := WriteCredentials(c, io.writeSucceeds);
      r := if written then Ok(()) else Err(StoreWriteFailed);
      ReleaseLock();
      calls := [LockAcquired, StoreWrite(c), LockReleased];
    }
  }
}
