# Custom OAuth credential coordination, modelled in Dafny

This project models the credential-coordination logic behind the command line's
custom OAuth sign-in. It has three parts:

- **The shared token manager.** A credential file is guarded by a file lock.
  `getValidCredentials` runs "read, decide, refresh, write" while it holds the lock:
  - A stored credential wins over the client's in-memory one.
  - Tokens count as expired 60 seconds early.
  - A credential that must be renewed but has no refresh token is fatal.
  - A refreshed credential is written to the file and given back to the client.
  - The lock is released on every exit path.

  `saveCredentials` writes the file under the same lock.
- **The custom OAuth2 client.** It handles:
  - the constructor's validation and the static-key bypass;
  - the refresh-token grant, which keeps the previous refresh token when the server sends none;
  - `getAccessToken`, which goes through the manager unless a static key is set;
  - the device-authorization request;
  - the device-token poll loop of RFC 8628. `authorization_pending` and `slow_down` keep it polling (section 3.5 of RFC 8628). It checks cancellation before each request and after each error answer.
- **`validateAuthMethod`.** The command line uses it to check the selected
  method against the settings and the environment.

Files and modules:

- `common.dfy` (`Common`): `Option` and `Result`, JavaScript truthiness of optional strings, `String.prototype.trim` (`Trim`, with `IsBlank`), and the subsystem's errors with their messages.
- `token_manager.dfy` (`TokenManager`): the credential record and the expiry rule.
  - The credential file is abstract. Reading it either fails with an error code, finds text that is not JSON, or finds a JSON credential.
  - `CredentialStore` is the file together with its lock flag.
  - `SharedTokenManager` is a class whose methods are proved equal to the specification functions `LockedRun`, `GetValidRun` and `SaveRun`.
  - The lemmas about those functions state the manager's guarantees.
- `custom_oauth_client.dfy` (`CustomOAuth`):
  - the settings checks and the refresh grant, as functions;
  - the poll loop's specification `PollSpec` and its lemmas;
  - the class `CustomOAuth2Client`, whose fields are the in-memory credential, the static key and the log-once flag.
- `auth_config.dfy` (`AuthConfig`): `validateAuthMethod` as a pure function, and its relation to the client constructor.

Inputs and effects are modelled as follows:

- The clock is an integer parameter (milliseconds).
- HTTP answers are scripted values (`RefreshResponse`, `DeviceCodeResponse`, and a sequence of `PollRound`s).
- Two store outcomes are scripted booleans (`StoreIo`): whether the lock is granted within its retry budget, and whether the file write succeeds.
- Each run of the manager records the interactions it performs, in order (`Call`). This is how "released exactly once", "refreshed exactly once" and "written after refreshing" are stated.

The manager talks to its client through three operations: getCredentials, setCredentials and refreshAccessToken. The model passes these as values:

- the credential the client holds;
- the refresh the client performs once a credential has been pushed into it. For this client that is `RefreshWith(None, response, now)`;
- the run returns the credential the client holds afterwards.

The client owns its manager, so the manager cannot name the client class without a module cycle.

## Model

| member | source | states |
|---|---|---|
| `Common.Trim` | packages/core/src/auth/sharedTokenManager.ts:89 | the trimmed string neither starts nor ends with whitespace, and is empty exactly when the string is blank |
| `Common.TrimStripsEnds` | packages/core/src/auth/sharedTokenManager.ts:89 | the trimmed string is the slice of the original between a blank prefix and a blank suffix: only whitespace at the two ends is removed |
| `Common.Decimal` | packages/core/src/custom/customOAuth2Client.ts:82 | the status printed into an error message is a string of decimal digits, without a leading zero, that spells the status |
| `TokenManager.IsTokenExpired` | packages/core/src/auth/sharedTokenManager.ts:77-84 | a credential with no expiry date (absent or 0) is expired; otherwise it is expired exactly when its expiry date is at most now + 60000 ms, the boundary counting as expired |
| `TokenManager.ExpiryIsMonotonic` | packages/core/src/auth/sharedTokenManager.ts:83 | once expired, a credential stays expired at every later time |
| `TokenManager.ReadOutcome` | packages/core/src/auth/sharedTokenManager.ts:86-99 | a missing file (ENOENT) or blank contents read as absent; non-blank contents that are not JSON and any other read error are errors; JSON contents yield their credential |
| `TokenManager.Written` | packages/core/src/auth/sharedTokenManager.ts:101-107 | what a write leaves in the file reads back as exactly the credential written |
| `TokenManager.LockedRunShape` | packages/core/src/auth/sharedTokenManager.ts:33-56 | the critical section never acquires or releases the lock itself, and once the read succeeds it starts by reading the store and, only when the store has no credential, asking the client |
| `TokenManager.ReleasedExactlyOnce` | packages/core/src/auth/sharedTokenManager.ts:28-69 | getValidCredentials and saveCredentials acquire and release the lock exactly once each whenever it is granted, and touch nothing when it is not |
| `TokenManager.ClientHoldsResult` | packages/core/src/auth/sharedTokenManager.ts:55-56 | whenever getValidCredentials returns a credential, the client holds exactly that credential afterwards |
| `TokenManager.BracketedReleasesOnce` | packages/core/src/auth/sharedTokenManager.ts:57-59 | a call bracketed by the lock acquires it exactly once and releases it exactly once |
| `TokenManager.ReleasedOnEveryPath` | packages/core/src/auth/sharedTokenManager.ts:28-69 | getValidCredentials and saveCredentials start by acquiring the lock, end by releasing it on every path, and do nothing at all when the lock is not granted |
| `TokenManager.StoredCredentialWins` | packages/core/src/auth/sharedTokenManager.ts:34-37 | with a credential in the file, the result and the file afterwards do not depend on the client's in-memory credential, and the client is not asked for it |
| `TokenManager.AbsentStoreUsesClient` | packages/core/src/auth/sharedTokenManager.ts:34-37 | with the file reading as absent, the client is asked for its credential and the outcome is that of the client's credential stored |
| `TokenManager.FreshCredentialUntouched` | packages/core/src/auth/sharedTokenManager.ts:39-56 | not forced, an access token present and not expired: the credential is returned unchanged, given to the client, the file is untouched and no refresh or write happens |
| `TokenManager.MissingRefreshTokenIsFatal` | packages/core/src/auth/sharedTokenManager.ts:39-48 | a credential that needs renewal without a refresh token throws the "authentication expired" error; the file and the client are unchanged, and the only interactions are the lock, the read and (when the store is empty) asking the client, so there is no refresh and no write |
| `TokenManager.RefreshIsPersistedAndAdopted` | packages/core/src/auth/sharedTokenManager.ts:49-56 | a needed refresh is asked for exactly once, right after the client was given the credential; its result is written, then given to the client and returned; a failed refresh or write leaves the file as it was |
| `TokenManager.ForcedCallRefreshes` | packages/core/src/auth/sharedTokenManager.ts:39-53 | a forced call that succeeds returns the client's refresh of the starting credential |
| `TokenManager.FileChangesOnlyByWrite` | packages/core/src/auth/sharedTokenManager.ts:28-60 | a call either leaves the file as it was or has written the credential it returns |
| `TokenManager.SecondCallSeesFirstRefresh` | packages/core/src/auth/sharedTokenManager.ts:28-60 | a call after one that rewrote the file returns the written credential without refreshing, whatever its own client holds, as long as that credential is still fresh |
| `TokenManager.SharedTokenManager.constructor` | packages/core/src/auth/sharedTokenManager.ts:26 | the manager is bound to one credential store |
| `TokenManager.SharedTokenManager.AcquireLock` | packages/core/src/auth/sharedTokenManager.ts:71-75 | the lock is held afterwards exactly when it was granted; the file is unchanged |
| `TokenManager.SharedTokenManager.ReleaseLock` | packages/core/src/auth/sharedTokenManager.ts:57-59 | the lock is free afterwards; the file is unchanged |
| `TokenManager.SharedTokenManager.ReadCredentials` | packages/core/src/auth/sharedTokenManager.ts:86-99 | with the lock held, classifies the current file by trimming its text and returns exactly the read outcome |
| `TokenManager.SharedTokenManager.WriteCredentials` | packages/core/src/auth/sharedTokenManager.ts:101-107 | with the lock held, replaces the whole file by the credential when the write succeeds and leaves it otherwise |
| `TokenManager.SharedTokenManager.ReadDecideRefreshWrite` | packages/core/src/auth/sharedTokenManager.ts:33-56 | the try block: result, file, client credential and interactions are those of `LockedRun` |
| `TokenManager.SharedTokenManager.GetValidCredentials` | packages/core/src/auth/sharedTokenManager.ts:28-60 | the whole call equals `GetValidRun` and the lock is free afterwards on every path |
| `TokenManager.SharedTokenManager.SaveCredentials` | packages/core/src/auth/sharedTokenManager.ts:62-69 | returns nothing or throws, and leaves the file, and its lock traffic, exactly as `SaveRun` says: no write without the lock, a failed write leaves the file as it was, a successful one stores the credential; the lock is free afterwards on every path |
| `CustomOAuth.StaticKeyOf` | packages/core/src/custom/customOAuth2Client.ts:24-27 | static-key mode exactly when the configured key is not blank; the key kept is the trimmed, non-empty one |
| `CustomOAuth.CheckSettings` | packages/core/src/custom/customOAuth2Client.ts:29-36 | with a static key construction succeeds; without one, a missing or empty authServerUrl fails first, then a missing or empty clientId |
| `CustomOAuth.RefreshGrant` | packages/core/src/custom/customOAuth2Client.ts:56-98 | static mode yields the key alone with no refresh token or expiry; otherwise no refresh token fails, a non-ok status fails with that status, and success expires expires_in seconds from now and keeps the previous refresh token when the server sends none |
| `CustomOAuth.RefreshedCredentialIsUsable` | packages/core/src/custom/customOAuth2Client.ts:91-95 | a refreshed credential with an access token that lives longer than the margin is left alone by an unforced call of the manager at any time until the margin before its expiry, and refreshed again from then on |
| `CustomOAuth.RefreshedCredentialIsRenewable` | packages/core/src/custom/customOAuth2Client.ts:93 | a refreshed credential has a usable refresh token exactly unless the server sent an empty one |
| `CustomOAuth.StaticCredentialRejectedByManager` | packages/core/src/custom/customOAuth2Client.ts:57-61 | a static-key credential stored in the file would make the manager throw "no refresh token", which is why static mode bypasses the manager |
| `CustomOAuth.ManagerNeverTriggersClientCheck` | packages/core/src/custom/customOAuth2Client.ts:63-65 | through the manager, the client's own "no refresh token" error never surfaces |
| `CustomOAuth.AccessTokenOf` | packages/core/src/custom/customOAuth2Client.ts:114-118 | the manager's error passes through; a credential without an access token gives the "failed to obtain" error; otherwise its access token |
| `CustomOAuth.PollSpec` | packages/core/src/custom/customOAuth2Client.ts:161-214 | the poll loop sends at most one request per scripted round, and exactly one per round when it runs out of script |
| `CustomOAuth.PollAfterPending` | packages/core/src/custom/customOAuth2Client.ts:204-209 | pending and slow-down answers only add one request each and do not change how the loop ends |
| `CustomOAuth.PendingThenGranted` | packages/core/src/custom/customOAuth2Client.ts:177-193 | N pending answers and then a success make exactly N + 1 requests and yield the credential from the last answer |
| `CustomOAuth.CancelledBeforeRequest` | packages/core/src/custom/customOAuth2Client.ts:162-164 | an abort seen before a request ends the loop as cancelled with no further request |
| `CustomOAuth.CancelledAfterError` | packages/core/src/custom/customOAuth2Client.ts:200-202 | an abort seen after an error answer ends the loop as cancelled, whatever the error, with no further request |
| `CustomOAuth.UnexpectedErrorFails` | packages/core/src/custom/customOAuth2Client.ts:211-213 | any other error code fails with the error description, or the error code when the description is missing or empty |
| `CustomOAuth.CustomOAuth2Client.constructor` | packages/core/src/custom/customOAuth2Client.ts:38-46 | a valid configuration gives a client with the trimmed static key, the empty credential, the log flag unset and a fresh manager over the store |
| `CustomOAuth.CustomOAuth2Client.Create` | packages/core/src/custom/customOAuth2Client.ts:22-46 | construction fails exactly when the configuration check fails, with its error; otherwise it builds a valid client |
| `CustomOAuth.CustomOAuth2Client.GetCredentials` | packages/core/src/custom/customOAuth2Client.ts:48-50 | returns the in-memory credential |
| `CustomOAuth.CustomOAuth2Client.SetCredentials` | packages/core/src/custom/customOAuth2Client.ts:52-54 | replaces the in-memory credential and nothing else |
| `CustomOAuth.CustomOAuth2Client.RefreshAccessToken` | packages/core/src/custom/customOAuth2Client.ts:56-98 | the refresh grant applied to the in-memory credential |
| `CustomOAuth.CustomOAuth2Client.GetAccessToken` | packages/core/src/custom/customOAuth2Client.ts:100-119 | static mode returns the key, leaves store and credential alone and has printed the notice exactly once; otherwise the manager's run with this client's refresh, the client holding what the manager gave it and the result's access token returned |
| `CustomOAuth.CustomOAuth2Client.RequestDeviceAuthorization` | packages/core/src/custom/customOAuth2Client.ts:121-149 | a non-ok status fails with that status; a successful body is passed on unread |
| `CustomOAuth.CustomOAuth2Client.SaveThenAdopt` | packages/core/src/custom/customOAuth2Client.ts:190-192 | the granted credential is saved through the manager first; only a successful save makes the client adopt it, and a failed one throws the save's error with the in-memory credential unchanged |
| `CustomOAuth.CustomOAuth2Client.PollDeviceToken` | packages/core/src/custom/customOAuth2Client.ts:151-215 | requests and ending as `PollSpec` says; a granted credential is saved through the manager and adopted in memory only after the save succeeded; every other ending leaves file and credential unchanged |
| `AuthConfig.ValidateAuthMethod` | packages/cli/src/config/auth.ts:10-52 | Qwen OAuth is always valid; OpenAI fails exactly when neither the environment key nor the settings key is non-empty; custom OAuth fails on a blank apiUrl before anything else, passes with a non-blank static key, and otherwise passes exactly when authServerUrl and clientId are both non-blank; any other method is invalid |
| `AuthConfig.ValidatedSettingsConstructClient` | packages/cli/src/config/auth.ts:29-49 | custom-OAuth settings the command line accepts also pass the client constructor, and both agree on static-key mode |
| `AuthConfig.ConstructorAcceptsWhatValidationRejects` | packages/cli/src/config/auth.ts:42-47 | a whitespace-only authServerUrl passes the client constructor, which does not trim, but not the command line's check |

## Left out

- Lock library internals: the retry count, the backoff factor and the minimum timeout (packages/core/src/auth/sharedTokenManager.ts:17-23) are not modelled. Real cross-process mutual exclusion is not modelled either. Whether the lock is granted is an input, and the model is sequential.
- A failing release function is not modelled: release always succeeds.
- Directory creation and the append-touch of the credential file before locking (packages/core/src/auth/sharedTokenManager.ts:72-73) are left out. They turn a missing file into an empty one, and both read as absent.
- JSON parsing and serialisation are abstract. A file's text is either not JSON or the JSON of a credential. JSON that is not a credential object (such as `null` or a number) is not modelled, and field types are not checked.
- A failed write is modelled as leaving the file as it was; a partially written file is not modelled.
- Network I/O is left out: `fetch`, form encoding, request headers and bodies, `deviceCode`, `scope` and `clientId` in the request forms, and the 5-second sleep between polls. A `fetch` or `response.json()` that throws is not modelled.
- `Date.now()` is a parameter. `getAccessToken` uses one clock reading for both the expiry check and the refreshed expiry date.
- `expires_in` is an integer, so a missing or fractional `expires_in` (which JavaScript turns into `NaN` or a fraction) is not modelled.
- The poll loop runs over a finite script of rounds. When the script runs out, the model reports that the loop is still polling; the real loop would go on until it is cancelled or fails.
- `console.log` in static mode is represented by the log flag and a ghost count of notices.
- The credential path under the home directory (packages/core/src/custom/customOAuth2Client.ts:38-45) is not modelled. The client is given its credential store instead.
- Interleaving of asynchronous calls within one process is not modelled.
- `createCustomOAuthClient` only calls the constructor; `Create` stands for both.
- packages/cli/src/ui/auth/CustomOAuthProgress.tsx (terminal rendering) is not part of this model.
- packages/core/src/custom/customOpenAIProvider.ts and packages/core/src/custom/customContentGenerator.ts are not part of this model: they wire the access token into the OpenAI SDK. Their 401 handling calls `getAccessToken(true)`, which is `GetAccessToken` with `forceRefresh` set.
- `loadSettings`, `loadEnvironment` and `process.env` (packages/cli/src/config/auth.ts:11-12) are replaced by the `AuthInputs` value.
- The string values of `AuthType` are not part of this model; the methods are the datatype `AuthMethod`.
- How the core's `Config.getCustomSettings` is filled from the command line's settings is not part of this model. `AuthConfig.ClientSettings` assumes a field-for-field copy.
