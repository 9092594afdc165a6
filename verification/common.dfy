/** Vocabulary shared by the credential subsystem: optional values and results,
    the JavaScript notions of truthiness and `String.prototype.trim` that the
    sources rely on, and the errors the subsystem raises. */
module Common {

  datatype Option<+T> = None | Some(value: T)

  datatype Result<+T, +E> = Ok(value: T) | Err(error: E)

  /** JavaScript truthiness of an optional string: `undefined` and `""` are falsy,
      every other string (including one made of spaces) is truthy. */
  predicate Truthy(s: Option<string>)
  {
    s.Some? && s.value != ""
  }

  /** The characters `String.prototype.trim` strips: ECMAScript WhiteSpace
      (tab, vertical tab, form feed, space, no-break space, byte-order mark and
      the Zs category) and LineTerminator (LF, CR, LS, PS). */
  predicate IsWhitespace(c: char)
  {
    c == '\t' || c == '\n' || c == '\U{B}' || c == '\U{C}' || c == '\r' || c == ' '
    || c == '\U{A0}' || c == '\U{1680}' || ('\U{2000}' <= c <= '\U{200A}')
    || c == '\U{2028}' || c == '\U{2029}' || c == '\U{202F}' || c == '\U{205F}'
    || c == '\U{3000}' || c == '\U{FEFF}'
  }

  /** A string with nothing but whitespace in it (the empty string included). */
  predicate IsBlank(s: string)
  {
    forall i :: 0 <= i < |s| ==> IsWhitespace(s[i])
  }

  /** `s` without its leading whitespace. */
  function TrimStart(s: string): (t: string)
    ensures |t| <= |s| && t == s[|s| - |t|..]
    ensures IsBlank(s[..|s| - |t|])
    ensures t == [] || !IsWhitespace(t[0])
  {
    if s == [] || !IsWhitespace(s[0]) then s else TrimStart(s[1..])
  }

  /** `s` without its trailing whitespace. */
  function TrimEnd(s: string): (t: string)
    ensures |t| <= |s| && t == s[..|t|]
    ensures IsBlank(s[|t|..])
    ensures t == [] || !IsWhitespace(t[|t| - 1])
  {
    if s == [] || !IsWhitespace(s[|s| - 1]) then s else TrimEnd(s[..|s| - 1])
  }

  /** `t` is `s` with some whitespace removed at its start and at its end, and
      nothing removed anywhere else. */
  predicate StripsEnds(s: string, t: string)
  {
    exists a, b :: 0 <= a <= b <= |s| && t == s[a..b] && IsBlank(s[..a]) && IsBlank(s[b..])
  }

  /** Stripping a blank prefix and then a blank suffix strips the ends of `s`. */
  lemma StripBothEnds(s: string, u: string, t: string)
    requires |u| <= |s| && u == s[|s| - |u|..] && IsBlank(s[..|s| - |u|])
    requires |t| <= |u| && t == u[..|t|] && IsBlank(u[|t|..])
    ensures StripsEnds(s, t)
  {
    var a := |s| - |u|;
    var b := a + |t|;
    assert s[a..b] == t;
    assert s[b..] == u[|t|..];
  }

  /** `String.prototype.trim`: the result neither starts nor ends with
      whitespace, and it is empty exactly when `s` is blank; TrimStripsEnds
      shows it is `s` with only its leading and trailing whitespace removed. */
  function Trim(s: string): (t: string)
    ensures |t| <= |s|
    ensures t == [] || (!IsWhitespace(t[0]) && !IsWhitespace(t[|t| - 1]))
    ensures t == "" <==> IsBlank(s)
  {
    var u := TrimStart(s);
    var t := TrimEnd(u);
    assert t == "" ==> IsBlank(s) by {
      if t == "" {
        assert u[|t|..] == u;
        assert u == "";
        assert s[..|s|] == s;
      }
    }
    assert IsBlank(s) ==> u == "" by {
      if u != "" {
        assert u[0] == s[|s| - |u|];
      }
    }
    t
  }

  /** Trimming removes only whitespace, and only at the two ends: the result is
      the slice of `s` left between a blank prefix and a blank suffix. */
  lemma TrimStripsEnds(s: string)
    ensures StripsEnds(s, Trim(s))
  {
    StripBothEnds(s, TrimStart(s), TrimEnd(TrimStart(s)));
  }

  /** The number a string of decimal digits spells. */
  function DigitsValue(s: string): nat
    requires forall i :: 0 <= i < |s| ==> '0' <= s[i] <= '9'
  {
    if s == [] then 0 else DigitsValue(s[..|s| - 1]) * 10 + (s[|s| - 1] - '0') as nat
  }

  /** Decimal digits of a natural number, as a template literal prints it: the
      digits spell `n`, with no leading zero. */
  function Decimal(n: nat): (s: string)
    ensures |s| >= 1
    ensures forall i :: 0 <= i < |s| ==> '0' <= s[i] <= '9'
    ensures DigitsValue(s) == n
    ensures |s| == 1 || s[0] != '0'
  {
    var digit := ['0' + (n % 10) as char];
    if n < 10 then digit else
      var prefix := Decimal(n / 10);
      assert (prefix + digit)[..|prefix|] == prefix;
      prefix + digit
  }


  /** Every failure the credential subsystem raises. In the sources each is a
      thrown `Error`; `Message` gives its text. */
  datatype AuthError =
    | LockNotAcquired                 // the file lock could not be taken within its retry budget
    | StoreReadFailed(code: string)   // reading the credential file failed with a code other than ENOENT
    | StoreCorrupt                    // the non-blank contents of the credential file are not JSON
    | StoreWriteFailed                // writing the credential file failed
    | NoRefreshTokenAvailable         // the manager needed a refresh but the credential cannot be renewed
    | MissingAuthServerUrl            // client configuration without a static key lacks authServerUrl
    | MissingClientId                 // client configuration without a static key lacks clientId
    | ClientHasNoRefreshToken         // the client was asked to refresh without a refresh token
    | TokenRefreshFailed(status: nat) // the token endpoint answered a refresh with a non-ok status
    | NoAccessToken                   // the manager's credential carries no access token
    | DeviceAuthorizationFailed(status: nat) // the device-code endpoint answered with a non-ok status
    | DeviceAuthorizationCancelled    // the abort signal was observed while polling
    | TokenPollingFailed(detail: string)     // polling got an error other than pending / slow down

  /** The errors whose text the subsystem itself chooses; the others come from
      the file system, the lock library or the JSON parser. */
  predicate OwnError(e: AuthError)
  {
    !(e.LockNotAcquired? || e.StoreReadFailed? || e.StoreCorrupt? || e.StoreWriteFailed?)
  }

  function Message(e: AuthError): string
    requires OwnError(e)
  {
    match e
    case NoRefreshTokenAvailable => "Authentication expired, no refresh token available."
    case MissingAuthServerUrl => "Custom OAuth configuration is missing authServerUrl."
    case MissingClientId => "Custom OAuth configuration is missing clientId."
    case ClientHasNoRefreshToken => "No refresh token available for custom OAuth client."
    case TokenRefreshFailed(status) => "Token refresh failed: " + Decimal(status)
    case NoAccessToken => "Failed to obtain access token for custom OAuth."
    case DeviceAuthorizationFailed(status) => "Device authorization request failed: " + Decimal(status)
    case DeviceAuthorizationCancelled => "Device authorization cancelled."
    case TokenPollingFailed(detail) => "Token polling failed: " + detail
  }
}
