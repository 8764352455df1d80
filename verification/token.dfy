/**
 * Access and refresh tokens (server/utils/token/index.ts).
 *
 * `jwt.sign` and `jwt.verify` (with the server's secret and the current time)
 * are given to the model as function values: `sign` turns claims into a token
 * string and `verify` gives back the decoded payload, or None when the token
 * is malformed, forged or expired. `cookie.serialize` is represented by the
 * cookie it describes.
 */
module Token {
  import opened Wrappers

  /** The decoded payload; a field the token lacks reads as "" or false. */
  datatype Payload = Payload(id: string, access: bool, refresh: bool)

  /** What is signed: the payload and its lifetime in seconds (`expiresIn`). */
  datatype Claims = Claims(payload: Payload, expiresIn: nat)

  const AccessTokenLifetime: nat := 15 * 60
  const RefreshTokenLifetime: nat := 7 * 24 * 60 * 60

  /** The claims of an access token: `{id, access: true}`, valid for 15 minutes. */
  function AccessClaims(userId: string): (c: Claims)
    ensures c.payload.id == userId && c.payload.access && !c.payload.refresh
    ensures c.expiresIn == 900
  {
    Claims(Payload(userId, true, false), AccessTokenLifetime)
  }

  /** The claims of a refresh token: `{id, refresh: true}`, valid for 7 days. */
  function RefreshClaims(userId: string): (c: Claims)
    ensures c.payload.id == userId && c.payload.refresh && !c.payload.access
    ensures c.expiresIn == 604800
  {
    Claims(Payload(userId, false, true), RefreshTokenLifetime)
  }

  /** generateAccessToken: signs `{id, access: true}` with a 15-minute expiry. */
  function GenerateAccessToken(sign: Claims -> string, userId: string): (t: string)
    ensures t == sign(Claims(Payload(userId, true, false), 900))
  {
    sign(AccessClaims(userId))
  }

  /** generateRefreshToken: signs `{id, refresh: true}` with a 7-day expiry. */
  function GenerateRefreshToken(sign: Claims -> string, userId: string): (t: string)
    ensures t == sign(Claims(Payload(userId, false, true), 604800))
  {
    sign(RefreshClaims(userId))
  }

  /** The characters String.prototype.trim removes: WhiteSpace and LineTerminator. */
  const WhiteSpaceChars: set<char> := {
    '\t', '\n', '\U{000B}', '\U{000C}', '\r', ' ', '\U{00A0}', '\U{1680}',
    '\U{2000}', '\U{2001}', '\U{2002}', '\U{2003}', '\U{2004}', '\U{2005}',
    '\U{2006}', '\U{2007}', '\U{2008}', '\U{2009}', '\U{200A}',
    '\U{2028}', '\U{2029}', '\U{202F}', '\U{205F}', '\U{3000}', '\U{FEFF}'}

  predicate IsWhiteSpace(c: char)
  {
    c in WhiteSpaceChars
  }

  /** The index of the first character at or after `i` that is not white space (`|s|` if none). */
  function SkipWhiteSpace(s: string, i: nat): (n: nat)
    requires i <= |s|
    ensures i <= n <= |s|
    ensures forall k :: i <= k < n ==> IsWhiteSpace(s[k])
    ensures n < |s| ==> !IsWhiteSpace(s[n])
    decreases |s| - i
  {
    if i < |s| && IsWhiteSpace(s[i]) then SkipWhiteSpace(s, i + 1) else i
  }

  /** Moving back from `j` but not below `lo`: the end of `s[lo..j]` without its trailing white space. */
  function BackOverWhiteSpace(s: string, lo: nat, j: nat): (m: nat)
    requires lo <= j <= |s|
    ensures lo <= m <= j
    ensures forall k :: m <= k < j ==> IsWhiteSpace(s[k])
    ensures m > lo ==> !IsWhiteSpace(s[m - 1])
    decreases j
  {
    if j > lo && IsWhiteSpace(s[j - 1]) then BackOverWhiteSpace(s, lo, j - 1) else j
  }

  /** String.prototype.trim: the longest infix without white space at either end. */
  function Trim(s: string): (r: string)
    ensures var i := SkipWhiteSpace(s, 0);
              && i + |r| <= |s| && r == s[i..i + |r|]
              && (forall k :: 0 <= k < i ==> IsWhiteSpace(s[k]))
              && (forall k :: i + |r| <= k < |s| ==> IsWhiteSpace(s[k]))
    ensures r != [] ==> !IsWhiteSpace(r[0]) && !IsWhiteSpace(r[|r| - 1])
  {
    var i := SkipWhiteSpace(s, 0);
    s[i..BackOverWhiteSpace(s, i, |s|)]
  }

  /** A string without white space at either end is left as it is by Trim. */
  lemma TrimKeepsTrimmed(s: string)
    requires s == [] || (!IsWhiteSpace(s[0]) && !IsWhiteSpace(s[|s| - 1]))
    ensures Trim(s) == s
  {
  }

  /** JavaScript `s.slice(n)` for n >= 0: the suffix after the first n characters, "" when s is shorter. */
  function DropFirst(s: string, n: nat): (r: string)
    ensures |r| == if n <= |s| then |s| - n else 0
    ensures forall i :: 0 <= i < |r| ==> r[i] == s[n + i]
  {
    if n <= |s| then s[n..] else ""
  }

  predicate StartsWith(s: string, prefix: string)
  {
    |prefix| <= |s| && s[..|prefix|] == prefix
  }

  const BearerScheme: string := "Bearer"

  /** `authorization.slice(7).trim()`: the token after "Bearer" and one more character. */
  function ExtractToken(authorization: string): (t: string)
    ensures |authorization| <= 7 ==> t == ""
    ensures |authorization| > 7 ==>
              var i := 7 + SkipWhiteSpace(authorization[7..], 0);
              && i + |t| <= |authorization| && t == authorization[i..i + |t|]
              && (forall k :: 7 <= k < i ==> IsWhiteSpace(authorization[k]))
              && (forall k :: i + |t| <= k < |authorization| ==> IsWhiteSpace(authorization[k]))
              && (i < |authorization| ==> t != [])
    ensures t == [] || (!IsWhiteSpace(t[0]) && !IsWhiteSpace(t[|t| - 1]))
  {
    Trim(DropFirst(authorization, 7))
  }

  /**
   * getUserIdFromAuthHeader: the user id of a valid access token carried in a
   * header that starts with "Bearer"; None in every other case, including a
   * verification failure, which never escapes as an error.
   */
  function GetUserIdFromAuthHeader(authorization: Option<string>, verify: string -> Option<Payload>): (r: Option<string>)
    ensures r.Some? <==>
              && authorization.Some? && StartsWith(authorization.value, BearerScheme)
              && verify(ExtractToken(authorization.value)).Some?
              && verify(ExtractToken(authorization.value)).value.id != ""
              && verify(ExtractToken(authorization.value)).value.access
    ensures r.Some? ==> r.value != "" && r.value == verify(ExtractToken(authorization.value)).value.id
  {
    if authorization.Some? && StartsWith(authorization.value, BearerScheme) then
      match verify(ExtractToken(authorization.value))
      case None => None
      case Some(decoded) => if decoded.id != "" && decoded.access then Some(decoded.id) else None
    else
      None
  }

  /** `verify` accepts the token `sign` produced for `c` and decodes its payload; the token has no white space at its ends. */
  predicate RoundTrips(sign: Claims -> string, verify: string -> Option<Payload>, c: Claims)
  {
    var t := sign(c);
    verify(t) == Some(c.payload) && (t == [] || (!IsWhiteSpace(t[0]) && !IsWhiteSpace(t[|t| - 1])))
  }

  /** The token is whatever follows "Bearer" and any one separator character, trimmed. */
  lemma {:induction false} ExtractAfterScheme(separator: char, token: string)
    requires token == [] || (!IsWhiteSpace(token[0]) && !IsWhiteSpace(token[|token| - 1]))
    ensures ExtractToken(BearerScheme + [separator] + token) == token
  {
    var h := BearerScheme + [separator] + token;
    assert DropFirst(h, 7) == token;
    TrimKeepsTrimmed(token);
  }

  /** A header that starts with "Bearer" and carries a verified access payload with an id yields that id. */
  lemma AcceptedHeader(authorization: string, verify: string -> Option<Payload>, p: Payload)
    requires StartsWith(authorization, BearerScheme)
    requires verify(ExtractToken(authorization)) == Some(p) && p.id != "" && p.access
    ensures GetUserIdFromAuthHeader(Some(authorization), verify) == Some(p.id)
  {
  }

  /** A fresh access token for a non-empty id, sent as "Bearer <token>", identifies that user. */
  lemma {:induction false} AccessTokenIdentifiesUser(sign: Claims -> string, verify: string -> Option<Payload>, userId: string, separator: char)
    requires RoundTrips(sign, verify, AccessClaims(userId))
    requires userId != ""
    ensures GetUserIdFromAuthHeader(Some(BearerScheme + [separator] + GenerateAccessToken(sign, userId)), verify) == Some(userId)
  {
    var t := GenerateAccessToken(sign, userId);
    var h := BearerScheme + [separator] + t;
    assert h[..|BearerScheme|] == BearerScheme;
    ExtractAfterScheme(separator, t);
    AcceptedHeader(h, verify, AccessClaims(userId).payload);
  }

  /** A refresh token is never accepted as an access token. */
  lemma {:induction false} RefreshTokenIsNoAccessToken(sign: Claims -> string, verify: string -> Option<Payload>, userId: string, separator: char)
    requires RoundTrips(sign, verify, RefreshClaims(userId))
    ensures GetUserIdFromAuthHeader(Some(BearerScheme + [separator] + GenerateRefreshToken(sign, userId)), verify) == None
  {
    ExtractAfterScheme(separator, GenerateRefreshToken(sign, userId));
  }

  /** The options given to cookie.serialize. */
  datatype CookieOptions = CookieOptions(httpOnly: bool, secure: bool, maxAge: nat, path: string)

  /** The `refreshToken` cookie that cookie.serialize renders. */
  datatype SetCookie = SetCookie(name: string, value: string, options: CookieOptions)

  /**
   * serializeRefreshToken: an http-only, secure cookie on path "/" that
   * expires at once when `immediate` and otherwise lives exactly as long as a
   * refresh token.
   */
  function SerializeRefreshToken(refreshToken: string, immediate: bool): (c: SetCookie)
    ensures c.name == "refreshToken" && c.value == refreshToken
    ensures c.options.httpOnly && c.options.secure && c.options.path == "/"
    ensures c.options.maxAge == 0 <==> immediate
    ensures !immediate ==> c.options.maxAge == RefreshClaims(c.value).expiresIn
  {
    SetCookie("refreshToken", refreshToken,
      CookieOptions(true, true, if immediate then 0 else 7 * 24 * 60 * 60, "/"))
  }
}
