/** The `authenticate` middleware: the `Authorization: Bearer <token>` header of section
    2.1 of RFC 6750 (the scheme name matched case-sensitively), the token taken out with
    `split('Bearer ')[1]`, the ID-token verifier (an input), and the mapping of the
    verifier's error codes to 401 replies. */
module Auth {
  import opened Values

  const BearerPrefix := "Bearer "
  const HeaderError := "Authorization header missing or invalid"
  const TokenExpiredCode := "auth/id-token-expired"
  const ArgumentErrorCode := "auth/argument-error"
  const TokenExpired := "Token expired"
  const InvalidTokenFormat := "Invalid token format"
  const AuthenticationFailed := "Authentication failed"
  const DefaultErrorCode := "authentication_error"

  /** `s.startsWith(p)`. */
  predicate StartsWith(s: string, p: string)
  {
    |p| <= |s| && s[..|p|] == p
  }

  /** `pat` occurs in `s` at index `i`. */
  predicate OccursAt(s: string, pat: string, i: nat)
  {
    i + |pat| <= |s| && s[i..i + |pat|] == pat
  }

  /** The index of the first occurrence of `pat` in `s`, the search `split` makes. */
  function IndexOf(s: string, pat: string): (r: Option<nat>)
    ensures r.Some? ==> OccursAt(s, pat, r.value) && forall i: nat :: i < r.value ==> !OccursAt(s, pat, i)
    ensures r.None? ==> forall i: nat :: i <= |s| ==> !OccursAt(s, pat, i)
    decreases |s|
  {
    if StartsWith(s, pat) then Some(0)
    else if s == [] then None
    else
      match IndexOf(s[1..], pat)
      case None =>
        assert forall i: nat :: 0 < i <= |s| ==> (OccursAt(s, pat, i) <==> OccursAt(s[1..], pat, i - 1));
        None
      case Some(j) =>
        assert forall i: nat :: 0 < i <= |s| ==> (OccursAt(s, pat, i) <==> OccursAt(s[1..], pat, i - 1));
        Some(j + 1)
  }

  /** `s.split(sep)[1]` for a non-empty separator: the text between the first occurrence of
      `sep` and the next one (or the end); `undefined` when `sep` does not occur. */
  function SplitSecond(s: string, sep: string): Option<string>
    requires sep != []
  {
    match IndexOf(s, sep)
    case None => None
    case Some(i) =>
      var rest := s[i + |sep|..];
      match IndexOf(rest, sep)
      case None => Some(rest)
      case Some(j) => Some(rest[..j])
  }

  /** The token `authenticate` hands to the verifier: what follows the leading `Bearer `,
      up to the next `Bearer ` or the end of the header. */
  function BearerToken(header: string): (token: string)
    requires StartsWith(header, BearerPrefix)
    ensures var rest := header[|BearerPrefix|..];
      && StartsWith(rest, token)
      && (forall i: nat :: i < |token| ==> !OccursAt(rest, BearerPrefix, i))
      && (|token| == |rest| || OccursAt(rest, BearerPrefix, |token|))
  {
    assert OccursAt(header, BearerPrefix, 0);
    SplitSecond(header, BearerPrefix).value
  }

  /** A header built from a token that holds no `Bearer ` gives that token back. */
  lemma BearerTokenRoundTrip(token: string)
    requires forall i: nat :: !OccursAt(token, BearerPrefix, i)
    ensures StartsWith(BearerPrefix + token, BearerPrefix)
    ensures BearerToken(BearerPrefix + token) == token
  {
  }

  /** The message of the 401 reply for a verifier error code. */
  function ErrorMessage(code: Option<string>): (m: string)
    ensures m == TokenExpired <==> code == Some(TokenExpiredCode)
    ensures m == InvalidTokenFormat <==> code == Some(ArgumentErrorCode)
    ensures m == TokenExpired || m == InvalidTokenFormat || m == AuthenticationFailed
  {
    if code == Some(TokenExpiredCode) then TokenExpired
    else if code == Some(ArgumentErrorCode) then InvalidTokenFormat
    else AuthenticationFailed
  }

  /** The `code` of the 401 reply: the verifier's code, or `authentication_error` when it
      gave none (or an empty one). */
  function ErrorCode(code: Option<string>): (c: string)
    ensures c != ""
    ensures Truthy(code) ==> c == code.value
    ensures !Truthy(code) ==> c == DefaultErrorCode
  {
    OrDefault(code, DefaultErrorCode)
  }

  /** A verified ID token: the uid, the email (absent when the account has none) and the
      token's other claims. */
  datatype DecodedToken = DecodedToken(uid: string, email: Option<string>, claims: map<string, string>)

  /** `req.user`; `email: None` stands for `null`. */
  datatype User = User(uid: string, email: Option<string>, claims: map<string, string>)

  /** What the verifier does with a token: decode it, or throw an error with an optional code
      (an uninitialised auth service throws one without a code). */
  datatype Verdict = Decoded(token: DecodedToken) | Rejected(code: Option<string>)

  /** `Next(user)`: `req.user` is set and `next()` is called once. `Unauthorized`: the
      401 JSON reply (`code` absent for a bad header) and `next()` is not called. */
  datatype AuthResult = Next(user: User) | Unauthorized(error: string, code: Option<string>)

  /** The middleware. `verifyIdToken` is the identity service; `verified` is the token it was
      asked about, `None` when it was not consulted. */
  method Authenticate(header: Option<string>, verifyIdToken: string -> Verdict)
    returns (result: AuthResult, verified: Option<string>)
    // a missing or non-Bearer header is refused before the verifier is consulted
    ensures verified.None? <==> header.None? || !StartsWith(header.value, BearerPrefix)
    ensures verified.None? ==> result == Unauthorized(HeaderError, None)
    ensures verified.Some? ==> verified.value == BearerToken(header.value)
    // `next` is called exactly when the verifier accepts the token
    ensures result.Next? <==> verified.Some? && verifyIdToken(verified.value).Decoded?
    ensures result.Next? ==>
      var d := verifyIdToken(verified.value).token;
      result.user == User(d.uid, d.email, d.claims)
    // a token the verifier refuses gives the 401 reply built from its error code
    ensures verified.Some? && verifyIdToken(verified.value).Rejected? ==>
      var code := verifyIdToken(verified.value).code;
      result == Unauthorized(ErrorMessage(code), Some(ErrorCode(code)))
  {
    if header.None? || header.value == "" || !StartsWith(header.value, BearerPrefix) {
      return Unauthorized(HeaderError, None), None;
    }
    var idToken := SplitSecond(header.value, BearerPrefix).value;
    verified := Some(idToken);
    match verifyIdToken(idToken)
    case Decoded(decodedToken) =>
      result := Next(User(decodedToken.uid, decodedToken.email, decodedToken.claims));
    case Rejected(code) =>
      var errorMessage := AuthenticationFailed;
      if code == Some(TokenExpiredCode) {
        errorMessage := TokenExpired;
      } else if code == Some(ArgumentErrorCode) {
        errorMessage := InvalidTokenFormat;
      }
      result := Unauthorized(errorMessage, Some(OrDefault(code, DefaultErrorCode)));
  }
}
