/**
 * Session handling: token decryption that yields nothing instead of throwing, the
 * session lookup, the sliding renewal of the session cookie, and user validation.
 * Signing and verifying tokens are parameters: `verify` stands for `jwtVerify`
 * with the server's key, `sign` for `encrypt`.
 */
module Auth {
  import opened Wrappers

  /** The identity claims a verified token carries, and the expiry a renewal sets. */
  datatype Claims = Claims(userId: string, email: string, name: string, expires: Option<int>)

  /** What verifying a token gives: its claims, or the error the verifier throws. */
  datatype Verified = Valid(claims: Claims) | Invalid(reason: string)

  /** `!value` for an optional string: missing or empty. */
  predicate Falsy(value: Option<string>) {
    value.None? || value.value == []
  }

  /** `decrypt`: the token's claims, or nothing when verification fails. */
  function Decrypt(verify: string -> Verified, token: string): (r: Option<Claims>)
    ensures r.None? <==> verify(token).Invalid?
    ensures r.Some? ==> verify(token) == Valid(r.value)
  {
    match verify(token)
    case Valid(claims) => Some(claims)
    case Invalid(_) => None
  }

  /** `getSession`: no claims without a token cookie, otherwise whatever `decrypt` gives. */
  function GetSession(tokenCookie: Option<string>, verify: string -> Verified): (r: Option<Claims>)
    ensures Falsy(tokenCookie) ==> r.None?
    ensures !Falsy(tokenCookie) ==> r == Decrypt(verify, tokenCookie.value)
  {
    if Falsy(tokenCookie) then None else Decrypt(verify, tokenCookie.value)
  }

  /** Twenty-four hours in milliseconds. */
  const DayMs: int := 24 * 60 * 60 * 1000

  datatype Cookie = Cookie(value: string, expires: Option<int>)

  /** The response cookie store that `cookies().set` writes. */
  class CookieStore {
    var cookies: map<string, Cookie>

    constructor (cookies: map<string, Cookie>)
      ensures this.cookies == cookies
    {
      this.cookies := cookies;
    }

    /**
     * `updateSession`: a missing or undecryptable session cookie changes nothing;
     * otherwise the claims get an expiry one day from `now` and are re-signed into
     * the 'session' cookie with that expiry. Returns the renewed claims.
     */
    method UpdateSession(requestSession: Option<string>, now: int, verify: string -> Verified, sign: Claims -> string)
      returns (renewed: Option<Claims>)
      modifies this
      ensures Falsy(requestSession) ==> renewed.None?
      ensures !Falsy(requestSession) ==> (renewed.None? <==> Decrypt(verify, requestSession.value).None?)
      ensures renewed.None? ==> cookies == old(cookies)
      ensures renewed.Some? ==>
        renewed.value == Decrypt(verify, requestSession.value).value.(expires := Some(now + 86400000))
        && cookies == old(cookies)["session" := Cookie(sign(renewed.value), Some(now + 86400000))]
    {
      if Falsy(requestSession) {
        return None;
      }
      var parsed := Decrypt(verify, requestSession.value);
      if parsed.None? {
        return None;
      }
      var claims := parsed.value.(expires := Some(now + DayMs));
      var res := sign(claims);
      cookies := cookies["session" := Cookie(res, claims.expires)];
      renewed := Some(claims);
    }
  }

  /** A user record as the client may hold it; a field may be missing. */
  datatype User = User(id: string, email: Option<string>, name: Option<string>)

  /** `validateUser`: a user is valid iff it exists and has a non-empty email and name. */
  function ValidateUser(user: Option<User>): (ok: bool)
    ensures user.None? ==> !ok
    ensures user.Some? && (Falsy(user.value.email) || Falsy(user.value.name)) ==> !ok
    ensures user.Some? && !Falsy(user.value.email) && !Falsy(user.value.name) ==> ok
  {
    if user.None? || Falsy(user.value.email) || Falsy(user.value.name) then false else true
  }
}
