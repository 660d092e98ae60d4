/**
 * Reading a token back from a request, and the admission decisions built on
 * it: IsGranted, IsOwner and the condition of the GateKeeper middleware.
 * Signature checking and claim decoding belong to the JWT library and are
 * parameters here.
 */
module Tokens {
  import opened AccessTypes

  /** The `Authorization: Bearer <token>` form of section 2.1 of RFC 6750. */
  const BEARER_PREFIX: string := "Bearer "

  /**
   * The parts of an http.Request the core reads: the first Authorization
   * header value ("" when absent), the cookies by name, and RemoteAddr.
   */
  datatype Request = Request(authorization: string, cookies: map<string, string>, remoteAddr: string)

  /** The JWT library: jwt.Passes and jwt.GetClaims. */
  datatype Jwt = Jwt(passes: string -> bool, claims: string -> map<string, Value>)

  /** strings.TrimPrefix: drop one leading copy of `prefix`, if present. */
  function TrimPrefix(s: string, prefix: string): (r: string)
    ensures prefix <= s ==> prefix + r == s
    ensures !(prefix <= s) ==> r == s
  {
    if prefix <= s then s[|prefix|..] else s
  }

  /** getToken: where the token sits depends on the transport. */
  function GetToken(req: Request, store: Transport): (r: Result<string>)
    ensures store == Header ==> r.Ok?
    ensures store == Header && BEARER_PREFIX <= req.authorization ==>
              BEARER_PREFIX + r.value == req.authorization
    ensures store == Header && !(BEARER_PREFIX <= req.authorization) ==>
              r.value == req.authorization
    ensures store == Cookie ==> (r.Ok? <==> ACCESS_COOKIE in req.cookies)
    ensures store == Cookie && r.Ok? ==> r.value == req.cookies[ACCESS_COOKIE]
    ensures store == Cookie && r.Err? ==> r.error == NoCookie
    ensures store == Other ==> r == Err(UnrecognizedTokenStore)
  {
    match store
    case Cookie =>
      if ACCESS_COOKIE in req.cookies then Ok(req.cookies[ACCESS_COOKIE]) else Err(NoCookie)
    case Header => Ok(TrimPrefix(req.authorization, BEARER_PREFIX))
    case Other => Err(UnrecognizedTokenStore)
  }

  /** IsGranted: a token can be read and its signature and expiry pass. */
  predicate IsGranted(req: Request, store: Transport, jwt: Jwt): (g: bool)
    ensures store == Header ==> (g <==> jwt.passes(TrimPrefix(req.authorization, BEARER_PREFIX)))
    ensures store == Cookie ==>
              (g <==> ACCESS_COOKIE in req.cookies && jwt.passes(req.cookies[ACCESS_COOKIE]))
    ensures store == Other ==> !g
  {
    var t := GetToken(req, store);
    t.Ok? && jwt.passes(t.value)
  }

  /**
   * IsOwner: as IsGranted, and the `access` claim is exactly `key`. A claim that
   * is missing or not a string makes the source's type assertion panic, which
   * ends the request without access; it is modelled as `false`.
   */
  predicate IsOwner(req: Request, store: Transport, key: string, jwt: Jwt): (o: bool)
    ensures o ==> IsGranted(req, store, jwt)
    ensures o ==> var claims := jwt.claims(GetToken(req, store).value);
                  ACCESS_CLAIM in claims && claims[ACCESS_CLAIM] == Str(key)
    ensures store == Other ==> !o
  {
    match GetToken(req, store)
    case Err(_) => false
    case Ok(t) =>
      if !jwt.passes(t) then false
      else
        var claims := jwt.claims(t);
        ACCESS_CLAIM in claims && claims[ACCESS_CLAIM] == Str(key)
  }

  /** A request whose token cannot be read is neither granted nor owned. */
  lemma NoTokenNoAccess(req: Request, store: Transport, key: string, jwt: Jwt)
    requires GetToken(req, store).Err?
    ensures !IsGranted(req, store, jwt) && !IsOwner(req, store, key, jwt)
  {
  }

  /** Ownership is a grant plus an exact, case-sensitive match of the `access` claim. */
  lemma OwnerIffGrantedAndClaimMatches(req: Request, store: Transport, key: string, jwt: Jwt)
    ensures IsOwner(req, store, key, jwt) <==>
              IsGranted(req, store, jwt)
              && ACCESS_CLAIM in jwt.claims(GetToken(req, store).value)
              && jwt.claims(GetToken(req, store).value)[ACCESS_CLAIM] == Str(key)
  {
  }

  /** One token owns at most one key. */
  lemma OwnerIsUnique(req: Request, store: Transport, k1: string, k2: string, jwt: Jwt)
    requires IsOwner(req, store, k1, jwt) && IsOwner(req, store, k2, jwt)
    ensures k1 == k2
  {
  }

  /** strings.Index for a one-character needle: the first position of `c`, or -1. */
  function IndexOf(s: string, c: char): (i: int)
    ensures -1 <= i < |s|
    ensures i == -1 <==> c !in s
    ensures i >= 0 ==> s[i] == c && c !in s[..i]
  {
    if |s| == 0 then -1
    else if s[0] == c then 0
    else
      var j := IndexOf(s[1..], c);
      if j == -1 then -1
      else
        assert s[..j + 1] == [s[0]] + s[1..][..j];
        j + 1
  }

  /** trimPortFromAddress: everything before the first ':' of the address. */
  function TrimPortFromAddress(s: string): (r: string)
    ensures ':' !in r
    ensures r <= s
    ensures ':' !in s ==> r == s
    ensures ':' in s ==> |r| < |s| && s[|r|] == ':'
  {
    var idx := IndexOf(s, ':');
    if idx != -1 then s[..idx] else s
  }

  lemma TrimPortIdempotent(s: string)
    ensures TrimPortFromAddress(TrimPortFromAddress(s)) == TrimPortFromAddress(s)
  {
  }

  /**
   * The GateKeeper condition: a header-borne token that passes, a valid admin
   * session (user.IsValid, a parameter that sees the whole request, cookies
   * included), or a remote address whose host part is the configured bind
   * address.
   */
  predicate Admit(req: Request, jwt: Jwt, isValid: Request -> bool, bindAddr: string): (a: bool)
    ensures a <==> jwt.passes(TrimPrefix(req.authorization, BEARER_PREFIX))
                   || isValid(req)
                   || TrimPortFromAddress(req.remoteAddr) == bindAddr
  {
    IsGranted(req, Header, jwt) || isValid(req) || TrimPortFromAddress(req.remoteAddr) == bindAddr
  }

  /** A request is turned away only when all three grounds fail. */
  lemma DenyMeansNoGround(req: Request, jwt: Jwt, isValid: Request -> bool, bindAddr: string)
    requires !Admit(req, jwt, isValid, bindAddr)
    ensures !jwt.passes(TrimPrefix(req.authorization, BEARER_PREFIX))
    ensures !isValid(req)
    ensures TrimPortFromAddress(req.remoteAddr) != bindAddr
  {
  }

  /**
   * The gate reads its token from the header only, so cookies reach its
   * decision through the session check alone: with the session check giving
   * the same answer, replacing the cookies does not change the decision.
   */
  lemma GateCookiesOnlyThroughSession(req: Request, cookies: map<string, string>, jwt: Jwt,
                                      isValid: Request -> bool, bindAddr: string)
    ensures IsGranted(req.(cookies := cookies), Header, jwt) == IsGranted(req, Header, jwt)
    ensures isValid(req.(cookies := cookies)) == isValid(req) ==>
              Admit(req.(cookies := cookies), jwt, isValid, bindAddr)
              == Admit(req, jwt, isValid, bindAddr)
  {
  }

  /** The host part ends at the first ':', wherever that is. */
  lemma TrimPortAtFirstColon(s: string, i: nat)
    requires i < |s| && s[i] == ':' && ':' !in s[..i]
    ensures TrimPortFromAddress(s) == s[..i]
  {
  }

  /** A tokenless request from the bind address on any port is admitted, whatever the session check says. */
  lemma TrustedOriginAdmitted(jwt: Jwt, isValid: Request -> bool)
    ensures Admit(Request("", map[], "127.0.0.1:9000"), jwt, isValid, "127.0.0.1")
  {
    var addr := "127.0.0.1:9000";
    assert addr[..9] == "127.0.0.1";
    assert ':' !in addr[..9];
    TrimPortAtFirstColon(addr, 9);
  }
}
