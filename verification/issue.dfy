/**
 * Token issuance: APIAccess.setToken builds the claim set, signs it, keeps the
 * token on the grant and writes it to the response as a header or a cookie.
 * The response writer records what it was asked to write.
 */
module Issue {
  import opened AccessTypes
  import Tokens

  /** Go's time values count nanoseconds; the `exp` claim counts seconds. */
  const NANOS_PER_SECOND: int := 1_000_000_000

  datatype HttpCookie = HttpCookie(name: string, value: string, expires: int, path: string,
                                   httpOnly: bool, secure: bool)

  /** One thing written to the response before its body. */
  datatype Emission = HeaderAdded(name: string, value: string) | CookieSet(cookie: HttpCookie)

  /** An http.ResponseWriter, reduced to the headers and cookies added to it. */
  class ResponseWriter {
    var emitted: seq<Emission>

    constructor ()
      ensures emitted == []
    {
      emitted := [];
    }

    /** Header().Add: appends a header line. */
    method AddHeader(name: string, value: string)
      modifies this
      ensures emitted == old(emitted) + [HeaderAdded(name, value)]
    {
      emitted := emitted + [HeaderAdded(name, value)];
    }

    /** http.SetCookie: appends a Set-Cookie line. */
    method SetCookie(c: HttpCookie)
      modifies this
      ensures emitted == old(emitted) + [CookieSet(c)]
    {
      emitted := emitted + [CookieSet(c)];
    }
  }

  /**
   * Config: token lifetime (nanoseconds), the response to write to, the
   * transport, the custom claims and the cookie's Secure flag.
   */
  datatype Config = Config(expireAfter: int, writer: ResponseWriter, tokenStore: Transport,
                           customClaims: map<string, Value>, secureCookie: bool)

  /**
   * The claims setToken writes itself: `exp`, the expiration time of section
   * 4.1.4 of RFC 7519 in whole seconds (time.Time.Unix), and `access`, the key.
   */
  function BaseClaims(key: string, exp: int): (m: map<string, Value>)
    ensures m.Keys == {EXP_CLAIM, ACCESS_CLAIM}
    ensures m[ACCESS_CLAIM] == Str(key)
    ensures m[EXP_CLAIM] == Num(exp / NANOS_PER_SECOND)
  {
    map[EXP_CLAIM := Num(exp / NANOS_PER_SECOND), ACCESS_CLAIM := Str(key)]
  }

  /** A custom claim reuses one of the internal claim names. */
  predicate Collides(custom: map<string, Value>) {
    EXP_CLAIM in custom || ACCESS_CLAIM in custom
  }

  /** The claim set signed for `key` when the custom claims do not collide. */
  function TokenClaims(key: string, exp: int, custom: map<string, Value>): (c: map<string, Value>)
    requires !Collides(custom)
    ensures c.Keys == custom.Keys + {EXP_CLAIM, ACCESS_CLAIM}
    ensures c[ACCESS_CLAIM] == Str(key)
    ensures c[EXP_CLAIM] == Num(exp / NANOS_PER_SECOND)
    ensures forall k :: k in custom ==> c[k] == custom[k]
  {
    BaseClaims(key, exp) + custom
  }

  /**
   * The loop of setToken that copies the custom claims into the claim map, in
   * the map's (unspecified) iteration order, stopping at the first name the
   * map already holds.
   */
  method MergeClaims(base: map<string, Value>, custom: map<string, Value>)
    returns (r: Result<map<string, Value>>)
    ensures r.Ok? <==> base.Keys !! custom.Keys
    ensures r.Ok? ==> r.value == base + custom
    ensures r.Err? ==> r.error.ClaimCollision? && r.error.claim in base && r.error.claim in custom
  {
    var claims := base;
    var remaining := custom.Keys;
    while remaining != {}
      invariant remaining <= custom.Keys
      invariant base.Keys !! (custom.Keys - remaining)
      invariant claims.Keys == base.Keys + (custom.Keys - remaining)
      invariant forall k :: k in base ==> claims[k] == base[k]
      invariant forall k :: k in custom && k !in remaining ==> claims[k] == custom[k]
      decreases remaining
    {
      var k :| k in remaining;
      if k in claims {
        return Err(ClaimCollision(k));
      }
      claims := claims[k := custom[k]];
      remaining := remaining - {k};
    }
    assert claims == base + custom;
    r := Ok(claims);
  }

  /** The absolute expiry of a token issued at `now`. */
  function ExpiresAt(now: int, cfg: Config): int {
    now + cfg.expireAfter
  }

  /** The token jwt.New produces for this issuance, if the claims are accepted and signing works. */
  function Signed(key: string, now: int, cfg: Config, sign: map<string, Value> -> Option<string>): Option<string> {
    if Collides(cfg.customClaims) then None
    else sign(TokenClaims(key, ExpiresAt(now, cfg), cfg.customClaims))
  }

  /** setToken succeeds: a token was signed and the transport is a header or a cookie. */
  predicate Issues(key: string, now: int, cfg: Config, sign: map<string, Value> -> Option<string>) {
    Signed(key, now, cfg, sign).Some? && cfg.tokenStore != Other
  }

  /** What one transport writes for a signed token. */
  function Emitted(store: Transport, token: string, exp: int, secure: bool): seq<Emission> {
    match store
    case Header => [HeaderAdded("Authorization", Tokens.BEARER_PREFIX + token)]
    case Cookie => [CookieSet(HttpCookie(ACCESS_COOKIE, token, exp, "/", true, secure))]
    case Other => []
  }

  /** Everything setToken writes to the response. */
  function IssueEmits(key: string, now: int, cfg: Config, sign: map<string, Value> -> Option<string>): seq<Emission> {
    match Signed(key, now, cfg, sign)
    case None => []
    case Some(t) => Emitted(cfg.tokenStore, t, ExpiresAt(now, cfg), cfg.secureCookie)
  }

  /** A client that sends back what it was given, as the next request. */
  function Replay(e: Emission, remoteAddr: string): Tokens.Request {
    match e
    case HeaderAdded(name, value) =>
      if name == "Authorization" then Tokens.Request(value, map[], remoteAddr)
      else Tokens.Request("", map[], remoteAddr)
    case CookieSet(c) => Tokens.Request("", map[c.name := c.value], remoteAddr)
  }

  /**
   * What setToken promises: one emission on success, carrying the signed token
   * so that getToken with the same transport reads it back unchanged; a cookie
   * is HttpOnly, follows SecureCookie and expires when the `exp` claim does.
   */
  lemma IssuedTokenReadsBack(key: string, now: int, cfg: Config,
                             sign: map<string, Value> -> Option<string>, remoteAddr: string)
    requires Issues(key, now, cfg, sign)
    ensures var emits := IssueEmits(key, now, cfg, sign);
            var token := Signed(key, now, cfg, sign).value;
            |emits| == 1
            && Tokens.GetToken(Replay(emits[0], remoteAddr), cfg.tokenStore) == Ok(token)
            && (cfg.tokenStore == Cookie ==>
                  emits[0].CookieSet? && emits[0].cookie.httpOnly
                  && emits[0].cookie.secure == cfg.secureCookie
                  && Num(emits[0].cookie.expires / NANOS_PER_SECOND)
                     == TokenClaims(key, ExpiresAt(now, cfg), cfg.customClaims)[EXP_CLAIM])
  {
  }

  /** A colliding custom claim means nothing is signed and nothing is written. */
  lemma CollisionWritesNothing(key: string, now: int, cfg: Config,
                               sign: map<string, Value> -> Option<string>)
    requires Collides(cfg.customClaims)
    ensures !Issues(key, now, cfg, sign) && IssueEmits(key, now, cfg, sign) == []
  {
  }

  /** An API access grant as handed to the caller: record fields plus the last token. */
  class APIAccess {
    var key: string
    var hash: string
    var salt: string
    var token: string

    constructor (rec: Record)
      ensures key == rec.email && hash == rec.hash && salt == rec.salt && token == ""
    {
      key, hash, salt, token := rec.email, rec.hash, rec.salt, "";
    }

    /**
     * setToken. Only the token field and the response change. A collision or a
     * signing failure returns before either; an unrecognised transport returns
     * an error after the token field has been set.
     */
    method SetToken(cfg: Config, now: int, sign: map<string, Value> -> Option<string>)
      returns (r: Outcome)
      modifies this`token, cfg.writer
      ensures r.Pass? <==> Issues(key, now, cfg, sign)
      ensures Collides(cfg.customClaims) ==>
                token == old(token) && r.Fail? && r.error.ClaimCollision?
                && r.error.claim in cfg.customClaims && r.error.claim in {EXP_CLAIM, ACCESS_CLAIM}
      ensures !Collides(cfg.customClaims) && Signed(key, now, cfg, sign).None? ==>
                token == old(token) && r == Fail(SignFailed)
      ensures Signed(key, now, cfg, sign).Some? ==>
                token == Signed(key, now, cfg, sign).value
                && (cfg.tokenStore == Other ==> r == Fail(UnrecognizedTokenStore))
      ensures cfg.writer.emitted == old(cfg.writer.emitted) + IssueEmits(key, now, cfg, sign)
    {
      var exp := now + cfg.expireAfter;
      var merged := MergeClaims(BaseClaims(key, exp), cfg.customClaims);
      if merged.Err? {
        return Fail(merged.error);
      }
      var signed := sign(merged.value);
      if signed.None? {
        return Fail(SignFailed);
      }
      token := signed.value;
      match cfg.tokenStore {
        case Header =>
          cfg.writer.AddHeader("Authorization", Tokens.BEARER_PREFIX + token);
          r := Pass;
        case Cookie =>
          cfg.writer.SetCookie(HttpCookie(ACCESS_COOKIE, token, exp, "/", true, cfg.secureCookie));
          r := Pass;
        case Other =>
          r := Fail(UnrecognizedTokenStore);
      }
    }
  }
}
