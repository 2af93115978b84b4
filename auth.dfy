/** Request authentication of the Python backend: the process-wide JWKS
    cache with its one-hour freshness rule, Bearer-header parsing, the
    selection of the signing key by `kid`, and the ordered checks of
    `require_user`, every failure of the verification step surfacing as
    "Invalid token".  The JWT library is an oracle: `headerOf` reads the
    unverified token header (absent when it raises) and `decode` checks
    signature and claims (absent when it raises). */
module Auth {
  import opened Wrappers
  import opened Js

  const JwksMaxAge := 3600
  const DefaultAlgorithm := "RS256"
  const BearerPrefix := "Bearer "

  datatype HttpError = HttpError(status: int, detail: string)

  const NotConfigured := HttpError(500, "Clerk not configured")
  const MissingHeader := HttpError(401, "Missing Authorization header")
  const JwksFetchFailed := HttpError(401, "Failed to fetch JWKS")
  const InvalidToken := HttpError(401, "Invalid token")

  /** One JSON Web Key: its `kid` and `alg` members (absent or present)
      and how many other members it has. */
  datatype Jwk = Jwk(kid: Option<string>, alg: Option<string>, otherMembers: nat)

  /** A JWKS document: its `keys` member and how many other members it has. */
  datatype Jwks = Jwks(keys: Option<seq<Jwk>>, otherMembers: nat)

  /** A dict is truthy in Python iff it has a member. */
  predicate JwkTruthy(k: Jwk) {
    k.kid.Some? || k.alg.Some? || k.otherMembers > 0
  }

  predicate JwksTruthy(j: Jwks) {
    j.keys.Some? || j.otherMembers > 0
  }

  /** `jwks.get("keys", [])` */
  function KeysOf(j: Jwks): seq<Jwk> {
    j.keys.GetOr([])
  }

  datatype TokenHeader = TokenHeader(kid: Option<string>)
  datatype Claims = Claims(sub: Option<string>, others: map<string, string>)
  datatype User = User(userId: Option<string>, claims: Claims)

  /** What the JWKS endpoint answered. */
  datatype JwksFetch = JwksFetch(status: int, body: Jwks)

  /** The process environment as read at import time. */
  datatype Config = Config(issuer: Option<string>, jwksUrl: Option<string>, audience: string)

  /** The audience expected when `CLERK_AUDIENCE` is unset. */
  const DefaultAudience := "decky-api"

  /** The three module-level `os.getenv` reads; only the audience has a
      default, and a variable set to the empty string keeps its value. */
  function ConfigFromEnv(issuer: Option<string>, jwksUrl: Option<string>, audience: Option<string>): (c: Config)
    ensures c.issuer == issuer && c.jwksUrl == jwksUrl
    ensures audience.None? ==> c.audience == DefaultAudience
    ensures audience.Some? ==> c.audience == audience.value
  {
    Config(issuer, jwksUrl, audience.GetOr(DefaultAudience))
  }

  /** The arguments `jwt.decode` is called with. */
  datatype DecodeRequest = DecodeRequest(token: string, key: Jwk, algorithm: string, audience: string, issuer: string)

  /** The cache rule of `_get_jwks`: cached keys are served while they are
      truthy and were fetched less than an hour before `now`. */
  predicate IsFresh(keys: Option<Jwks>, fetchedAt: int, now: int): (r: bool)
    ensures r ==> keys.Some? && JwksTruthy(keys.value)
    ensures keys.Some? && JwksTruthy(keys.value) ==> (r <==> now < fetchedAt + JwksMaxAge)
  {
    keys.Some? && JwksTruthy(keys.value) && now - fetchedAt < JwksMaxAge
  }

  /** The dict returned by `_jwks_cache`, shared by every request. */
  class JwksCache {
    var keys: Option<Jwks>
    var fetchedAt: int

    constructor ()
      ensures keys == None && fetchedAt == 0
    {
      keys := None;
      fetchedAt := 0;
    }

    /** `_get_jwks`; `fetched` tells whether the endpoint was called. */
    method GetJwks(now: int, fetch: JwksFetch) returns (r: Result<Jwks, HttpError>, fetched: bool)
      modifies this
      ensures fetched <==> !old(IsFresh(keys, fetchedAt, now))
      ensures !fetched ==> r == Success(old(keys).value) && keys == old(keys) && fetchedAt == old(fetchedAt)
      ensures fetched && fetch.status == 200 ==>
        r == Success(fetch.body) && keys == Some(fetch.body) && fetchedAt == now
      ensures fetched && fetch.status != 200 ==>
        r == Failure(JwksFetchFailed) && keys == old(keys) && fetchedAt == old(fetchedAt)
    {
      if IsFresh(keys, fetchedAt, now) {
        return Success(keys.value), false;
      }
      fetched := true;
      if fetch.status != 200 {
        return Failure(JwksFetchFailed), fetched;
      }
      keys := Some(fetch.body);
      fetchedAt := now;
      r := Success(fetch.body);
    }
  }

  /** A successful fetch of a truthy document serves every request of the
      following hour from the cache (and any request stamped earlier). */
  lemma FetchedKeysServeForAnHour(body: Jwks, fetchedAt: int, now: int)
    requires JwksTruthy(body)
    ensures IsFresh(Some(body), fetchedAt, now) <==> now < fetchedAt + JwksMaxAge
  {
  }

  /** `auth_header.split(" ", 1)[1]`: the text after the first space. */
  function AfterFirstSpace(s: string): string
    requires ' ' in s
  {
    s[IndexOf(s, ' ').value + 1..]
  }

  /** The header check of `require_user` and the token it extracts. */
  function BearerToken(header: Option<string>): (r: Result<string, HttpError>)
    ensures r.Success? <==> Truthy(header) && StartsWith(header.value, BearerPrefix)
    ensures r.Failure? ==> r.error == MissingHeader
    ensures r.Success? ==> r.value == header.value[|BearerPrefix|..]
  {
    if !Truthy(header) || !StartsWith(header.value, BearerPrefix) then Failure(MissingHeader)
    else
      var h := header.value;
      assert h == "Bearer" + [' '] + h[7..] by {
        assert h[..7] == "Bearer ";
      }
      IndexOfAfterPrefix("Bearer", ' ', h[7..]);
      Success(AfterFirstSpace(h))
  }

  /** The token that BearerToken extracts is exactly what followed the prefix. */
  lemma BearerTokenRoundTrip(token: string)
    ensures BearerToken(Some(BearerPrefix + token)) == Success(token)
  {
    var h := BearerPrefix + token;
    assert h[..|BearerPrefix|] == BearerPrefix;
    assert h[|BearerPrefix|..] == token;
  }

  /** Position of the first key whose `kid` equals the token's (an absent
      `kid` equals an absent one). */
  function FirstKidIndex(keys: seq<Jwk>, kid: Option<string>): (r: Option<nat>)
    ensures r.None? <==> forall i :: 0 <= i < |keys| ==> keys[i].kid != kid
    ensures r.Some? ==> r.value < |keys| && keys[r.value].kid == kid &&
                        forall j :: 0 <= j < r.value ==> keys[j].kid != kid
  {
    if |keys| == 0 then None
    else if keys[0].kid == kid then Some(0)
    else match FirstKidIndex(keys[1..], kid)
      case None => None
      case Some(i) => Some(i + 1)
  }

  /** `next((k for k in keys if k.get("kid") == kid), None)` */
  function SelectKey(keys: seq<Jwk>, kid: Option<string>): (r: Option<Jwk>)
    ensures r.None? <==> forall i :: 0 <= i < |keys| ==> keys[i].kid != kid
    ensures r.Some? ==> exists i :: 0 <= i < |keys| && keys[i] == r.value &&
                          (forall j :: 0 <= j < i ==> keys[j].kid != kid)
    ensures r.Some? ==> r.value.kid == kid
  {
    match FirstKidIndex(keys, kid)
    case None => None
    case Some(i) => Some(keys[i])
  }

  /** The key the verification step would use, if the token's header can
      be read and some key carries its `kid`. */
  function SigningKey(token: string, jwks: Jwks, headerOf: string -> Option<TokenHeader>): Option<Jwk> {
    match headerOf(token)
    case None => None
    case Some(h) => SelectKey(KeysOf(jwks), h.kid)
  }

  function DecodeArgs(token: string, key: Jwk, audience: string, issuer: string): DecodeRequest {
    DecodeRequest(token, key, key.alg.GetOr(DefaultAlgorithm), audience, issuer)
  }

  /** The `try` block of `require_user`: every inner failure, the missing or
      empty key included, is reported as "Invalid token". */
  function VerifyToken(token: string, jwks: Jwks, audience: string, issuer: string,
                       headerOf: string -> Option<TokenHeader>,
                       decode: DecodeRequest -> Option<Claims>): (r: Result<User, HttpError>)
    ensures r.Failure? ==> r.error == InvalidToken
    ensures r.Success? <==>
      var key := SigningKey(token, jwks, headerOf);
      key.Some? && JwkTruthy(key.value) && decode(DecodeArgs(token, key.value, audience, issuer)).Some?
    ensures r.Success? ==>
      var claims := decode(DecodeArgs(token, SigningKey(token, jwks, headerOf).value, audience, issuer)).value;
      r.value == User(claims.sub, claims)
  {
    var key := SigningKey(token, jwks, headerOf);
    if key.None? || !JwkTruthy(key.value) then Failure(InvalidToken)
    else
      match decode(DecodeArgs(token, key.value, audience, issuer))
      case None => Failure(InvalidToken)
      case Some(claims) => Success(User(claims.sub, claims))
  }

  /** A token whose `kid` no key carries is rejected with the masked message. */
  lemma UnknownKidIsInvalidToken(token: string, jwks: Jwks, audience: string, issuer: string,
                                 headerOf: string -> Option<TokenHeader>,
                                 decode: DecodeRequest -> Option<Claims>)
    requires headerOf(token).Some?
    requires forall k :: k in KeysOf(jwks) ==> k.kid != headerOf(token).value.kid
    ensures VerifyToken(token, jwks, audience, issuer, headerOf, decode) == Failure(InvalidToken)
  {
    var keys := KeysOf(jwks);
    forall i | 0 <= i < |keys| ensures keys[i].kid != headerOf(token).value.kid {
      assert keys[i] in keys;
    }
  }

  /** The incoming request: its Authorization header and `request.state.user`. */
  class Request {
    const authorization: Option<string>
    var user: Option<User>

    constructor (authorization: Option<string>)
      ensures this.authorization == authorization && user == None
    {
      this.authorization := authorization;
      user := None;
    }
  }

  /** `require_user`: configuration, header, JWKS, then the verification
      step; on success the user is also stored on the request. */
  method RequireUser(config: Config, request: Request, cache: JwksCache, now: int, fetch: JwksFetch,
                     headerOf: string -> Option<TokenHeader>,
                     decode: DecodeRequest -> Option<Claims>) returns (r: Result<User, HttpError>)
    modifies request, cache
    ensures !Truthy(config.issuer) || !Truthy(config.jwksUrl) ==>
      r == Failure(NotConfigured) && unchanged(request, cache)
    ensures Truthy(config.issuer) && Truthy(config.jwksUrl) && BearerToken(request.authorization).Failure? ==>
      r == Failure(MissingHeader) && unchanged(request, cache)
    ensures Truthy(config.issuer) && Truthy(config.jwksUrl) && BearerToken(request.authorization).Success? ==>
      var wasFresh := IsFresh(old(cache.keys), old(cache.fetchedAt), now);
      var token := BearerToken(request.authorization).value;
      && (wasFresh ==>
            && r == VerifyToken(token, old(cache.keys).value, config.audience, config.issuer.value, headerOf, decode)
            && cache.keys == old(cache.keys) && cache.fetchedAt == old(cache.fetchedAt))
      && (!wasFresh && fetch.status != 200 ==>
            && r == Failure(JwksFetchFailed)
            && cache.keys == old(cache.keys) && cache.fetchedAt == old(cache.fetchedAt))
      && (!wasFresh && fetch.status == 200 ==>
            && r == VerifyToken(token, fetch.body, config.audience, config.issuer.value, headerOf, decode)
            && cache.keys == Some(fetch.body) && cache.fetchedAt == now)
    ensures r.Success? ==> request.user == Some(r.value)
    ensures r.Failure? ==> request.user == old(request.user)
  {
    if !Truthy(config.issuer) || !Truthy(config.jwksUrl) {
      return Failure(NotConfigured);
    }
    var token := BearerToken(request.authorization);
    if token.Failure? {
      return Failure(token.error);
    }
    var jwks, _ := cache.GetJwks(now, fetch);
    if jwks.Failure? {
      return Failure(jwks.error);
    }
    r := VerifyToken(token.value, jwks.value, config.audience, config.issuer.value, headerOf, decode);
    if r.Success? {
      request.user := Some(r.value);
    }
  }
}
