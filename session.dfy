/** The API's own session tokens (cmd/api/main.go): `sv1.<payload>.<sig>`,
    where the payload is the base64url text of the JSON claims and the
    signature the base64url HMAC-SHA256 of the payload; and the `auth`
    middleware that checks a bearer token and the revocation table. JSON,
    base64 and HMAC are functions passed in, and the current time is `now`
    in Unix seconds. */
module Session {
  import opened Wrappers
  import opened Text
  import opened ApiGuards

  datatype Claims = Claims(sub: string, iat: int, exp: int)

  /** JSON, base64url without padding, and HMAC-SHA256 rendered in base64url. */
  datatype Codec = Codec(
    marshal: Claims -> Bytes,
    unmarshal: Bytes -> Option<Claims>,
    encode: Bytes -> string,
    decode: string -> Option<Bytes>,
    mac: (string, string) -> string)

  /** The base64url alphabet. */
  predicate UrlChar(c: char) {
    ('A' <= c <= 'Z') || ('a' <= c <= 'z') || ('0' <= c <= '9') || c == '-' || c == '_'
  }

  predicate UrlText(s: string) {
    forall i :: 0 <= i < |s| ==> UrlChar(s[i])
  }

  /** What the session code may rely on: decoding undoes encoding, encoded
      text uses the base64url alphabet, and a signature is 43 such
      characters (32 bytes). Nothing is assumed about HMAC collisions. */
  ghost predicate Lawful(codec: Codec) {
    && (forall c :: codec.unmarshal(codec.marshal(c)) == Some(c))
    && (forall b :: codec.decode(codec.encode(b)) == Some(b))
    && (forall b :: UrlText(codec.encode(b)))
    && (forall k, m :: UrlText(codec.mac(k, m)) && |codec.mac(k, m)| == 43)
  }

  const Version := "sv1"

  /** A token from its payload and signature. */
  function Assemble(payload: string, sig: string): string {
    Version + "." + payload + "." + sig
  }

  /** The claims of a session for `userId` issued at `now`, lasting `ttl`
      seconds. */
  function SessionClaims(userId: string, ttl: int, now: int): Claims {
    Claims(userId, now, now + ttl)
  }

  /** `signSession`. */
  function SignSession(codec: Codec, secret: string, userId: string, ttl: int, now: int): (token: string)
    ensures HasPrefix(token, "sv1.")
  {
    var payload := codec.encode(codec.marshal(SessionClaims(userId, ttl, now)));
    var t := Assemble(payload, codec.mac(secret, payload));
    assert t[..4] == "sv1.";
    t
  }

  datatype SessionError = BadFormat | BadSignature | BadEncoding | BadJson | BadClaims | Expired

  /** `verifySession`: the checks in order, each with its own error. */
  function VerifySession(codec: Codec, secret: string, token: string, now: int): (r: Result<Claims, SessionError>)
    ensures r.Ok? ==> r.value.sub != "" && r.value.exp != 0 && now <= r.value.exp
  {
    var parts := Split(token, '.');
    if |parts| != 3 || parts[0] != Version then Err(BadFormat)
    else
      var payload, sig := parts[1], parts[2];
      if sig != codec.mac(secret, payload) then Err(BadSignature)
      else match codec.decode(payload)
        case None => Err(BadEncoding)
        case Some(raw) =>
          match codec.unmarshal(raw)
          case None => Err(BadJson)
          case Some(c) =>
            if c.sub == "" || c.exp == 0 then Err(BadClaims)
            else if now > c.exp then Err(Expired)
            else Ok(c)
  }

  /** A token of three pieces splits into those pieces. */
  lemma SplitAssembled(payload: string, sig: string)
    requires '.' !in payload && '.' !in sig
    ensures Split(Assemble(payload, sig), '.') == [Version, payload, sig]
  {
    assert Assemble(payload, sig) == Version + ['.'] + (payload + ['.'] + sig);
    SplitAt(Version, '.', payload + ['.'] + sig);
    SplitAt(payload, '.', sig);
    SplitNoSep(sig, '.');
  }

  lemma UrlTextNoDot(s: string)
    requires UrlText(s)
    ensures '.' !in s
  {
    assert forall i :: 0 <= i < |s| ==> s[i] != '.';
  }

  /** A freshly signed token verifies, up to and including its expiry
      second, to the claims it was signed with. */
  lemma SignThenVerify(codec: Codec, secret: string, userId: string, ttl: int, now: int, later: int)
    requires Lawful(codec)
    requires userId != "" && now + ttl != 0 && later <= now + ttl
    ensures VerifySession(codec, secret, SignSession(codec, secret, userId, ttl, now), later)
            == Ok(SessionClaims(userId, ttl, now))
  {
    var c := SessionClaims(userId, ttl, now);
    var payload := codec.encode(codec.marshal(c));
    var sig := codec.mac(secret, payload);
    UrlTextNoDot(payload);
    UrlTextNoDot(sig);
    SplitAssembled(payload, sig);
  }

  /** After its expiry second the same token is refused as expired. */
  lemma SignedTokenExpires(codec: Codec, secret: string, userId: string, ttl: int, now: int, later: int)
    requires Lawful(codec)
    requires userId != "" && now + ttl != 0 && later > now + ttl
    ensures VerifySession(codec, secret, SignSession(codec, secret, userId, ttl, now), later) == Err(Expired)
  {
    var c := SessionClaims(userId, ttl, now);
    var payload := codec.encode(codec.marshal(c));
    var sig := codec.mac(secret, payload);
    UrlTextNoDot(payload);
    UrlTextNoDot(sig);
    SplitAssembled(payload, sig);
  }

  /** An empty subject or a zero expiry is refused even when the token is
      correctly signed. */
  lemma SignedBadClaimsRefused(codec: Codec, secret: string, userId: string, ttl: int, now: int, later: int)
    requires Lawful(codec)
    requires userId == "" || now + ttl == 0
    ensures VerifySession(codec, secret, SignSession(codec, secret, userId, ttl, now), later) == Err(BadClaims)
  {
    var c := SessionClaims(userId, ttl, now);
    var payload := codec.encode(codec.marshal(c));
    var sig := codec.mac(secret, payload);
    UrlTextNoDot(payload);
    UrlTextNoDot(sig);
    SplitAssembled(payload, sig);
  }

  /** A payload presented with any other signature is refused. */
  lemma ForgedSignatureRefused(codec: Codec, secret: string, payload: string, sig: string, now: int)
    requires '.' !in payload && '.' !in sig && sig != codec.mac(secret, payload)
    ensures VerifySession(codec, secret, Assemble(payload, sig), now) == Err(BadSignature)
  {
    SplitAssembled(payload, sig);
  }

  /** Whatever verifies has the shape of a signed token: its signature is
      the HMAC of its payload. */
  lemma AcceptedIsSigned(codec: Codec, secret: string, token: string, now: int)
    requires VerifySession(codec, secret, token, now).Ok?
    ensures var parts := Split(token, '.');
      |parts| == 3 && token == Assemble(parts[1], codec.mac(secret, parts[1]))
  {
    var parts := Split(token, '.');
    JoinSplit(token, '.');
    assert parts == [parts[0]] + [parts[1], parts[2]];
    assert Join(parts, '.') == parts[0] + ['.'] + Join([parts[1], parts[2]], '.');
    assert Join([parts[1], parts[2]], '.') == parts[1] + ['.'] + Join([parts[2]], '.');
  }

  /** What the `auth` middleware does with a request. */
  datatype AuthOutcome = Unauthorized(message: string) | Authorized(claims: Claims)

  const BearerPrefix := "Bearer "

  /** `auth`: a bearer token is required (the prefix is case-sensitive), it
      must verify, and its subject must not be revoked when a revocation
      table is configured. */
  function Authenticate(codec: Codec, secret: string, revoked: Option<map<string, int>>,
                        header: string, now: int): (r: AuthOutcome)
    ensures !HasPrefix(header, BearerPrefix) ==> r == Unauthorized("missing bearer token")
    ensures r.Authorized? ==>
      && VerifySession(codec, secret, TrimSpace(TrimPrefix(header, BearerPrefix)), now) == Ok(r.claims)
      && !(revoked.Some? && RevokedIn(revoked.value, r.claims.sub))
      && r.claims.sub != "" && now <= r.claims.exp
  {
    if header == "" || !HasPrefix(header, BearerPrefix) then Unauthorized("missing bearer token")
    else
      var tok := TrimSpace(TrimPrefix(header, BearerPrefix));
      match VerifySession(codec, secret, tok, now)
      case Err(_) => Unauthorized("invalid token")
      case Ok(c) =>
        if revoked.Some? && RevokedIn(revoked.value, c.sub) then Unauthorized("session revoked (unlinked)")
        else Authorized(c)
  }

  /** A signed token has no surrounding white space. */
  lemma SignedTokenTrimmed(codec: Codec, secret: string, userId: string, ttl: int, now: int)
    requires Lawful(codec)
    ensures Trimmed(SignSession(codec, secret, userId, ttl, now))
  {
    var payload := codec.encode(codec.marshal(SessionClaims(userId, ttl, now)));
    var sig := codec.mac(secret, payload);
    var t := Assemble(payload, sig);
    assert t[0] == 's';
    assert t[|t| - 1] == sig[|sig| - 1];
    assert UrlChar(sig[|sig| - 1]);
  }

  /** The bearer header carrying a signed token yields that token. */
  lemma BearerToken(codec: Codec, secret: string, userId: string, ttl: int, now: int)
    requires Lawful(codec)
    ensures var token := SignSession(codec, secret, userId, ttl, now);
      HasPrefix(BearerPrefix + token, BearerPrefix)
      && TrimSpace(TrimPrefix(BearerPrefix + token, BearerPrefix)) == token
  {
    var token := SignSession(codec, secret, userId, ttl, now);
    assert (BearerPrefix + token)[..|BearerPrefix|] == BearerPrefix;
    assert (BearerPrefix + token)[|BearerPrefix|..] == token;
    SignedTokenTrimmed(codec, secret, userId, ttl, now);
    TrimSpaceOfTrimmed(token);
  }

  /** A live, correctly signed session whose subject has been revoked is
      refused; one whose subject is not revoked is let through with its
      claims. */
  lemma AuthHonoursRevocation(codec: Codec, secret: string, revoked: Option<map<string, int>>,
                              userId: string, ttl: int, now: int, later: int)
    requires Lawful(codec)
    requires userId != "" && now + ttl != 0 && later <= now + ttl
    ensures var header := BearerPrefix + SignSession(codec, secret, userId, ttl, now);
      Authenticate(codec, secret, revoked, header, later) ==
        if revoked.Some? && RevokedIn(revoked.value, userId) then Unauthorized("session revoked (unlinked)")
        else Authorized(SessionClaims(userId, ttl, now))
  {
    BearerToken(codec, secret, userId, ttl, now);
    SignThenVerify(codec, secret, userId, ttl, now, later);
  }

  /** An expired session is refused as an invalid token, revoked or not. */
  lemma AuthRefusesExpired(codec: Codec, secret: string, revoked: Option<map<string, int>>,
                           userId: string, ttl: int, now: int, later: int)
    requires Lawful(codec)
    requires userId != "" && now + ttl != 0 && later > now + ttl
    ensures Authenticate(codec, secret, revoked, BearerPrefix + SignSession(codec, secret, userId, ttl, now), later)
            == Unauthorized("invalid token")
  {
    BearerToken(codec, secret, userId, ttl, now);
    SignedTokenExpires(codec, secret, userId, ttl, now, later);
  }
}
