/** The Toss Login calls of the Apps-in-Toss client (toss/ait_client.go): the
    referrer normalisation, the input checks made before any request, and
    the rule by which a response is accepted. The HTTP exchange is an oracle
    `send`, and a body that does not decode as JSON is a missing envelope. */
module TossLogin {
  import opened Wrappers
  import opened Text

  /** An empty or blank referrer becomes "DEFAULT"; any other is trimmed and
      upper-cased. */
  function NormalizeReferrer(referrer: string): (r: string)
    ensures r != ""
    ensures AllSpace(referrer) ==> r == "DEFAULT"
    ensures !AllSpace(referrer) ==> r == ToUpper(TrimSpace(referrer))
  {
    var u := ToUpper(TrimSpace(referrer));
    if u == "" then "DEFAULT" else u
  }

  lemma DefaultIsNormal()
    ensures ToUpper("DEFAULT") == "DEFAULT" && Trimmed("DEFAULT") && !AllSpace("DEFAULT")
  {
    assert !IsSpace("DEFAULT"[0]);
    var u := ToUpper("DEFAULT");
    assert u[0] == 'D' && u[1] == 'E' && u[2] == 'F' && u[3] == 'A' && u[4] == 'U' && u[5] == 'L' && u[6] == 'T';
  }

  /** Normalising twice is normalising once. */
  lemma NormalizeReferrerIdempotent(referrer: string)
    ensures NormalizeReferrer(NormalizeReferrer(referrer)) == NormalizeReferrer(referrer)
  {
    var r := NormalizeReferrer(referrer);
    if AllSpace(referrer) {
      DefaultIsNormal();
      TrimSpaceOfTrimmed("DEFAULT");
    } else {
      var t := TrimSpace(referrer);
      TrimSpaceCase(t);
      TrimSpaceOfTrimmed(t);
      ToUpperIdempotent(t);
      assert TrimSpace(r) == r;
      assert !AllSpace(r) by {
        assert r != [];
      }
    }
  }

  /** The referrer's case and surrounding white space do not matter. */
  lemma NormalizeReferrerIgnoresCaseAndSpace(referrer: string)
    ensures NormalizeReferrer(ToLower(referrer)) == NormalizeReferrer(referrer)
    ensures NormalizeReferrer(TrimSpace(referrer)) == NormalizeReferrer(referrer)
  {
    TrimSpaceCase(referrer);
    TrimSpaceIdempotent(referrer);
    ToUpperForgetsCase(TrimSpace(referrer));
    assert ToUpper(TrimSpace(ToLower(referrer))) == ToUpper(TrimSpace(referrer));
  }

  datatype Client = Client(baseURL: string)

  /** The requests the two calls make. */
  datatype LoginRequest =
    | GenerateToken(url: string, authorizationCode: string, referrer: string)
    | LoginMeCall(url: string, authorization: string)

  /** What the server's answer decodes to: `resultType` and `success`. */
  datatype LoginEnvelope<T> = LoginEnvelope(resultType: string, success: Option<T>)

  /** The HTTP exchange: no response at all, or a status, the body read (at
      most 1 MiB), and its decoding (None when it is not valid JSON). */
  datatype HttpOutcome<T> = NoResponse(message: string)
                          | Response(status: int, raw: Bytes, decoded: Option<LoginEnvelope<T>>)

  datatype LoginError =
    | MissingInput(field: string)
    | Transport(message: string)
    | BadStatus(status: int, raw: Bytes)
    | Undecodable(raw: Bytes)
    | NotSuccess(resultType: string, raw: Bytes)

  datatype TokenSuccess = TokenSuccess(accessToken: string, refreshToken: string, scope: string,
                                       tokenType: string, expiresIn: int)
  datatype LoginMeSuccess = LoginMeSuccess(userKey: int, scope: string)

  /** A call's result together with the request it sent, if any. */
  datatype Call<T> = Call(result: Result<T, LoginError>, sent: Option<LoginRequest>)

  /** The acceptance rule shared by both calls. */
  function Accept<T>(o: HttpOutcome<T>): (r: Result<T, LoginError>)
    ensures r.Ok? <==> && o.Response? && 200 <= o.status < 300 && o.decoded.Some?
                       && ToUpper(o.decoded.value.resultType) == "SUCCESS"
                       && o.decoded.value.success.Some?
    ensures r.Ok? ==> r.value == o.decoded.value.success.value
    ensures o.Response? && !(200 <= o.status < 300) ==> r == Err(BadStatus(o.status, o.raw))
  {
    match o
    case NoResponse(msg) => Err(Transport(msg))
    case Response(status, raw, decoded) =>
      if status < 200 || status >= 300 then Err(BadStatus(status, raw))
      else if decoded.None? then Err(Undecodable(raw))
      else if ToUpper(decoded.value.resultType) != "SUCCESS" || decoded.value.success.None?
      then Err(NotSuccess(decoded.value.resultType, raw))
      else Ok(decoded.value.success.value)
  }

  /** The result type is compared without regard to case: lower-casing it
      never changes whether a response is accepted. */
  lemma AcceptIgnoresResultTypeCase<T>(status: int, raw: Bytes, rt: string, s: Option<T>)
    ensures Accept(Response(status, raw, Some(LoginEnvelope(ToLower(rt), s)))).Ok?
            == Accept(Response(status, raw, Some(LoginEnvelope(rt, s)))).Ok?
  {
    ToUpperForgetsCase(rt);
  }

  function GenerateTokenURL(c: Client): string {
    c.baseURL + "/api-partner/v1/apps-in-toss/user/oauth2/generate-token"
  }

  function LoginMeURL(c: Client): string {
    c.baseURL + "/api-partner/v1/apps-in-toss/user/oauth2/login-me"
  }

  /** Exchanges an authorization code for tokens. A blank code is refused
      before any request; otherwise the trimmed code goes out with the
      normalised referrer. */
  function GenerateUserToken(c: Client, authorizationCode: string, referrer: string,
                             send: LoginRequest -> HttpOutcome<TokenSuccess>): (r: Call<TokenSuccess>)
    ensures AllSpace(authorizationCode) ==> r == Call(Err(MissingInput("authorizationCode")), None)
    ensures !AllSpace(authorizationCode) ==>
      var q := GenerateToken(GenerateTokenURL(c), TrimSpace(authorizationCode), NormalizeReferrer(referrer));
      r.sent == Some(q) && r.result == Accept(send(q))
  {
    var code := TrimSpace(authorizationCode);
    if code == "" then Call(Err(MissingInput("authorizationCode")), None)
    else
      var q := GenerateToken(GenerateTokenURL(c), code, NormalizeReferrer(referrer));
      Call(Accept(send(q)), Some(q))
  }

  /** Fetches the user key for an access token. A blank token is refused
      before any request; otherwise it goes out as a bearer credential. */
  function LoginMe(c: Client, accessToken: string,
                   send: LoginRequest -> HttpOutcome<LoginMeSuccess>): (r: Call<LoginMeSuccess>)
    ensures AllSpace(accessToken) ==> r == Call(Err(MissingInput("accessToken")), None)
    ensures !AllSpace(accessToken) ==>
      var q := LoginMeCall(LoginMeURL(c), "Bearer " + TrimSpace(accessToken));
      r.sent == Some(q) && r.result == Accept(send(q))
  {
    var token := TrimSpace(accessToken);
    if token == "" then Call(Err(MissingInput("accessToken")), None)
    else
      var q := LoginMeCall(LoginMeURL(c), "Bearer " + token);
      Call(Accept(send(q)), Some(q))
  }

  /** Whatever the server answers, a sent token request carries a non-empty
      code without surrounding white space and a normalised referrer. */
  lemma GenerateTokenRequestShape(c: Client, code: string, referrer: string,
                                  send: LoginRequest -> HttpOutcome<TokenSuccess>)
    ensures var r := GenerateUserToken(c, code, referrer, send);
      r.sent.Some? ==> && r.sent.value.GenerateToken?
                       && r.sent.value.authorizationCode != "" && Trimmed(r.sent.value.authorizationCode)
                       && NormalizeReferrer(r.sent.value.referrer) == r.sent.value.referrer
    ensures GenerateUserToken(c, code, referrer, send).sent.None? <==> AllSpace(code)
  {
    NormalizeReferrerIdempotent(referrer);
  }
}
