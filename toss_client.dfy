/** The partner-API calls of the Toss client (toss/promotion.go, toss/pay.go):
    how each call builds its request and resolves the returned envelope.
    The transport is an oracle `send` from the request to what came back;
    mTLS, JSON encoding and HTTP are not modelled. */
module TossClient {
  import opened Wrappers

  /** `ResultEnvelope[T]`: the provider's answer, with optional `success` and
      `result` payloads and a free-form result type. */
  datatype Envelope<T> = Envelope(resultType: string, success: Option<T>, result: Option<T>)

  /** What doJSON returns: a transport, HTTP-status or decoding error with
      whatever body was read, or a decoded envelope with its raw body. */
  datatype Wire<T> = Failed(message: string, raw: Bytes) | Delivered(env: Envelope<T>, raw: Bytes)

  /** A call's outcome, always with the raw body for audit. */
  datatype Reply<T> = Answer(value: T, raw: Bytes) | Failure(message: string, raw: Bytes)

  datatype Client = Client(apiBaseURL: string, payBaseURL: string)

  datatype Payload =
    | GetKeyBody(promotionCode: string)
    | ExecutePromotionBody(key: string, value: int)
    | ExecutionResultBody(key: string)
    | MakePaymentBody(orderNo: string, productDesc: string, amount: int, amountTaxFree: int,
                      installment: string, isTestPayment: bool)
    | ExecutePaymentBody(payToken: string, orderNo: string, isTestPayment: bool)

  /** An outgoing POST: URL, the headers set on top of Content-Type, body. */
  datatype Request = Request(url: string, headers: map<string, string>, body: Payload)

  datatype GetKeySuccess = GetKeySuccess(key: string)
  /** The payload of execute-promotion and execution-result: a result type. */
  datatype PromotionResult = PromotionResult(resultType: string)
  datatype MakePaymentSuccess = MakePaymentSuccess(payToken: string)
  datatype ExecutePaymentSuccess = ExecutePaymentSuccess(payToken: string)

  const UserKeyHeader: string := "X-Toss-User-Key"
  const IdempotencyHeader: string := "Idempotency-Key"

  /** The caller's user key, plus the idempotency key when there is one. */
  function Headers(tossUserKey: string, idemKey: string): (h: map<string, string>)
    ensures UserKeyHeader in h && h[UserKeyHeader] == tossUserKey
    ensures IdempotencyHeader in h <==> idemKey != ""
    ensures IdempotencyHeader in h ==> h[IdempotencyHeader] == idemKey
    ensures h.Keys <= {UserKeyHeader, IdempotencyHeader}
  {
    var h := map[UserKeyHeader := tossUserKey];
    if idemKey != "" then h[IdempotencyHeader := idemKey] else h
  }

  // ---------------------------------------------------------------------
  // Envelope resolution

  /** get-key and make-payment: the `success` payload or an error. */
  function RequireSuccess<T>(w: Wire<T>): (r: Reply<T>)
    ensures r.raw == w.raw
    ensures r.Answer? <==> w.Delivered? && w.env.success.Some?
    ensures r.Answer? ==> r.value == w.env.success.value
    ensures w.Failed? ==> r.message == w.message
    ensures w.Delivered? && w.env.success.None? ==> r.message == "no success: resultType=" + w.env.resultType
  {
    match w
    case Failed(msg, raw) => Failure(msg, raw)
    case Delivered(env, raw) =>
      if env.success.None? then Failure("no success: resultType=" + env.resultType, raw)
      else Answer(env.success.value, raw)
  }

  /** execute-promotion and execution-result: the `success` payload, else a
      payload holding only the envelope's result type; once the call has
      returned it never fails. */
  function SuccessOrResultType(w: Wire<PromotionResult>): (r: Reply<PromotionResult>)
    ensures r.raw == w.raw
    ensures r.Failure? <==> w.Failed?
    ensures r.Failure? ==> r.message == w.message
    ensures w.Delivered? ==> r.value == (if w.env.success.Some? then w.env.success.value
                                         else PromotionResult(w.env.resultType))
  {
    match w
    case Failed(msg, raw) => Failure(msg, raw)
    case Delivered(env, raw) =>
      if env.success.Some? then Answer(env.success.value, raw)
      else Answer(PromotionResult(env.resultType), raw)
  }

  /** execute-payment: `success`, else `result`, else an error. */
  function SuccessThenResult<T>(w: Wire<T>): (r: Reply<T>)
    ensures r.raw == w.raw
    ensures r.Answer? <==> w.Delivered? && (w.env.success.Some? || w.env.result.Some?)
    ensures r.Answer? && w.env.success.Some? ==> r.value == w.env.success.value
    ensures r.Answer? && w.env.success.None? ==> r.value == w.env.result.value
    ensures w.Failed? ==> r.message == w.message
    ensures w.Delivered? && w.env.success.None? && w.env.result.None? ==>
      r.message == "no success/result: resultType=" + w.env.resultType
  {
    match w
    case Failed(msg, raw) => Failure(msg, raw)
    case Delivered(env, raw) =>
      if env.success.Some? then Answer(env.success.value, raw)
      else if env.result.Some? then Answer(env.result.value, raw)
      else Failure("no success/result: resultType=" + env.resultType, raw)
  }

  /** The two resolutions agree whenever `success` is present; they differ
      only when it is missing, where execute-payment still accepts `result`. */
  lemma SuccessFirst<T>(w: Wire<T>)
    requires w.Delivered? && w.env.success.Some?
    ensures SuccessThenResult(w) == RequireSuccess(w)
  {
  }

  // ---------------------------------------------------------------------
  // Requests

  function PromotionGetKeyRequest(c: Client, tossUserKey: string, promotionCode: string): Request {
    Request(c.apiBaseURL + "/api-partner/v1/apps-in-toss/promotion/get-key",
            Headers(tossUserKey, ""), GetKeyBody(promotionCode))
  }

  function PromotionExecuteRequest(c: Client, tossUserKey: string, idemKey: string, key: string, value: int): Request {
    Request(c.apiBaseURL + "/api-partner/v1/apps-in-toss/promotion/execute-promotion",
            Headers(tossUserKey, idemKey), ExecutePromotionBody(key, value))
  }

  function PromotionExecutionResultRequest(c: Client, tossUserKey: string, key: string): Request {
    Request(c.apiBaseURL + "/api-partner/v1/apps-in-toss/promotion/execution-result",
            Headers(tossUserKey, ""), ExecutionResultBody(key))
  }

  function MakePaymentRequest(c: Client, tossUserKey: string, idemKey: string, body: Payload): Request
    requires body.MakePaymentBody?
  {
    Request(c.payBaseURL + "/api-partner/v1/apps-in-toss/pay/make-payment",
            Headers(tossUserKey, idemKey), body)
  }

  function ExecutePaymentRequest(c: Client, tossUserKey: string, payToken: string, orderNo: string, isTestPayment: bool): Request {
    Request(c.payBaseURL + "/api-partner/v1/apps-in-toss/pay/execute-payment",
            Headers(tossUserKey, ""), ExecutePaymentBody(payToken, orderNo, isTestPayment))
  }

  /** Every call identifies the user; only execute-promotion and make-payment
      carry an idempotency key, and they carry it exactly when it is
      non-empty. */
  lemma RequestHeaders(c: Client, userKey: string, idemKey: string, code: string, key: string, value: int,
                       body: Payload, payToken: string, orderNo: string, isTest: bool)
    requires body.MakePaymentBody?
    ensures var q := PromotionGetKeyRequest(c, userKey, code);
      q.headers == map[UserKeyHeader := userKey]
    ensures var q := PromotionExecuteRequest(c, userKey, idemKey, key, value);
      q.headers[UserKeyHeader] == userKey && (IdempotencyHeader in q.headers <==> idemKey != "")
      && q.body == ExecutePromotionBody(key, value)
    ensures var q := PromotionExecutionResultRequest(c, userKey, key);
      q.headers == map[UserKeyHeader := userKey]
    ensures var q := MakePaymentRequest(c, userKey, idemKey, body);
      q.headers[UserKeyHeader] == userKey && (IdempotencyHeader in q.headers <==> idemKey != "")
    ensures var q := ExecutePaymentRequest(c, userKey, payToken, orderNo, isTest);
      q.headers == map[UserKeyHeader := userKey] && IdempotencyHeader !in q.headers
  {
  }

  // ---------------------------------------------------------------------
  // The calls

  function PromotionGetKey(c: Client, tossUserKey: string, promotionCode: string,
                           send: Request -> Wire<GetKeySuccess>): (r: Reply<GetKeySuccess>)
    ensures var w := send(PromotionGetKeyRequest(c, tossUserKey, promotionCode));
      (r.Answer? <==> w.Delivered? && w.env.success.Some?) && r.raw == w.raw
      && (r.Answer? ==> r.value == w.env.success.value)
  {
    RequireSuccess(send(PromotionGetKeyRequest(c, tossUserKey, promotionCode)))
  }

  function PromotionExecute(c: Client, tossUserKey: string, idemKey: string, key: string, value: int,
                            send: Request -> Wire<PromotionResult>): (r: Reply<PromotionResult>)
    ensures var w := send(PromotionExecuteRequest(c, tossUserKey, idemKey, key, value));
      (r.Failure? <==> w.Failed?) && r.raw == w.raw
      && (w.Delivered? ==> r.value == (if w.env.success.Some? then w.env.success.value
                                       else PromotionResult(w.env.resultType)))
  {
    SuccessOrResultType(send(PromotionExecuteRequest(c, tossUserKey, idemKey, key, value)))
  }

  function PromotionExecutionResult(c: Client, tossUserKey: string, key: string,
                                    send: Request -> Wire<PromotionResult>): (r: Reply<PromotionResult>)
    ensures var w := send(PromotionExecutionResultRequest(c, tossUserKey, key));
      (r.Failure? <==> w.Failed?) && r.raw == w.raw
      && (w.Delivered? ==> r.value == (if w.env.success.Some? then w.env.success.value
                                       else PromotionResult(w.env.resultType)))
  {
    SuccessOrResultType(send(PromotionExecutionResultRequest(c, tossUserKey, key)))
  }

  function MakePayment(c: Client, tossUserKey: string, idemKey: string, body: Payload,
                       send: Request -> Wire<MakePaymentSuccess>): (r: Reply<MakePaymentSuccess>)
    requires body.MakePaymentBody?
    ensures var w := send(MakePaymentRequest(c, tossUserKey, idemKey, body));
      (r.Answer? <==> w.Delivered? && w.env.success.Some?) && r.raw == w.raw
      && (r.Answer? ==> r.value == w.env.success.value)
  {
    RequireSuccess(send(MakePaymentRequest(c, tossUserKey, idemKey, body)))
  }

  function ExecutePayment(c: Client, tossUserKey: string, payToken: string, orderNo: string, isTestPayment: bool,
                          send: Request -> Wire<ExecutePaymentSuccess>): (r: Reply<ExecutePaymentSuccess>)
    ensures var w := send(ExecutePaymentRequest(c, tossUserKey, payToken, orderNo, isTestPayment));
      (r.Answer? <==> w.Delivered? && (w.env.success.Some? || w.env.result.Some?)) && r.raw == w.raw
      && (r.Answer? ==> r.value == (if w.env.success.Some? then w.env.success.value else w.env.result.value))
  {
    SuccessThenResult(send(ExecutePaymentRequest(c, tossUserKey, payToken, orderNo, isTestPayment)))
  }
}
