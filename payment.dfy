/** The payment package's error values and its choice of implementation
    (payment/payment.go, payment/factory.go). The APP_ENV variable is a
    parameter. */
module Payment {
  import opened Wrappers
  import opened Text

  const InvalidRequest := "INVALID_REQUEST"
  const PaymentNotFound := "PAYMENT_NOT_FOUND"
  const PaymentFailed := "PAYMENT_FAILED"
  const NetworkError := "NETWORK_ERROR"
  const InternalError := "INTERNAL_ERROR"

  /** A Go `error`: a payment error, or any other error, known by its text. */
  datatype Error = Other(text: string) | Failure(e: PaymentError)

  datatype PaymentError = PaymentError(code: string, message: string, cause: Option<Error>)

  /** `error.Error()` for either kind of error. */
  function ErrorString(err: Error): string {
    match err
    case Other(text) => text
    case Failure(e) => ErrorText(e)
  }

  /** `PaymentError.Error()`: the message, followed by ": " and the cause's
      text when there is a cause. */
  function ErrorText(e: PaymentError): (s: string)
    ensures HasPrefix(s, e.message)
    ensures |s| == |e.message| <==> e.cause.None?
    ensures e.cause.Some? ==> s[|e.message|..] == ": " + ErrorString(e.cause.value)
  {
    match e.cause
    case None => e.message
    case Some(c) =>
      var s := e.message + ": " + ErrorString(c);
      assert s[..|e.message|] == e.message;
      assert s[|e.message|..] == ": " + ErrorString(c);
      s
  }

  /** `PaymentError.Unwrap()`. */
  function Unwrap(e: PaymentError): Option<Error> {
    e.cause
  }

  /** `NewPaymentError`. */
  function NewPaymentError(code: string, message: string, cause: Option<Error>): (e: PaymentError)
    ensures e.code == code && e.message == message && Unwrap(e) == cause
  {
    PaymentError(code, message, cause)
  }

  /** Without a cause the text is the message; with one it is the message,
      ": ", and the cause's own text, and unwrapping gives the cause back. */
  lemma NewPaymentErrorText(code: string, message: string, cause: Option<Error>)
    ensures cause.None? ==> ErrorText(NewPaymentError(code, message, cause)) == message
    ensures cause.Some? ==> ErrorText(NewPaymentError(code, message, cause)) == message + ": " + ErrorString(cause.value)
  {
    var e := NewPaymentError(code, message, cause);
    var s := ErrorText(e);
    if cause.Some? {
      assert s == s[..|message|] + s[|message|..];
    }
  }

  /** A chain of payment errors is rendered outermost first: the inner
      error's whole text ends the outer's. */
  lemma NestedErrorText(outer: string, code: string, inner: PaymentError)
    ensures var s := ErrorText(NewPaymentError(code, outer, Some(Failure(inner))));
      |s| >= |ErrorText(inner)| && s[|s| - |ErrorText(inner)|..] == ErrorText(inner)
  {
    NewPaymentErrorText(code, outer, Some(Failure(inner)));
    var s := ErrorText(NewPaymentError(code, outer, Some(Failure(inner))));
    assert s == (outer + ": ") + ErrorText(inner);
  }

  /** `IsMockEnvironment`: the trimmed, lower-cased APP_ENV is empty,
      "local" or "test". */
  predicate IsMockEnvironment(appEnv: string) {
    var env := ToLower(TrimSpace(appEnv));
    env == "local" || env == "test" || env == ""
  }

  /** The classification ignores case and surrounding white space. */
  lemma MockEnvironmentIgnoresCaseAndSpace(appEnv: string)
    ensures IsMockEnvironment(ToUpper(appEnv)) == IsMockEnvironment(appEnv)
    ensures IsMockEnvironment(TrimSpace(appEnv)) == IsMockEnvironment(appEnv)
  {
    var t := TrimSpace(appEnv);
    UpperLowerKeepSpace();
    TrimSpaceMapChars(appEnv, UpperChar);
    assert TrimSpace(ToUpper(appEnv)) == ToUpper(t);
    ToLowerForgetsCase(t);
    TrimSpaceIdempotent(appEnv);
  }

  /** A payment service: the mock, or a live TossPay client. The mock starts
      with no payments. */
  datatype Service = MockService | LiveService(id: nat)

  /** `Service.Mode()`. */
  function Mode(s: Service): string {
    if s.MockService? then "mock" else "live"
  }

  /** `NewService`: a mock in a mock environment, otherwise nothing (the
      caller is to build the live client). */
  function NewService(appEnv: string): (r: Option<Service>)
    ensures r.Some? <==> IsMockEnvironment(appEnv)
    ensures r.Some? ==> r.value == MockService && Mode(r.value) == "mock"
  {
    if IsMockEnvironment(appEnv) then Some(MockService) else None
  }

  /** `NewServiceWithTossPay`: the given service, or a mock when there is
      none. */
  function NewServiceWithTossPay(tossPay: Option<Service>): (r: Service)
    ensures tossPay.Some? ==> r == tossPay.value
    ensures tossPay.None? ==> r == MockService
  {
    if tossPay.Some? then tossPay.value else MockService
  }

  /** Building the service in two steps, as the API server does, always
      yields a service, and a mock one in every mock environment. */
  lemma ServiceSelection(appEnv: string, live: Option<Service>)
    ensures var s := if NewService(appEnv).Some? then NewService(appEnv).value else NewServiceWithTossPay(live);
      (IsMockEnvironment(appEnv) ==> s == MockService)
      && (!IsMockEnvironment(appEnv) && live.Some? ==> s == live.value)
  {
  }
}
