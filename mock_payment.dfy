/** The mock payment provider (payment/mock.go): a table from pay token to
    payment, in which a payment is created as CREATED and executed once,
    to SUCCESS. The random hex suffixes of tokens and transaction ids and
    the current time are parameters. */
module MockPayment {
  import opened Wrappers
  import opened Text
  import opened Payment

  datatype MockEntry = MockEntry(orderNo: string, amount: int, status: string, createdAt: int)

  datatype CreateRequest = CreateRequest(orderNo: string, productDesc: string, amount: int,
                                         returnURL: string, resultURL: string)
  datatype CreateResponse = CreateResponse(payToken: string, checkoutURL: string, mode: string)
  datatype ExecuteResponse = ExecuteResponse(orderNo: string, amount: int, approvalTime: int,
                                             status: string, txId: string)
  datatype StatusResponse = StatusResponse(payToken: string, orderNo: string, status: string, amount: int)

  type Payments = map<string, MockEntry>

  const TokenPrefix := "mock_pt_"
  const Created := "CREATED"
  const Success := "SUCCESS"

  function Invalid(message: string): PaymentError {
    NewPaymentError(InvalidRequest, message, None)
  }

  function NotFound(): PaymentError {
    NewPaymentError(PaymentNotFound, "payment not found", None)
  }

  /** The payment table after `CreatePayment` and its answer. */
  function CreateIn(payments: Payments, req: CreateRequest, suffix: string, now: int): (Payments, Result<CreateResponse, PaymentError>) {
    if req.orderNo == "" then (payments, Err(Invalid("orderNo is required")))
    else if req.amount <= 0 then (payments, Err(Invalid("amount must be positive")))
    else
      var token := TokenPrefix + suffix;
      (payments[token := MockEntry(req.orderNo, req.amount, Created, now)],
       Ok(CreateResponse(token, "mock://checkout/" + token, "mock")))
  }

  /** The payment table after `ExecutePayment` and its answer. */
  function ExecuteIn(payments: Payments, payToken: string, txSuffix: string, now: int): (Payments, Result<ExecuteResponse, PaymentError>) {
    if payToken == "" then (payments, Err(Invalid("payToken is required")))
    else if !HasPrefix(payToken, TokenPrefix) then (payments, Err(Invalid("invalid mock payToken format")))
    else if payToken !in payments then (payments, Err(NotFound()))
    else
      var p := payments[payToken];
      if p.status == Success then (payments, Err(Invalid("payment already executed")))
      else (payments[payToken := p.(status := Success)],
            Ok(ExecuteResponse(p.orderNo, p.amount, now, Success, "mock_tx_" + txSuffix)))
  }

  /** The answer of `GetStatus`. */
  function StatusIn(payments: Payments, payToken: string): Result<StatusResponse, PaymentError> {
    if payToken == "" then Err(Invalid("payToken is required"))
    else if payToken !in payments then Err(NotFound())
    else
      var p := payments[payToken];
      Ok(StatusResponse(payToken, p.orderNo, p.status, p.amount))
  }

  /** An invalid request is refused as INVALID_REQUEST and stores nothing. */
  lemma CreateRejectsInvalid(payments: Payments, req: CreateRequest, suffix: string, now: int)
    requires req.orderNo == "" || req.amount <= 0
    ensures var (after, r) := CreateIn(payments, req, suffix, now);
      after == payments && r.Err? && r.error.code == InvalidRequest
  {
  }

  /** A valid request stores a CREATED payment under a "mock_pt_" token and
      answers with that token, its checkout URL and the mock mode; no other
      payment changes unless the token was already in use. */
  lemma CreateStores(payments: Payments, req: CreateRequest, suffix: string, now: int)
    requires req.orderNo != "" && req.amount > 0
    ensures var (after, r) := CreateIn(payments, req, suffix, now);
      && r.Ok? && HasPrefix(r.value.payToken, TokenPrefix)
      && r.value.checkoutURL == "mock://checkout/" + r.value.payToken && r.value.mode == "mock"
      && r.value.payToken in after
      && after[r.value.payToken] == MockEntry(req.orderNo, req.amount, Created, now)
      && after.Keys == payments.Keys + {r.value.payToken}
      && forall t :: t in payments && t != r.value.payToken ==> after[t] == payments[t]
  {
    var token := TokenPrefix + suffix;
    assert token[..|TokenPrefix|] == TokenPrefix;
  }

  /** Malformed tokens are refused as INVALID_REQUEST and unknown ones as
      PAYMENT_NOT_FOUND, without any change. */
  lemma ExecuteRejects(payments: Payments, payToken: string, txSuffix: string, now: int)
    ensures var (after, r) := ExecuteIn(payments, payToken, txSuffix, now);
      && (!HasPrefix(payToken, TokenPrefix) ==> after == payments && r.Err? && r.error.code == InvalidRequest)
      && (HasPrefix(payToken, TokenPrefix) && payToken !in payments ==>
            after == payments && r.Err? && r.error.code == PaymentNotFound)
  {
    if payToken == "" {
      assert !HasPrefix(payToken, TokenPrefix);
    }
  }

  /** A created payment executes once: the first execute turns it SUCCESS
      and reports its order and amount; a second one is refused as
      INVALID_REQUEST and the payment stays SUCCESS. */
  lemma ExecuteOnce(payments: Payments, req: CreateRequest, suffix: string, now: int,
                    tx1: string, t1: int, tx2: string, t2: int)
    requires req.orderNo != "" && req.amount > 0
    ensures var (p1, c) := CreateIn(payments, req, suffix, now);
      var (p2, e1) := ExecuteIn(p1, c.value.payToken, tx1, t1);
      var (p3, e2) := ExecuteIn(p2, c.value.payToken, tx2, t2);
      && e1.Ok? && e1.value.orderNo == req.orderNo && e1.value.amount == req.amount
      && e1.value.status == Success
      && e2.Err? && e2.error.code == InvalidRequest && p3 == p2
      && StatusIn(p3, c.value.payToken) == Ok(StatusResponse(c.value.payToken, req.orderNo, Success, req.amount))
  {
    CreateStores(payments, req, suffix, now);
  }

  /** Statuses only move forward: executing changes at most the one payment
      it names, from a status other than SUCCESS to SUCCESS, and keeps its
      order and amount. */
  lemma ExecuteOnlyAdvances(payments: Payments, payToken: string, txSuffix: string, now: int)
    ensures var (after, r) := ExecuteIn(payments, payToken, txSuffix, now);
      && after.Keys == payments.Keys
      && (forall t :: t in payments && t != payToken ==> after[t] == payments[t])
      && (payToken in payments && after[payToken] != payments[payToken] ==>
            && payments[payToken].status != Success
            && after[payToken] == payments[payToken].(status := Success))
      && (r.Ok? <==> after != payments)
  {
    var (after, r) := ExecuteIn(payments, payToken, txSuffix, now);
    if r.Ok? {
      assert after[payToken].status != payments[payToken].status;
    }
  }

  /** Every stored payment is CREATED or SUCCESS. */
  predicate KnownStatuses(payments: Payments) {
    forall t :: t in payments ==> payments[t].status == Created || payments[t].status == Success
  }

  lemma OperationsKeepKnownStatuses(payments: Payments, req: CreateRequest, payToken: string,
                                    suffix: string, now: int)
    requires KnownStatuses(payments)
    ensures KnownStatuses(CreateIn(payments, req, suffix, now).0)
    ensures KnownStatuses(ExecuteIn(payments, payToken, suffix, now).0)
  {
  }

  class MockService {
    var payments: Payments

    constructor()
      ensures payments == map[]
    {
      payments := map[];
    }

    /** `Mode()`. */
    function Mode(): string {
      "mock"
    }

    method CreatePayment(req: CreateRequest, suffix: string, now: int) returns (r: Result<CreateResponse, PaymentError>)
      modifies this
      ensures (payments, r) == CreateIn(old(payments), req, suffix, now)
    {
      if req.orderNo == "" {
        return Err(Invalid("orderNo is required"));
      }
      if req.amount <= 0 {
        return Err(Invalid("amount must be positive"));
      }
      var payToken := TokenPrefix + suffix;
      payments := payments[payToken := MockEntry(req.orderNo, req.amount, Created, now)];
      return Ok(CreateResponse(payToken, "mock://checkout/" + payToken, "mock"));
    }

    method ExecutePayment(payToken: string, txSuffix: string, now: int) returns (r: Result<ExecuteResponse, PaymentError>)
      modifies this
      ensures (payments, r) == ExecuteIn(old(payments), payToken, txSuffix, now)
    {
      if payToken == "" {
        return Err(Invalid("payToken is required"));
      }
      if !HasPrefix(payToken, TokenPrefix) {
        return Err(Invalid("invalid mock payToken format"));
      }
      if payToken !in payments {
        return Err(NotFound());
      }
      var payment := payments[payToken];
      if payment.status == Success {
        return Err(Invalid("payment already executed"));
      }
      payments := payments[payToken := payment.(status := Success)];
      return Ok(ExecuteResponse(payment.orderNo, payment.amount, now, Success, "mock_tx_" + txSuffix));
    }

    /** `GetStatus` reads the table and changes nothing. */
    method GetStatus(payToken: string) returns (r: Result<StatusResponse, PaymentError>)
      ensures r.Err? <==> payToken == "" || payToken !in payments
      ensures r.Err? ==> r.error.code == (if payToken == "" then InvalidRequest else PaymentNotFound)
      ensures r.Ok? ==> r.value == StatusResponse(payToken, payments[payToken].orderNo,
                                                  payments[payToken].status, payments[payToken].amount)
    {
      if payToken == "" {
        return Err(Invalid("payToken is required"));
      }
      if payToken !in payments {
        return Err(NotFound());
      }
      var payment := payments[payToken];
      return Ok(StatusResponse(payToken, payment.orderNo, payment.status, payment.amount));
    }
  }
}
