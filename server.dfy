/** The payment and payout handlers of the HTTP server (internal/server):
    body validation, the global idempotency replay, the provider calls and
    the rows written, and the classification of promotion result types.
    The provider is a set of transport oracles, JSON encoding is the oracle
    `encode`, and `uuid` / `orderUuid` stand for newly generated UUIDs. */
module Server {
  import opened Wrappers
  import opened Text
  import opened TossClient
  import opened PostgresStore

  // ---------------------------------------------------------------------
  // Result types

  /** Classifies a promotion result type, ignoring case: SUCCESS, one of the
      three failures, or anything else (the transient HTTP_TIMEOUT,
      NETWORK_ERROR, INTERRUPTED included) as still pending. */
  function NormalizeResultType(rt: string): (r: string)
    ensures r == "SUCCESS" || r == "FAIL" || r == "PENDING"
    ensures r == "SUCCESS" <==> ToUpper(rt) == "SUCCESS"
    ensures r == "FAIL" <==> ToUpper(rt) in {"FAIL", "EXECUTION_FAIL", "INTERNAL_ERROR"}
  {
    var u := ToUpper(rt);
    if u == "SUCCESS" then "SUCCESS"
    else if u == "FAIL" || u == "EXECUTION_FAIL" || u == "INTERNAL_ERROR" then "FAIL"
    else "PENDING"
  }

  /** The three classes are fixed points, so classifying twice is
      classifying once. */
  lemma NormalizeResultTypeFixedPoints(rt: string)
    ensures NormalizeResultType("SUCCESS") == "SUCCESS"
    ensures NormalizeResultType("FAIL") == "FAIL"
    ensures NormalizeResultType("PENDING") == "PENDING"
    ensures NormalizeResultType(NormalizeResultType(rt)) == NormalizeResultType(rt)
  {
    UpperUnchanged("SUCCESS");
    UpperUnchanged("FAIL");
    UpperUnchanged("PENDING");
  }

  /** Lower-case spellings classify like upper-case ones. */
  lemma NormalizeResultTypeIgnoresCase(rt: string)
    ensures NormalizeResultType(ToLower(rt)) == NormalizeResultType(rt)
  {
    ToUpperForgetsCase(rt);
  }

  /** The transient transport errors and the failure codes, spelled as the
      provider spells them. */
  lemma NormalizeResultTypeCodes()
    ensures NormalizeResultType("EXECUTION_FAIL") == "FAIL"
    ensures NormalizeResultType("INTERNAL_ERROR") == "FAIL"
    ensures NormalizeResultType("HTTP_TIMEOUT") == "PENDING"
    ensures NormalizeResultType("NETWORK_ERROR") == "PENDING"
    ensures NormalizeResultType("INTERRUPTED") == "PENDING"
  {
    UpperUnchanged("EXECUTION_FAIL");
    UpperUnchanged("INTERNAL_ERROR");
    UpperUnchanged("HTTP_TIMEOUT");
    UpperUnchanged("NETWORK_ERROR");
    UpperUnchanged("INTERRUPTED");
  }

  // ---------------------------------------------------------------------
  // Requests, replies and the provider

  datatype Claims = Claims(userId: int, tossUserKey: string)

  datatype PaymentCreateReq = PaymentCreateReq(orderNo: string, productDesc: string, amount: int,
                                               isTestPayment: bool)
  datatype PaymentExecuteReq = PaymentExecuteReq(orderNo: string, payToken: string, isTestPayment: bool)
  datatype PayoutIssueReq = PayoutIssueReq(promotionCode: string, amountPoints: int)

  /** What a handler answers. `Cached` is a replayed response, written back
      byte for byte. */
  datatype Body =
    | ErrorBody(code: string)
    | Cached(bytes: Bytes)
    | PaymentCreated(orderNo: string, payToken: string)
    | PaymentExecuted(result: ExecutePaymentSuccess, raw: Bytes)
    | PayoutIssued(promotionKey: string, execute: PromotionResult, rawKey: Bytes, rawExecute: Bytes)
    | PayoutStatus(status: string, raw: Bytes)

  datatype HttpReply = HttpReply(status: int, body: Body)

  /** The provider endpoints, one transport oracle per response type. */
  datatype Provider = Provider(client: Client,
                               getKey: Request -> Wire<GetKeySuccess>,
                               promotion: Request -> Wire<PromotionResult>,
                               makePayment: Request -> Wire<MakePaymentSuccess>,
                               executePayment: Request -> Wire<ExecutePaymentSuccess>)

  /** A handler's effect: the tables afterwards, the reply, and the provider
      requests sent, in order. */
  datatype Outcome = Outcome(state: DbState, reply: HttpReply, sent: seq<Request>)

  const PayoutScope: string := "payout-issue"
  const PaymentScope: string := "make-payment"

  /** The Idempotency-Key header, or a generated key when it is absent. */
  function IdemKeyOf(header: string, prefix: string, uuid: string): (k: string)
    ensures header != "" ==> k == header
    ensures header == "" ==> k == prefix + uuid
  {
    if header == "" then prefix + uuid else header
  }

  /** The raw column of a payout: nothing when both provider bodies are
      empty, else their JSON combination. */
  function MergeRaw(a: Bytes, b: Bytes, combine: (Bytes, Bytes) -> Bytes): (r: Bytes)
    ensures |a| == 0 && |b| == 0 ==> r == []
    ensures |a| > 0 || |b| > 0 ==> r == combine(a, b)
  {
    if |a| == 0 && |b| == 0 then [] else combine(a, b)
  }

  // ---------------------------------------------------------------------
  // Specifications of the handlers

  function PayoutIssue(s: DbState, p: Provider, claims: Option<Claims>, body: Option<PayoutIssueReq>,
                       header: string, uuid: string, encode: Body -> Bytes,
                       combine: (Bytes, Bytes) -> Bytes, now: int): Outcome
  {
    if claims.None? then Outcome(s, HttpReply(401, ErrorBody("missing_claims")), [])
    else if body.None? then Outcome(s, HttpReply(400, ErrorBody("invalid_json")), [])
    else if body.value.promotionCode == "" || body.value.amountPoints <= 0 then
      Outcome(s, HttpReply(400, ErrorBody("invalid_fields")), [])
    else
      var c, req := claims.value, body.value;
      var key := IdemKeyOf(header, "po-", uuid);
      if (PayoutScope, key) in s.idem then Outcome(s, HttpReply(200, Cached(s.idem[(PayoutScope, key)])), [])
      else
        var q1 := PromotionGetKeyRequest(p.client, c.tossUserKey, req.promotionCode);
        var k := PromotionGetKey(p.client, c.tossUserKey, req.promotionCode, p.getKey);
        if k.Failure? then Outcome(s, HttpReply(500, ErrorBody("toss_get_key_failed")), [q1])
        else
          var q2 := PromotionExecuteRequest(p.client, c.tossUserKey, key, k.value.key, req.amountPoints);
          var e := PromotionExecute(p.client, c.tossUserKey, key, k.value.key, req.amountPoints, p.promotion);
          if e.Failure? then Outcome(s, HttpReply(500, ErrorBody("toss_execute_promotion_failed")), [q1, q2])
          else
            var resp := PayoutIssued(k.value.key, e.value, k.raw, e.raw);
            var row := NewPayout(c.userId, req.promotionCode, k.value.key, req.amountPoints, "REQUESTED",
                                 MergeRaw(k.raw, e.raw, combine));
            var s' := DbState(PutIdem(s.idem, (PayoutScope, key), encode(resp)), s.payments,
                              AppendPayout(s.payouts, s.nextPayoutId, row, now), s.nextPayoutId + 1);
            Outcome(s', HttpReply(200, resp), [q1, q2])
  }

  function PaymentCreate(s: DbState, p: Provider, claims: Option<Claims>, body: Option<PaymentCreateReq>,
                         header: string, orderUuid: string, uuid: string, encode: Body -> Bytes): Outcome
  {
    if claims.None? then Outcome(s, HttpReply(401, ErrorBody("missing_claims")), [])
    else if body.None? then Outcome(s, HttpReply(400, ErrorBody("invalid_json")), [])
    else if body.value.productDesc == "" || body.value.amount <= 0 then
      Outcome(s, HttpReply(400, ErrorBody("invalid_fields")), [])
    else
      var c, req := claims.value, body.value;
      var orderNo := IdemKeyOf(req.orderNo, "order-", orderUuid);
      var key := IdemKeyOf(header, "mp-", uuid);
      if (PaymentScope, key) in s.idem then Outcome(s, HttpReply(200, Cached(s.idem[(PaymentScope, key)])), [])
      else
        var pb := MakePaymentBody(orderNo, req.productDesc, req.amount, 0, "", req.isTestPayment);
        var q := MakePaymentRequest(p.client, c.tossUserKey, key, pb);
        var m := MakePayment(p.client, c.tossUserKey, key, pb, p.makePayment);
        if m.Failure? then Outcome(s, HttpReply(500, ErrorBody("toss_make_payment_failed")), [q])
        else
          var resp := PaymentCreated(orderNo, m.value.payToken);
          var row := PaymentRow(c.userId, orderNo, m.value.payToken, req.amount, "CREATED", m.raw);
          var s' := s.(payments := s.payments + [row],
                       idem := PutIdem(s.idem, (PaymentScope, key), encode(resp)));
          Outcome(s', HttpReply(200, resp), [q])
  }

  function PaymentExecute(s: DbState, p: Provider, claims: Option<Claims>, body: Option<PaymentExecuteReq>): Outcome
  {
    if claims.None? then Outcome(s, HttpReply(401, ErrorBody("missing_claims")), [])
    else if body.None? then Outcome(s, HttpReply(400, ErrorBody("invalid_json")), [])
    else if body.value.orderNo == "" || body.value.payToken == "" then
      Outcome(s, HttpReply(400, ErrorBody("missing_fields")), [])
    else
      var c, req := claims.value, body.value;
      var q := ExecutePaymentRequest(p.client, c.tossUserKey, req.payToken, req.orderNo, req.isTestPayment);
      var x := ExecutePayment(p.client, c.tossUserKey, req.payToken, req.orderNo, req.isTestPayment, p.executePayment);
      if x.Failure? then Outcome(s, HttpReply(500, ErrorBody("toss_execute_payment_failed")), [q])
      else
        var row := PaymentRow(c.userId, req.orderNo, req.payToken, 0, "EXECUTED", x.raw);
        Outcome(s.(payments := s.payments + [row]), HttpReply(200, PaymentExecuted(x.value, x.raw)), [q])
  }

  function PayoutResult(s: DbState, p: Provider, claims: Option<Claims>, promotionKey: Option<string>, now: int): Outcome
  {
    if claims.None? then Outcome(s, HttpReply(401, ErrorBody("missing_claims")), [])
    else if promotionKey.None? then Outcome(s, HttpReply(400, ErrorBody("invalid_json")), [])
    else if promotionKey.value == "" then Outcome(s, HttpReply(400, ErrorBody("missing_fields")), [])
    else
      var c, key := claims.value, promotionKey.value;
      var q := PromotionExecutionResultRequest(p.client, c.tossUserKey, key);
      var res := PromotionExecutionResult(p.client, c.tossUserKey, key, p.promotion);
      if res.Failure? then Outcome(s, HttpReply(500, ErrorBody("toss_execution_result_failed")), [q])
      else
        var status := NormalizeResultType(res.value.resultType);
        Outcome(s.(payouts := SetPayoutStatus(s.payouts, key, status, res.raw, now)),
                HttpReply(200, PayoutStatus(status, res.raw)), [q])
  }

  // ---------------------------------------------------------------------
  // Properties of the payout issue handler

  /** A request without claims or with an invalid body is answered without
      looking at the idempotency table, calling the provider or writing. */
  lemma PayoutIssueValidatesFirst(s: DbState, other: map<IdemKey, Bytes>, p: Provider, claims: Option<Claims>,
                                  body: Option<PayoutIssueReq>, header: string, uuid: string,
                                  encode: Body -> Bytes, combine: (Bytes, Bytes) -> Bytes, now: int)
    requires claims.None? || body.None? || body.value.promotionCode == "" || body.value.amountPoints <= 0
    ensures var o := PayoutIssue(s, p, claims, body, header, uuid, encode, combine, now);
      && o.state == s && o.sent == [] && o.reply.status in {400, 401}
      && o.reply == PayoutIssue(s.(idem := other), p, claims, body, header, uuid, encode, combine, now).reply
  {
  }

  /** A key already recorded replays the cached bytes, with no provider call
      and no write. */
  lemma PayoutIssueReplays(s: DbState, p: Provider, c: Claims, req: PayoutIssueReq, header: string, uuid: string,
                           encode: Body -> Bytes, combine: (Bytes, Bytes) -> Bytes, now: int)
    requires req.promotionCode != "" && req.amountPoints > 0
    requires (PayoutScope, IdemKeyOf(header, "po-", uuid)) in s.idem
    ensures var o := PayoutIssue(s, p, Some(c), Some(req), header, uuid, encode, combine, now);
      && o.state == s && o.sent == []
      && o.reply == HttpReply(200, Cached(s.idem[(PayoutScope, IdemKeyOf(header, "po-", uuid))]))
  {
  }

  /** When get-key or execute-promotion fails nothing is written, so the key
      stays unrecorded and the same request may be retried. */
  lemma PayoutIssueFailureWritesNothing(s: DbState, p: Provider, c: Claims, req: PayoutIssueReq, header: string,
                                        uuid: string, encode: Body -> Bytes, combine: (Bytes, Bytes) -> Bytes, now: int)
    requires req.promotionCode != "" && req.amountPoints > 0
    requires (PayoutScope, IdemKeyOf(header, "po-", uuid)) !in s.idem
    ensures var o := PayoutIssue(s, p, Some(c), Some(req), header, uuid, encode, combine, now);
      o.reply.status != 200 ==> && o.state == s && o.reply.status == 500
                                && (PayoutScope, IdemKeyOf(header, "po-", uuid)) !in o.state.idem
  {
  }

  /** On success the handler first asks for a promotion key, then executes
      the promotion under the same idempotency key, records one REQUESTED
      payout carrying that promotion key, and caches the response under
      (payout-issue, key). */
  lemma PayoutIssueSucceeds(s: DbState, p: Provider, c: Claims, req: PayoutIssueReq, header: string,
                            uuid: string, encode: Body -> Bytes, combine: (Bytes, Bytes) -> Bytes, now: int)
    requires req.promotionCode != "" && req.amountPoints > 0
    ensures var o := PayoutIssue(s, p, Some(c), Some(req), header, uuid, encode, combine, now);
      var key := IdemKeyOf(header, "po-", uuid);
      o.reply.status == 200 && (PayoutScope, key) !in s.idem ==>
        && o.reply.body.PayoutIssued?
        && |o.sent| == 2 && o.sent[0].body == GetKeyBody(req.promotionCode)
        && o.sent[1].headers[IdempotencyHeader] == key
        && o.sent[1].body == ExecutePromotionBody(o.reply.body.promotionKey, req.amountPoints)
        && p.getKey(o.sent[0]).Delivered? && p.getKey(o.sent[0]).env.success.Some?
        && o.reply.body.promotionKey == p.getKey(o.sent[0]).env.success.value.key
        && o.state.payments == s.payments
        && |o.state.payouts| == |s.payouts| + 1 && o.state.payouts[..|s.payouts|] == s.payouts
        && o.state.payouts[|s.payouts|].status == "REQUESTED"
        && o.state.payouts[|s.payouts|].promotionKey == o.reply.body.promotionKey
        && o.state.payouts[|s.payouts|].userId == c.userId
        && o.state.payouts[|s.payouts|].promotionCode == req.promotionCode
        && o.state.payouts[|s.payouts|].amountPoints == req.amountPoints
        && o.state.idem == s.idem[(PayoutScope, key) := encode(o.reply.body)]
  {
    var key := IdemKeyOf(header, "po-", uuid);
    assert key != "";
  }

  /** Issuing twice with the same key: the second call replays what the
      first cached, calls nobody and writes nothing. */
  lemma PayoutIssueTwice(s: DbState, p: Provider, c: Claims, req: PayoutIssueReq, header: string,
                         uuid: string, uuid2: string, encode: Body -> Bytes, combine: (Bytes, Bytes) -> Bytes,
                         now: int, now2: int)
    requires header != ""
    ensures var o1 := PayoutIssue(s, p, Some(c), Some(req), header, uuid, encode, combine, now);
      var o2 := PayoutIssue(o1.state, p, Some(c), Some(req), header, uuid2, encode, combine, now2);
      o1.reply.status == 200 ==>
        && o2.state == o1.state && o2.sent == []
        && o2.reply == HttpReply(200, Cached(o1.state.idem[(PayoutScope, header)]))
        && (o1.reply.body.PayoutIssued? ==> o2.reply.body.bytes == encode(o1.reply.body))
  {
  }

  // ---------------------------------------------------------------------
  // Properties of the payment handlers

  /** Payment creation validates before any lookup, replays a recorded key,
      writes nothing when the provider fails, and on success writes one
      CREATED payment and caches {orderNo, payToken} under (make-payment, key). */
  lemma PaymentCreateSequencing(s: DbState, p: Provider, c: Claims, req: PaymentCreateReq, header: string,
                                orderUuid: string, uuid: string, encode: Body -> Bytes)
    ensures var o := PaymentCreate(s, p, Some(c), Some(req), header, orderUuid, uuid, encode);
      var key := IdemKeyOf(header, "mp-", uuid);
      var orderNo := IdemKeyOf(req.orderNo, "order-", orderUuid);
      && (req.productDesc == "" || req.amount <= 0 ==> o.state == s && o.sent == [] && o.reply.status == 400)
      && (req.productDesc != "" && req.amount > 0 && (PaymentScope, key) in s.idem ==>
            o.state == s && o.sent == [] && o.reply == HttpReply(200, Cached(s.idem[(PaymentScope, key)])))
      && (req.productDesc != "" && req.amount > 0 && (PaymentScope, key) !in s.idem ==>
            && |o.sent| == 1 && o.sent[0].headers[IdempotencyHeader] == key
            && o.sent[0].body == MakePaymentBody(orderNo, req.productDesc, req.amount, 0, "", req.isTestPayment)
            && (o.reply.status != 200 ==> o.state == s && o.reply.status == 500)
            && (o.reply.status == 200 ==>
                  var w := p.makePayment(o.sent[0]);
                  && w.Delivered? && w.env.success.Some?
                  && o.reply.body == PaymentCreated(orderNo, w.env.success.value.payToken)
                  && o.state.payments == s.payments + [PaymentRow(c.userId, orderNo, w.env.success.value.payToken,
                                                                  req.amount, "CREATED", w.raw)]
                  && o.state.payouts == s.payouts
                  && o.state.idem == s.idem[(PaymentScope, key) := encode(o.reply.body)]))
  {
    var key := IdemKeyOf(header, "mp-", uuid);
    assert key != "";
  }

  /** Executing a payment never consults or writes the idempotency table
      or the payouts. On success it appends one EXECUTED row with amount 0
      for the caller, the request's order and token and the provider's raw
      body, and replies with the provider's `success`, else its `result`. */
  lemma PaymentExecuteLogs(s: DbState, p: Provider, claims: Option<Claims>, body: Option<PaymentExecuteReq>)
    ensures var o := PaymentExecute(s, p, claims, body);
      && o.state.idem == s.idem && o.state.payouts == s.payouts
      && (o.reply.status == 200 ==>
            && claims.Some? && body.Some? && |o.sent| == 1
            && o.sent[0].body == ExecutePaymentBody(body.value.payToken, body.value.orderNo, body.value.isTestPayment)
            && var w := p.executePayment(o.sent[0]);
            && w.Delivered? && (w.env.success.Some? || w.env.result.Some?)
            && o.state.payments == s.payments + [PaymentRow(claims.value.userId, body.value.orderNo,
                                                            body.value.payToken, 0, "EXECUTED", w.raw)]
            && o.reply.body == PaymentExecuted(if w.env.success.Some? then w.env.success.value
                                               else w.env.result.value, w.raw))
      && (o.reply.status != 200 ==> o.state == s)
      && (o.sent != [] ==> IdempotencyHeader !in o.sent[0].headers)
  {
    var o := PaymentExecute(s, p, claims, body);
    if o.sent != [] {
      var c, req := claims.value, body.value;
      RequestHeaders(p.client, c.tossUserKey, "", "", "", 0, MakePaymentBody("", "", 0, 0, "", false),
                     req.payToken, req.orderNo, req.isTestPayment);
    }
  }

  /** The payout-result handler reports exactly the status it writes, the
      classification of the provider's result type, to every payout with
      that promotion key, whatever their earlier status. */
  lemma PayoutResultReportsWritten(s: DbState, p: Provider, c: Claims, key: string, now: int)
    requires key != ""
    ensures var o := PayoutResult(s, p, Some(c), Some(key), now);
      && o.state.idem == s.idem && o.state.payments == s.payments && |o.state.payouts| == |s.payouts|
      && (o.reply.status == 200 ==>
            && o.reply.body.PayoutStatus?
            && o.reply.body.status in {"SUCCESS", "FAIL", "PENDING"}
            && (forall i :: 0 <= i < |s.payouts| && s.payouts[i].promotionKey == key ==>
                  o.state.payouts[i].status == o.reply.body.status)
            && (forall i :: 0 <= i < |s.payouts| && s.payouts[i].promotionKey != key ==>
                  o.state.payouts[i] == s.payouts[i]))
      && (o.reply.status != 200 ==> o.state == s)
  {
  }

  // ---------------------------------------------------------------------
  // The handlers, step by step against the database

  method HandlePayoutIssue(db: Postgres, p: Provider, claims: Option<Claims>, body: Option<PayoutIssueReq>,
                           header: string, uuid: string, encode: Body -> Bytes,
                           combine: (Bytes, Bytes) -> Bytes, now: int)
    returns (reply: HttpReply, sent: seq<Request>)
    modifies db`idem, db`payouts, db`nextPayoutId
    ensures var o := PayoutIssue(old(db.State()), p, claims, body, header, uuid, encode, combine, now);
      db.State() == o.state && reply == o.reply && sent == o.sent
  {
    if claims.None? {
      return HttpReply(401, ErrorBody("missing_claims")), [];
    }
    if body.None? {
      return HttpReply(400, ErrorBody("invalid_json")), [];
    }
    var c, req := claims.value, body.value;
    if req.promotionCode == "" || req.amountPoints <= 0 {
      return HttpReply(400, ErrorBody("invalid_fields")), [];
    }
    var key := IdemKeyOf(header, "po-", uuid);
    var found, cached := db.GetIdempotency(PayoutScope, key);
    if found {
      return HttpReply(200, Cached(cached)), [];
    }
    var q1 := PromotionGetKeyRequest(p.client, c.tossUserKey, req.promotionCode);
    var k := PromotionGetKey(p.client, c.tossUserKey, req.promotionCode, p.getKey);
    if k.Failure? {
      return HttpReply(500, ErrorBody("toss_get_key_failed")), [q1];
    }
    var q2 := PromotionExecuteRequest(p.client, c.tossUserKey, key, k.value.key, req.amountPoints);
    var e := PromotionExecute(p.client, c.tossUserKey, key, k.value.key, req.amountPoints, p.promotion);
    if e.Failure? {
      return HttpReply(500, ErrorBody("toss_execute_promotion_failed")), [q1, q2];
    }
    db.InsertPayout(NewPayout(c.userId, req.promotionCode, k.value.key, req.amountPoints, "REQUESTED",
                              MergeRaw(k.raw, e.raw, combine)), now);
    var resp := PayoutIssued(k.value.key, e.value, k.raw, e.raw);
    db.PutIdempotency(PayoutScope, key, encode(resp));
    reply, sent := HttpReply(200, resp), [q1, q2];
  }

  method HandlePaymentCreate(db: Postgres, p: Provider, claims: Option<Claims>, body: Option<PaymentCreateReq>,
                             header: string, orderUuid: string, uuid: string, encode: Body -> Bytes)
    returns (reply: HttpReply, sent: seq<Request>)
    modifies db`idem, db`payments
    ensures var o := PaymentCreate(old(db.State()), p, claims, body, header, orderUuid, uuid, encode);
      db.State() == o.state && reply == o.reply && sent == o.sent
  {
    if claims.None? {
      return HttpReply(401, ErrorBody("missing_claims")), [];
    }
    if body.None? {
      return HttpReply(400, ErrorBody("invalid_json")), [];
    }
    var c, req := claims.value, body.value;
    if req.productDesc == "" || req.amount <= 0 {
      return HttpReply(400, ErrorBody("invalid_fields")), [];
    }
    var orderNo := IdemKeyOf(req.orderNo, "order-", orderUuid);
    var key := IdemKeyOf(header, "mp-", uuid);
    var found, cached := db.GetIdempotency(PaymentScope, key);
    if found {
      return HttpReply(200, Cached(cached)), [];
    }
    var pb := MakePaymentBody(orderNo, req.productDesc, req.amount, 0, "", req.isTestPayment);
    var q := MakePaymentRequest(p.client, c.tossUserKey, key, pb);
    var m := MakePayment(p.client, c.tossUserKey, key, pb, p.makePayment);
    if m.Failure? {
      return HttpReply(500, ErrorBody("toss_make_payment_failed")), [q];
    }
    db.InsertPayment(PaymentRow(c.userId, orderNo, m.value.payToken, req.amount, "CREATED", m.raw));
    var resp := PaymentCreated(orderNo, m.value.payToken);
    db.PutIdempotency(PaymentScope, key, encode(resp));
    reply, sent := HttpReply(200, resp), [q];
  }

  method HandlePaymentExecute(db: Postgres, p: Provider, claims: Option<Claims>, body: Option<PaymentExecuteReq>)
    returns (reply: HttpReply, sent: seq<Request>)
    modifies db`payments
    ensures var o := PaymentExecute(old(db.State()), p, claims, body);
      db.State() == o.state && reply == o.reply && sent == o.sent
  {
    if claims.None? {
      return HttpReply(401, ErrorBody("missing_claims")), [];
    }
    if body.None? {
      return HttpReply(400, ErrorBody("invalid_json")), [];
    }
    var c, req := claims.value, body.value;
    if req.orderNo == "" || req.payToken == "" {
      return HttpReply(400, ErrorBody("missing_fields")), [];
    }
    var q := ExecutePaymentRequest(p.client, c.tossUserKey, req.payToken, req.orderNo, req.isTestPayment);
    var x := ExecutePayment(p.client, c.tossUserKey, req.payToken, req.orderNo, req.isTestPayment, p.executePayment);
    if x.Failure? {
      return HttpReply(500, ErrorBody("toss_execute_payment_failed")), [q];
    }
    db.InsertPayment(PaymentRow(c.userId, req.orderNo, req.payToken, 0, "EXECUTED", x.raw));
    reply, sent := HttpReply(200, PaymentExecuted(x.value, x.raw)), [q];
  }

  method HandlePayoutResult(db: Postgres, p: Provider, claims: Option<Claims>, promotionKey: Option<string>, now: int)
    returns (reply: HttpReply, sent: seq<Request>)
    modifies db`payouts
    ensures var o := PayoutResult(old(db.State()), p, claims, promotionKey, now);
      db.State() == o.state && reply == o.reply && sent == o.sent
  {
    if claims.None? {
      return HttpReply(401, ErrorBody("missing_claims")), [];
    }
    if promotionKey.None? {
      return HttpReply(400, ErrorBody("invalid_json")), [];
    }
    var c, key := claims.value, promotionKey.value;
    if key == "" {
      return HttpReply(400, ErrorBody("missing_fields")), [];
    }
    var q := PromotionExecutionResultRequest(p.client, c.tossUserKey, key);
    var res := PromotionExecutionResult(p.client, c.tossUserKey, key, p.promotion);
    if res.Failure? {
      return HttpReply(500, ErrorBody("toss_execution_result_failed")), [q];
    }
    var status := NormalizeResultType(res.value.resultType);
    db.UpdatePayoutStatus(key, status, res.raw, now);
    reply, sent := HttpReply(200, PayoutStatus(status, res.raw)), [q];
  }
}
