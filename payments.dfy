/** The payment service's payment controller: processing a payment against an
    order fetched from the order service, dispatch on the payment method's
    code, manual verification, and the `payment.*` events.

    The order lookup, the method's code, the clock and the generated ids are
    inputs. What the controller does is recorded as a trace of effects, so
    that the order of commit and publish can be stated. */
module Payments {

  import opened Common

  datatype PaymentStatus = Pending | Completed | Failed | Refunded

  /** `isset($data[$key])`: present and not null. */
  predicate IsSet(data: map<string, Json>, key: string)
  {
    key in data && data[key] != JNull
  }

  datatype MethodResult = MethodResult(success: bool, transactionId: Option<string>, error: Option<string>)

  /** The codes the dispatch knows. */
  predicate KnownCode(code: string)
  {
    code == "cash" || code == "bank_transfer" || code == "qris" || code == "credit_card"
  }

  /** `processPaymentMethod` and its `process*` helpers; `uid` is the
      generated `uniqid()`. */
  function ProcessPaymentMethod(code: string, data: map<string, Json>, uid: string): (r: MethodResult)
    ensures r.success <==>
      code == "cash" || code == "bank_transfer" || code == "qris" ||
      (code == "credit_card" && IsSet(data, "card_number") && IsSet(data, "cvv"))
    ensures r.success <==> r.transactionId.Some? && r.error.None?
    ensures !KnownCode(code) ==> r.error == Some("Invalid payment method")
    ensures code == "credit_card" && !r.success ==> r.error == Some("Invalid card data")
    ensures code == "cash" ==> r.transactionId == Some("CASH-" + uid)
    ensures code == "bank_transfer" ==> r.transactionId == Some("BANK-" + uid)
    ensures code == "qris" ==> r.transactionId == Some("QRIS-" + uid)
    ensures code == "credit_card" && r.success ==> r.transactionId == Some("CC-" + uid)
  {
    if code == "cash" then MethodResult(true, Some("CASH-" + uid), None)
    else if code == "bank_transfer" then MethodResult(true, Some("BANK-" + uid), None)
    else if code == "qris" then MethodResult(true, Some("QRIS-" + uid), None)
    else if code == "credit_card" then
      if !IsSet(data, "card_number") || !IsSet(data, "cvv") then MethodResult(false, None, Some("Invalid card data"))
      else MethodResult(true, Some("CC-" + uid), None)
    else MethodResult(false, None, Some("Invalid payment method"))
  }

  datatype Payment = Payment(orderId: int, methodId: int, amount: real, orderTotal: real, change: real,
                             status: PaymentStatus, transactionId: Option<string>, error: Option<string>,
                             paidAt: Option<string>, verifiedAt: Option<string>)

  /** What the order service says of the order: its total and the number of
      its items. */
  datatype OrderDetails = OrderDetails(totalAmount: real, itemsCount: nat)

  datatype PaymentRequest = PaymentRequest(orderId: int, methodId: int, amount: real,
                                           data: Option<map<string, Json>>)

  function StatusText(s: PaymentStatus): string
  {
    match s
    case Pending => "pending"
    case Completed => "completed"
    case Failed => "failed"
    case Refunded => "refunded"
  }

  /** The fields every payment event carries. */
  function BaseFields(id: int, p: Payment): map<string, Json>
  {
    map[
      "payment_id" := JNum(id as real),
      "order_id" := JNum(p.orderId as real),
      "payment_method_id" := JNum(p.methodId as real),
      "amount" := JNum(p.amount),
      "change_amount" := JNum(p.change),
      "status" := JStr(StatusText(p.status)),
      "paid_at" := if p.paidAt.Some? then JStr(p.paidAt.value) else JNull
    ]
  }

  /** `publishPaymentEvent`'s payload: `array_merge($base, $extra)`. */
  function EventPayload(id: int, p: Payment, extra: map<string, Json>): (r: map<string, Json>)
    ensures r.Keys == BaseFields(id, p).Keys + extra.Keys
    // the extras win on a shared key; every other base field is kept
    ensures forall k :: k in extra ==> r[k] == extra[k]
    ensures forall k :: k in BaseFields(id, p) && k !in extra ==> r[k] == BaseFields(id, p)[k]
  {
    BaseFields(id, p) + extra
  }

  datatype Effect =
    | Recorded(id: int, payment: Payment)     // the row written or updated
    | ReceiptIssued(paymentId: int)
    | OrderCompletionRequested(orderId: int)  // PUT status=completed to the order service
    | Committed
    | Published(routingKey: string, payload: map<string, Json>)

  /** Every publish comes after a commit. */
  predicate PublishAfterCommit(effects: seq<Effect>)
  {
    forall i :: 0 <= i < |effects| && effects[i].Published? ==>
      exists j :: 0 <= j < i && effects[j] == Committed
  }

  /** A trace whose only publish is its last effect, after a commit. */
  lemma OnlyLastPublished(effects: seq<Effect>, c: int)
    requires 0 <= c < |effects| - 1 && effects[c] == Committed
    requires forall i :: 0 <= i < |effects| - 1 ==> !effects[i].Published?
    ensures PublishAfterCommit(effects)
  {
    forall i | 0 <= i < |effects| && effects[i].Published?
      ensures exists j :: 0 <= j < i && effects[j] == Committed
    {
      assert i == |effects| - 1 && effects[c] == Committed;
    }
  }

  datatype ProcessReply =
    | InvalidRequest                                 // 422
    | OrderNotFound                                  // 404
    | Underpaid(orderTotal: real, amount: real)      // 400
    | DuplicatePayment                               // 500: payments.order_id is unique
    | AlreadyCompleted                               // 400 'Payment already completed' (verify)
    | Paid(paymentId: int)                           // 201 from process, 200 from verify
    | PaymentRejected(paymentId: int, error: string) // 400

  datatype Processed = Processed(payments: map<int, Payment>, effects: seq<Effect>, reply: ProcessReply)

  /** Whether the order already has a payment. */
  predicate HasPayment(payments: map<int, Payment>, orderId: int)
  {
    exists id :: id in payments && payments[id].orderId == orderId
  }

  /** The payment row `process` first creates. */
  function PendingPayment(req: PaymentRequest, order: OrderDetails): (p: Payment)
  {
    Payment(req.orderId, req.methodId, req.amount, order.totalAmount, req.amount - order.totalAmount,
            Pending, None, None, None, None)
  }

  /** `process`: `code` is the code of the chosen method, None when no
      payment method has that id, `order` what the order lookup gave, `now`
      the clock and `uid` the generated id. */
  function Process(payments: map<int, Payment>, newId: int, req: PaymentRequest, code: Option<string>,
                   order: Option<OrderDetails>, now: string, uid: string): (r: Processed)
    // refusals create nothing and publish nothing
    ensures r.reply == InvalidRequest <==> req.amount < 0.0 || code.None?
    ensures r.reply == OrderNotFound <==> req.amount >= 0.0 && code.Some? && order.None?
    ensures r.reply.Underpaid? <==>
      req.amount >= 0.0 && code.Some? && order.Some? && req.amount < order.value.totalAmount
    ensures r.reply.Underpaid? ==> r.reply == Underpaid(order.value.totalAmount, req.amount)
    ensures !r.reply.Paid? && !r.reply.PaymentRejected? ==> r.payments == payments && r.effects == []
    ensures PublishAfterCommit(r.effects)
  {
    if req.amount < 0.0 || code.None? then Processed(payments, [], InvalidRequest)
    else if order.None? then Processed(payments, [], OrderNotFound)
    else if req.amount < order.value.totalAmount then
      Processed(payments, [], Underpaid(order.value.totalAmount, req.amount))
    else if HasPayment(payments, req.orderId) || newId in payments then Processed(payments, [], DuplicatePayment)
    else
      Settle(payments, newId, req, order.value, ProcessPaymentMethod(code.value, req.data.GetOr(map[]), uid), now)
  }

  /** The admitted payment, recorded pending and then settled by the method's
      result: completed with a receipt and the order completion, or failed;
      the commit comes before the event. */
  function Settle(payments: map<int, Payment>, newId: int, req: PaymentRequest, order: OrderDetails,
                  result: MethodResult, now: string): (r: Processed)
    ensures r.reply.Paid? <==> result.success
    ensures !result.success ==> r.reply.PaymentRejected?
    ensures PublishAfterCommit(r.effects)
  {
    var pending := PendingPayment(req, order);
    if result.success then
      var paid := pending.(status := Completed, transactionId := result.transactionId, paidAt := Some(now));
      var effects := [Recorded(newId, pending), Recorded(newId, paid), ReceiptIssued(newId),
                      OrderCompletionRequested(req.orderId), Committed,
                      Published("payment.completed",
                                EventPayload(newId, paid, map["items_count" := JNum(order.itemsCount as real)]))];
      OnlyLastPublished(effects, 4);
      Processed(payments[newId := paid], effects, Paid(newId))
    else
      var error := result.error.GetOr("Payment failed");
      var failed := pending.(status := Failed, error := Some(error));
      var effects := [Recorded(newId, pending), Recorded(newId, failed), Committed,
                      Published("payment.failed", EventPayload(newId, failed, map["error" := JStr(error)]))];
      OnlyLastPublished(effects, 2);
      Processed(payments[newId := failed], effects, PaymentRejected(newId, error))
  }

  /** The method decides the outcome: an admitted payment is paid exactly
      when its method succeeds, and an order is paid at most once. */
  lemma ProcessOutcome(payments: map<int, Payment>, newId: int, req: PaymentRequest, code: Option<string>,
                       order: Option<OrderDetails>, now: string, uid: string)
    ensures var r := Process(payments, newId, req, code, order, now, uid);
      r.reply.Paid? <==>
        && req.amount >= 0.0 && code.Some? && order.Some? && req.amount >= order.value.totalAmount
        && !HasPayment(payments, req.orderId) && newId !in payments
        && ProcessPaymentMethod(code.value, req.data.GetOr(map[]), uid).success
  {
  }

  /** A created payment is recorded as pending first, has change = amount -
      total >= 0, and ends completed with a payment.completed event carrying
      the item count, or failed with a payment.failed event carrying the
      error. */
  lemma ProcessRecordsPayment(payments: map<int, Payment>, newId: int, req: PaymentRequest, code: Option<string>,
                              order: Option<OrderDetails>, now: string, uid: string)
    ensures var r := Process(payments, newId, req, code, order, now, uid);
      r.reply.Paid? || r.reply.PaymentRejected? ==>
        && code.Some? && order.Some? && newId !in payments && newId in r.payments
        && r.payments == payments[newId := r.payments[newId]]
        && r.payments[newId].change == req.amount - order.value.totalAmount >= 0.0
        && |r.effects| >= 4 && r.effects[0] == Recorded(newId, PendingPayment(req, order.value))
    ensures var r := Process(payments, newId, req, code, order, now, uid);
      r.reply.Paid? ==>
        && r.payments[newId].status == Completed && r.payments[newId].paidAt == Some(now)
        && r.effects[|r.effects| - 1] == Published("payment.completed",
             EventPayload(newId, r.payments[newId], map["items_count" := JNum(order.value.itemsCount as real)]))
    ensures var r := Process(payments, newId, req, code, order, now, uid);
      r.reply.PaymentRejected? ==>
        && r.payments[newId].status == Failed && r.payments[newId].error == Some(r.reply.error)
        && r.effects[|r.effects| - 1] == Published("payment.failed",
             EventPayload(newId, r.payments[newId], map["error" := JStr(r.reply.error)]))
  {
  }

  /** `verify`: the simulated gateway always accepts, so any payment that is
      not completed yet becomes completed, a failed one included. */
  function Verify(payments: map<int, Payment>, id: int, data: map<string, Json>, now: string): (r: Processed)
    ensures r.reply == InvalidRequest <==> id !in payments || data == map[]
    ensures id in payments && data != map[] && payments[id].status == Completed ==>
      r == Processed(payments, [], AlreadyCompleted)
    ensures id in payments && data != map[] && payments[id].status != Completed ==>
      var done := payments[id].(status := Completed, verifiedAt := Some(now), paidAt := Some(now));
      && r.reply == Paid(id)
      && r.payments == payments[id := done]
      && r.effects == [Recorded(id, done), OrderCompletionRequested(payments[id].orderId),
                       Published("payment.completed", EventPayload(id, done, map[]))]
  {
    if id !in payments || data == map[] then Processed(payments, [], InvalidRequest)
    else if payments[id].status == Completed then Processed(payments, [], AlreadyCompleted)
    else
      var done := payments[id].(status := Completed, verifiedAt := Some(now), paidAt := Some(now));
      Processed(payments[id := done],
                [Recorded(id, done), OrderCompletionRequested(payments[id].orderId),
                 Published("payment.completed", EventPayload(id, done, map[]))],
                Paid(id))
  }

  /** A payment can be paid at most once: once processed, the same order is
      refused, and a completed payment cannot be verified again. */
  lemma SecondPaymentRefused(payments: map<int, Payment>, newId: int, req: PaymentRequest, code: Option<string>,
                             order: Option<OrderDetails>, now: string, uid: string,
                             newId': int, req': PaymentRequest, code': string, uid': string)
    requires Process(payments, newId, req, code, order, now, uid).reply.Paid?
    requires req'.orderId == req.orderId && req'.amount >= 0.0
    requires order.Some? && req'.amount >= order.value.totalAmount
    ensures var after := Process(payments, newId, req, code, order, now, uid).payments;
            && Process(after, newId', req', Some(code'), order, now, uid').reply == DuplicatePayment
            && Verify(after, newId, map["ref" := JStr(uid)], now).reply == AlreadyCompleted
  {
    var after := Process(payments, newId, req, code, order, now, uid).payments;
    assert after[newId].orderId == req.orderId && after[newId].status == Completed;
    assert "ref" in map["ref" := JStr(uid)];
  }

  /** A rejected payment keeps its order, so the order can only be paid by
      verifying that payment, which completes it. */
  lemma RejectedPaymentOnlyVerifies(payments: map<int, Payment>, newId: int, req: PaymentRequest, code: Option<string>,
                                    order: Option<OrderDetails>, now: string, uid: string,
                                    newId': int, code': string, data: map<string, Json>)
    requires Process(payments, newId, req, code, order, now, uid).reply.PaymentRejected?
    requires data != map[]
    ensures var after := Process(payments, newId, req, code, order, now, uid).payments;
            && Process(after, newId', req, Some(code'), order, now, uid).reply == DuplicatePayment
            && Verify(after, newId, data, now).payments[newId].status == Completed
  {
    var after := Process(payments, newId, req, code, order, now, uid).payments;
    assert after[newId].orderId == req.orderId;
  }

  /** The payment table and the effect trace, as the controller mutates them. */
  class Ledger {
    var payments: map<int, Payment>
    var effects: seq<Effect>

    constructor (payments: map<int, Payment>)
      ensures this.payments == payments && effects == []
    {
      this.payments := payments;
      effects := [];
    }

    /** `process` in place. */
    method ProcessPayment(newId: int, req: PaymentRequest, code: Option<string>, order: Option<OrderDetails>,
                          now: string, uid: string) returns (reply: ProcessReply)
      modifies this
      ensures payments == Process(old(payments), newId, req, code, order, now, uid).payments
      ensures effects == old(effects) + Process(old(payments), newId, req, code, order, now, uid).effects
      ensures reply == Process(old(payments), newId, req, code, order, now, uid).reply
    {
      ghost var spec := Process(payments, newId, req, code, order, now, uid);
      if req.amount < 0.0 || code.None? {
        return InvalidRequest;
      }
      if order.None? {
        return OrderNotFound;
      }
      var total := order.value.totalAmount;
      if req.amount < total {
        return Underpaid(total, req.amount);
      }
      if newId in payments || HasPayment(payments, req.orderId) {
        assert spec == Processed(payments, [], DuplicatePayment);
        return DuplicatePayment;
      }
      var pending := Payment(req.orderId, req.methodId, req.amount, total, req.amount - total,
                             Pending, None, None, None, None);
      var result := ProcessPaymentMethod(code.value, if req.data.Some? then req.data.value else map[], uid);
      assert pending == PendingPayment(req, order.value) && result == ProcessPaymentMethod(code.value, req.data.GetOr(map[]), uid);
      if result.success {
        var paid := pending.(status := Completed, transactionId := result.transactionId, paidAt := Some(now));
        var added := [Recorded(newId, pending), Recorded(newId, paid), ReceiptIssued(newId),
                      OrderCompletionRequested(req.orderId), Committed,
                      Published("payment.completed",
                                EventPayload(newId, paid, map["items_count" := JNum(order.value.itemsCount as real)]))];
        assert spec == Processed(payments[newId := paid], added, Paid(newId));
        payments := payments[newId := paid];
        effects := effects + added;
        return Paid(newId);
      }
      var error := if result.error.Some? then result.error.value else "Payment failed";
      var failed := pending.(status := Failed, error := Some(error));
      var added := [Recorded(newId, pending), Recorded(newId, failed), Committed,
                    Published("payment.failed", EventPayload(newId, failed, map["error" := JStr(error)]))];
      assert spec == Processed(payments[newId := failed], added, PaymentRejected(newId, error));
      payments := payments[newId := failed];
      effects := effects + added;
      return PaymentRejected(newId, error);
    }

    /** `verify` in place. */
    method VerifyPayment(id: int, data: map<string, Json>, now: string) returns (reply: ProcessReply)
      modifies this
      ensures payments == Verify(old(payments), id, data, now).payments
      ensures effects == old(effects) + Verify(old(payments), id, data, now).effects
      ensures reply == Verify(old(payments), id, data, now).reply
    {
      if id !in payments || data == map[] {
        return InvalidRequest;
      }
      if payments[id].status == Completed {
        return AlreadyCompleted;
      }
      var done := payments[id].(status := Completed, verifiedAt := Some(now), paidAt := Some(now));
      payments := payments[id := done];
      effects := effects + [Recorded(id, done), OrderCompletionRequested(done.orderId),
                            Published("payment.completed", EventPayload(id, done, map[]))];
      return Paid(id);
    }
  }
}
