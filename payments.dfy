/**
 * The two-phase payment service of main/stripe_utils.py (`StripePaymentService`).
 *
 * A `Payment` row is created in `Pending` once the card processor has opened a
 * manual-capture hold for the deposit; the deposit is then captured, the rest is
 * charged later off-session against the card saved at deposit capture, and a
 * captured deposit can be refunded or the hold released.
 *
 * Every answer of the processor is a parameter (`GatewayResult`), and so is every
 * receipt e-mail's delivery. Each operation returns, besides its reply, the list
 * of outbound requests it made (`ExternalCall`), so that "no gateway call" and
 * "captures exactly the deposit" are statements about that list. Amounts are
 * integer cents; instants are integer seconds.
 */
module Payments {
  import opened Wrappers
  import opened Clock
  import Catalog

  datatype PaymentStatus =
    | Pending
    | DepositCaptured
    | FullyCaptured
    | DepositRefunded
    | Cancelled
    | Failed

  /** A processor answer: the call's value, a card error (`stripe.error.CardError`, which
      is also a `StripeError`) or any other `StripeError`. */
  datatype GatewayResult<T> =
    | Done(value: T)
    | CardError(code: string, message: string, intent: Option<string>)
    | ApiError(message: string)
  {
    /** `str(e)` of the exception. */
    function ErrorText(): string
      requires !Done?
    {
      message
    }
  }

  datatype IntentInfo = IntentInfo(id: string, clientSecret: string)

  /** An outbound request: a call to the processor or a receipt e-mail. */
  datatype ExternalCall =
    | CreateCustomer(email: string)
    | CreateIntent(customer: string, amount: int)
    | CaptureIntent(intent: string, amount: int)
    | ChargeOffSession(customer: string, paymentMethod: string, amount: int)
    | RefundIntent(intent: string, amount: int)
    | CancelIntent(intent: string)
    | CompletionReceipt
    | RefundReceipt

  predicate IsGatewayCall(c: ExternalCall) {
    !(c.CompletionReceipt? || c.RefundReceipt?)
  }

  /** The dictionaries the service methods return. */
  datatype Reply =
    | Created(clientSecret: string, depositAmount: int, totalAmount: int)
    | Ok
    | Charged(intentId: string, amountCharged: int)
    | Completed(receiptSent: bool)
    | Refunded(refundId: string, receiptSent: bool)
    | Err(error: string)
    | NeedsAction(error: string, pendingIntentId: Option<string>)
  {
    /** The `success` key. */
    predicate Success() {
      !(Err? || NeedsAction?)
    }
  }

  const NoSavedMethodError: string :=
    "No saved payment method found. Customer needs to provide payment details."
  const AuthenticationRequiredError: string :=
    "Payment requires customer authentication. Please send a payment request email to the customer."
  const CannotCaptureRemainingError: string :=
    "Cannot capture remaining amount. Payment status must be deposit_captured."
  const CannotRefundDepositError: string :=
    "Cannot refund deposit. No captured payment found."
  const CannotCancelAuthorizationError: string :=
    "Cannot cancel authorization. Payment must be in deposit_captured state."

  /** `f'{cents / 100:.2f}'` of a whole number of cents. */
  function Dollars(cents: int): string {
    var magnitude := if cents < 0 then -cents else cents;
    (if cents < 0 then "-" else "") + NatToString(magnitude / 100) + "." + Pad2(magnitude % 100)
  }

  /** The note written after the remaining charge. It formats
      `get_remaining_amount_dollars()`, a method of the Payment model, which is not part
      of this model. The model takes it to be the remaining amount divided by 100. */
  function RemainingChargedNote(remaining: int): string {
    "Remaining $" + Dollars(remaining) + " charged successfully via saved payment method"
  }

  /** What an off-session charge against a saved card replies, given the processor's
      answer (the card-error branch distinguishes `authentication_required`). */
  function ChargeReply(result: GatewayResult<string>, amount: int): (r: Reply)
    ensures r.Success() <==> result.Done?
    ensures r.Charged? <==> result.Done?
    ensures r.NeedsAction? <==> result.CardError? && result.code == "authentication_required"
    ensures r.NeedsAction? ==> r == NeedsAction(AuthenticationRequiredError, result.intent)
    ensures r.Charged? ==> r.amountCharged == amount && r.intentId == result.value
    ensures r.Err? ==> r.error == (if result.CardError? then "Card was declined: " + result.message
                                   else result.ErrorText())
  {
    match result
    case Done(id) => Charged(id, amount)
    case CardError(code, message, intent) =>
      if code == "authentication_required" then NeedsAction(AuthenticationRequiredError, intent)
      else Err("Card was declined: " + message)
    case ApiError(message) => Err(message)
  }

  /** The columns of a payment row. */
  datatype PaymentRecord = PaymentRecord(
    bookingId: int,
    intentId: string,
    customerId: string,
    savedPaymentMethodId: Option<string>,
    depositAmount: int,
    totalAmount: int,
    remainingAmount: int,
    status: PaymentStatus,
    depositCapturedAt: Option<int>,
    fullyCapturedAt: Option<int>,
    refundedAt: Option<int>,
    notes: string)

  /** `if not payment.saved_payment_method_id`: NULL and the empty string are both absent. */
  predicate SavedMethodPresent(row: PaymentRecord) {
    row.savedPaymentMethodId.Some? && row.savedPaymentMethodId.value != ""
  }

  /** A reply, the row afterwards, and the outbound requests made. */
  datatype Outcome = Outcome(reply: Reply, row: PaymentRecord, calls: seq<ExternalCall>)

  /** What capture_remaining_amount does to a row, `allowed` being the guard's verdict on
      its status: the refusal, the fully-captured no-op, and otherwise one charge of exactly
      the remaining amount. The reply succeeds exactly when the charge does, a failure
      changes only the notes, and only a success moves to fully_captured and sends the
      receipt. */
  function CaptureRemainingOutcome(row: PaymentRecord, allowed: bool, now: int,
                                   result: GatewayResult<string>, receiptDelivered: bool): (o: Outcome)
    ensures !allowed ==> o == Outcome(Err(CannotCaptureRemainingError), row, [])
    ensures allowed && row.status == FullyCaptured ==> o == Outcome(Ok, row, [])
    ensures o.reply.Success() <==>
              allowed && (row.status == FullyCaptured || (SavedMethodPresent(row) && result.Done?))
    ensures allowed && row.status != FullyCaptured ==>
              o.calls == (if SavedMethodPresent(row)
                          then [ChargeOffSession(row.customerId, row.savedPaymentMethodId.value,
                                                 row.remainingAmount)]
                          else []) + (if o.reply.Completed? then [CompletionReceipt] else [])
    ensures o.reply.Completed? <==>
              allowed && row.status != FullyCaptured && SavedMethodPresent(row) && result.Done?
    ensures allowed && row.status != FullyCaptured && !o.reply.Success() ==>
              o.reply == (if SavedMethodPresent(row) then ChargeReply(result, row.remainingAmount)
                          else Err(NoSavedMethodError)) &&
              o.row == row.(notes := "Remaining payment failed: " + o.reply.error)
    ensures o.reply.Completed? ==>
              o.reply.receiptSent == receiptDelivered &&
              o.row == row.(status := FullyCaptured, fullyCapturedAt := Some(now),
                            notes := RemainingChargedNote(row.remainingAmount))
    ensures o.row.(notes := row.notes, status := row.status, fullyCapturedAt := row.fullyCapturedAt) == row
  {
    if !allowed then Outcome(Err(CannotCaptureRemainingError), row, [])
    else if row.status == FullyCaptured then Outcome(Ok, row, [])
    else if !SavedMethodPresent(row) then
      Outcome(Err(NoSavedMethodError), row.(notes := "Remaining payment failed: " + NoSavedMethodError), [])
    else
      var charge := ChargeReply(result, row.remainingAmount);
      var call := ChargeOffSession(row.customerId, row.savedPaymentMethodId.value, row.remainingAmount);
      if !charge.Success() then
        Outcome(charge, row.(notes := "Remaining payment failed: " + charge.error), [call])
      else
        Outcome(Completed(receiptDelivered),
                row.(status := FullyCaptured, fullyCapturedAt := Some(now),
                     notes := RemainingChargedNote(row.remainingAmount)),
                [call, CompletionReceipt])
  }

  class Payment {
    var bookingId: int
    var intentId: string
    var customerId: string
    var savedPaymentMethodId: Option<string>
    var depositAmount: int
    var totalAmount: int
    var remainingAmount: int
    var status: PaymentStatus
    var depositCapturedAt: Option<int>
    var fullyCapturedAt: Option<int>
    var refundedAt: Option<int>
    var notes: string

    function Snapshot(): PaymentRecord
      reads this
    {
      PaymentRecord(bookingId, intentId, customerId, savedPaymentMethodId, depositAmount,
                    totalAmount, remainingAmount, status, depositCapturedAt, fullyCapturedAt,
                    refundedAt, notes)
    }

    /** The amounts fixed at creation: the remaining amount is the total less the deposit. */
    predicate Valid()
      reads this
    {
      remainingAmount == totalAmount - depositAmount
    }

    predicate HasSavedMethod()
      reads this
    {
      SavedMethodPresent(Snapshot())
    }

    /** `Payment.objects.create(...)` with status pending. */
    constructor (bookingId: int, intentId: string, customerId: string, deposit: int, total: int)
      ensures Valid()
      ensures Snapshot() == PaymentRecord(bookingId, intentId, customerId, None, deposit, total,
                                          total - deposit, Pending, None, None, None, "")
    {
      this.bookingId := bookingId;
      this.intentId := intentId;
      this.customerId := customerId;
      savedPaymentMethodId := None;
      depositAmount := deposit;
      totalAmount := total;
      remainingAmount := total - deposit;
      status := Pending;
      depositCapturedAt := None;
      fullyCapturedAt := None;
      refundedAt := None;
      notes := "";
    }

    /** capture_deposit. There is no status guard: the capture is attempted from any
        status. Success stores the card the processor reports and moves to
        deposit_captured; any processor error moves to failed. */
    method CaptureDeposit(now: int, result: GatewayResult<Option<string>>)
      returns (reply: Reply, calls: seq<ExternalCall>)
      requires Valid()
      modifies this
      ensures Valid()
      ensures calls == [CaptureIntent(old(intentId), old(depositAmount))]
      ensures reply.Success() <==> result.Done?
      ensures result.Done? ==> reply == Ok && Snapshot() == old(Snapshot()).(
                status := DepositCaptured,
                depositCapturedAt := Some(now),
                savedPaymentMethodId := result.value)
      ensures !result.Done? ==> reply == Err(result.ErrorText()) && Snapshot() == old(Snapshot()).(
                status := Failed,
                notes := "Deposit capture failed: " + result.ErrorText())
    {
      calls := [CaptureIntent(intentId, depositAmount)];
      if result.Done? {
        status := DepositCaptured;
        depositCapturedAt := Some(now);
        savedPaymentMethodId := result.value;
        reply := Ok;
      } else {
        status := Failed;
        notes := "Deposit capture failed: " + result.ErrorText();
        reply := Err(result.ErrorText());
      }
    }

    /** charge_saved_payment_method: a new confirmed off-session charge of `amount` against
        the saved card. It writes nothing to the payment. */
    method ChargeSavedPaymentMethod(amount: int, result: GatewayResult<string>)
      returns (reply: Reply, calls: seq<ExternalCall>)
      ensures !HasSavedMethod() ==> reply == Err(NoSavedMethodError) && calls == []
      ensures HasSavedMethod() ==>
                calls == [ChargeOffSession(customerId, savedPaymentMethodId.value, amount)]
      ensures HasSavedMethod() ==> reply == ChargeReply(result, amount)
      ensures reply.Success() <==> HasSavedMethod() && result.Done?
    {
      if !HasSavedMethod() {
        return Err(NoSavedMethodError), [];
      }
      calls := [ChargeOffSession(customerId, savedPaymentMethodId.value, amount)];
      reply := ChargeReply(result, amount);
    }

    /** capture_remaining_amount. `canCaptureRemaining` is the payment's own guard. An
        already fully captured payment is a successful no-op; otherwise exactly the
        remaining amount is charged, a failed charge only writes the notes, and a
        successful one moves to fully_captured and sends a best-effort receipt. */
    method CaptureRemainingAmount(canCaptureRemaining: PaymentStatus -> bool, now: int,
                                  result: GatewayResult<string>, receiptDelivered: bool)
      returns (reply: Reply, calls: seq<ExternalCall>)
      requires Valid()
      modifies this
      ensures Valid()
      ensures Outcome(reply, Snapshot(), calls) ==
              CaptureRemainingOutcome(old(Snapshot()), canCaptureRemaining(old(status)), now, result,
                                      receiptDelivered)
    {
      if !canCaptureRemaining(status) {
        return Err(CannotCaptureRemainingError), [];
      }
      if status == FullyCaptured {
        return Ok, [];
      }
      var charge;
      charge, calls := ChargeSavedPaymentMethod(remainingAmount, result);
      if !charge.Success() {
        notes := "Remaining payment failed: " + charge.error;
        return charge, calls;
      }
      status := FullyCaptured;
      fullyCapturedAt := Some(now);
      notes := RemainingChargedNote(remainingAmount);
      calls := calls + [CompletionReceipt];
      reply := Completed(receiptDelivered);
    }

    /** refund_deposit. `canRefundDeposit` is the payment's own guard. Exactly the deposit
        is refunded; success moves to deposit_refunded and sends a best-effort receipt, a
        processor error only writes the notes. */
    method RefundDeposit(canRefundDeposit: PaymentStatus -> bool, reason: string, now: int,
                         result: GatewayResult<string>, receiptDelivered: bool)
      returns (reply: Reply, calls: seq<ExternalCall>)
      requires Valid()
      modifies this
      ensures Valid()
      ensures !canRefundDeposit(old(status)) ==>
                reply == Err(CannotRefundDepositError) && calls == [] && Snapshot() == old(Snapshot())
      ensures canRefundDeposit(old(status)) && result.Done? ==>
                reply == Refunded(result.value, receiptDelivered) &&
                calls == [RefundIntent(old(intentId), old(depositAmount)), RefundReceipt] &&
                Snapshot() == old(Snapshot()).(
                  status := DepositRefunded,
                  refundedAt := Some(now),
                  notes := "Deposit refunded: " + reason)
      ensures canRefundDeposit(old(status)) && !result.Done? ==>
                reply == Err(result.ErrorText()) &&
                calls == [RefundIntent(old(intentId), old(depositAmount))] &&
                Snapshot() == old(Snapshot()).(notes := "Refund failed: " + result.ErrorText())
    {
      if !canRefundDeposit(status) {
        return Err(CannotRefundDepositError), [];
      }
      calls := [RefundIntent(intentId, depositAmount)];
      if !result.Done? {
        notes := "Refund failed: " + result.ErrorText();
        return Err(result.ErrorText()), calls;
      }
      status := DepositRefunded;
      refundedAt := Some(now);
      notes := "Deposit refunded: " + reason;
      calls := calls + [RefundReceipt];
      reply := Refunded(result.value, receiptDelivered);
    }

    /** cancel_authorization. `canCancelAuthorization` is the payment's own guard. The
        intent is cancelled at the processor; success moves to cancelled, a processor
        error only writes the notes. */
    method CancelAuthorization(canCancelAuthorization: PaymentStatus -> bool, result: GatewayResult<()>)
      returns (reply: Reply, calls: seq<ExternalCall>)
      requires Valid()
      modifies this
      ensures Valid()
      ensures !canCancelAuthorization(old(status)) ==>
                reply == Err(CannotCancelAuthorizationError) && calls == [] && Snapshot() == old(Snapshot())
      ensures canCancelAuthorization(old(status)) ==> calls == [CancelIntent(old(intentId))]
      ensures canCancelAuthorization(old(status)) && result.Done? ==>
                reply == Ok && Snapshot() == old(Snapshot()).(
                  status := Cancelled,
                  notes := "Authorization cancelled - funds released")
      ensures canCancelAuthorization(old(status)) && !result.Done? ==>
                reply == Err(result.ErrorText()) &&
                Snapshot() == old(Snapshot()).(notes := "Cancel authorization failed: " + result.ErrorText())
    {
      if !canCancelAuthorization(status) {
        return Err(CannotCancelAuthorizationError), [];
      }
      calls := [CancelIntent(intentId)];
      if result.Done? {
        status := Cancelled;
        notes := "Authorization cancelled - funds released";
        reply := Ok;
      } else {
        notes := "Cancel authorization failed: " + result.ErrorText();
        reply := Err(result.ErrorText());
      }
    }
  }

  /** create_payment_intent: registers a customer, opens a manual-capture hold for the
      deposit, and only when both processor calls succeed creates a pending payment with
      total = the service price in cents, the service's deposit, and remaining = total
      less deposit. */
  method CreatePaymentIntent(bookingId: int, service: Catalog.Service, email: string,
                             customer: GatewayResult<string>, intent: GatewayResult<IntentInfo>)
    returns (reply: Reply, payment: Payment?, calls: seq<ExternalCall>)
    ensures calls == [CreateCustomer(email)] +
                     (if customer.Done? then [CreateIntent(customer.value, service.depositCents)] else [])
    ensures reply.Success() <==> customer.Done? && intent.Done?
    ensures reply.Success() ==>
              reply == Created(intent.value.clientSecret, service.depositCents, service.priceCents) &&
              payment != null && fresh(payment) && payment.Valid() &&
              payment.Snapshot() == PaymentRecord(
                bookingId, intent.value.id, customer.value, None, service.depositCents,
                service.priceCents, service.priceCents - service.depositCents, Pending,
                None, None, None, "")
    ensures !reply.Success() ==>
              payment == null &&
              reply == Err(if customer.Done? then intent.ErrorText() else customer.ErrorText())
  {
    var totalCents := service.priceCents;
    var depositCents := service.depositCents;
    calls := [CreateCustomer(email)];
    if !customer.Done? {
      return Err(customer.ErrorText()), null, calls;
    }
    calls := calls + [CreateIntent(customer.value, depositCents)];
    if !intent.Done? {
      return Err(intent.ErrorText()), null, calls;
    }
    payment := new Payment(bookingId, intent.value.id, customer.value, depositCents, totalCents);
    reply := Created(intent.value.clientSecret, depositCents, totalCents);
  }

  // ---------------------------------------------------------------------------
  // The guards `can_capture_remaining`, `can_refund_deposit` and
  // `can_cancel_authorization` belong to the Payment model, whose code is not part of
  // this model. These are the readings their error texts give.

  /** "Payment status must be deposit_captured." */
  predicate DocumentedCanCaptureRemaining(s: PaymentStatus) {
    s == DepositCaptured
  }

  /** "No captured payment found.": some money has been captured. */
  predicate DocumentedCanRefundDeposit(s: PaymentStatus) {
    s == DepositCaptured || s == FullyCaptured
  }

  /** "Payment must be in deposit_captured state." */
  predicate DocumentedCanCancelAuthorization(s: PaymentStatus) {
    s == DepositCaptured
  }

  /** A client that opens a payment with the catalogue's example amounts (total 7500,
      deposit 2500): a refund is refused while nothing has been captured. */
  method ExampleOpening(now: int) {
    var service := Catalog.Service(1, 7500, 60, 2500, true);
    var reply, p, calls := CreatePaymentIntent(7, service, "a@b.c", Done("cus_1"), Done(IntentInfo("pi_1", "sec")));
    assert p != null && p.remainingAmount == 5000 && p.status == Pending;
    assert calls == [CreateCustomer("a@b.c"), CreateIntent("cus_1", 2500)];

    var r0, c0 := p.RefundDeposit(DocumentedCanRefundDeposit, "x", now, Done("re_1"), true);
    assert r0 == Err(CannotRefundDepositError) && c0 == [] && p.status == Pending;
  }

  /** The same payment captured in two steps, the second capture request refused. */
  method ExampleCaptures(now: int) {
    var p := new Payment(7, "pi_1", "cus_1", 2500, 7500);
    var r1, c1 := p.CaptureDeposit(now, Done(Some("pm_1")));
    assert p.status == DepositCaptured && c1 == [CaptureIntent("pi_1", 2500)];
    assert p.HasSavedMethod();

    var r2, c2 := p.CaptureRemainingAmount(DocumentedCanCaptureRemaining, now, Done("pi_2"), false);
    assert r2 == Completed(false) && p.status == FullyCaptured;
    assert c2 == [ChargeOffSession("cus_1", "pm_1", 5000), CompletionReceipt];

    var r3, c3 := p.CaptureRemainingAmount(DocumentedCanCaptureRemaining, now, Done("pi_3"), true);
    assert r3 == Err(CannotCaptureRemainingError) && c3 == [] && p.status == FullyCaptured;
  }

  /** Under the documented guard the remaining amount is charged once: a second request
      is refused before the fully-captured no-op is reached, and makes no call. */
  method CaptureRemainingTwice(p: Payment, now: int, first: GatewayResult<string>,
                               second: GatewayResult<string>)
    returns (reply1: Reply, calls1: seq<ExternalCall>, reply2: Reply, calls2: seq<ExternalCall>)
    requires p.Valid() && p.status == DepositCaptured && p.HasSavedMethod()
    modifies p
    ensures reply1.Completed? <==> first.Done?
    ensures first.Done? ==>
              calls1 == [ChargeOffSession(old(p.customerId), old(p.savedPaymentMethodId).value,
                                          old(p.totalAmount - p.depositAmount)), CompletionReceipt]
    ensures first.Done? ==> reply2 == Err(CannotCaptureRemainingError) && calls2 == []
    ensures first.Done? ==> p.status == FullyCaptured
  {
    reply1, calls1 := p.CaptureRemainingAmount(DocumentedCanCaptureRemaining, now, first, true);
    reply2, calls2 := p.CaptureRemainingAmount(DocumentedCanCaptureRemaining, now, second, true);
  }
}
