/**
 * The webhook endpoint (`callback_handler`): an ordered chain of rejection
 * checks on a signed notification, then a guarded transition of the order
 * the notification names.
 *
 * Every `output(...)` of the handler ends the request with a 400 (or, for
 * the two transitions, 200) JSON message; here each is an early return of
 * an `Outcome`. A bare `exit()` (any other well-formed event, or an order
 * already completed or cancelled) is `Ignored`: status 200, no body. The
 * exception `get_signature_from_header` throws is not caught, so that path
 * is `Crashed`.
 */
module Webhook {
  import opened Wrappers
  import opened Php
  import opened Cart
  import opened Signature

  const EventInvoicePaid: string := "InvoicePaid"
  const EventInvoiceCancelled: string := "InvoiceCancelled"

  const StatusCompleted: string := "completed"
  const StatusCancelled: string := "cancelled"
  const StatusProcessing: string := "processing"

  /** The fields of the notification's `invoice` object the handler reads ("" when absent). */
  datatype Invoice = Invoice(id: string, shopId: string, orderId: string, amount: int)

  /**
   * The decoded notification body: `eventType`, and `invoice`, which is
   * None when it is absent, null or an empty object.
   */
  datatype Payload = Payload(eventType: string, invoice: Option<Invoice>)

  /** An inbound request: the `Content-Signature` header ("" when absent) and the raw body. */
  datatype Request = Request(signatureHeader: string, body: string)

  /** The gateway settings the handler reads. */
  datatype Config = Config(shopId: string, callbackPublicKey: string)

  /** The library calls: crypto, and `json_decode` (None when the body is not JSON). */
  datatype Env = Env(crypto: Crypto, decodeJson: string -> Option<Payload>)

  /** What the handler reads of an order. */
  datatype OrderView = OrderView(status: string, total: real, needsProcessing: bool)

  datatype Rejection =
    | MissingSignature
    | SignatureMismatch
    | MissingFields
    | ShopIdMismatch
    | MissingOrderId
    | OrderNotFound(orderId: string)
    | AmountMismatch

  datatype Action = MarkPaid(invoiceId: string) | MarkCancelled(invoiceId: string)

  datatype Outcome =
    | Rejected(reason: Rejection)
    | Crashed
    | Applied(orderId: string, action: Action)
    | Ignored

  /** The order statuses after which no notification changes the order. */
  predicate IsTerminal(status: string) {
    status == StatusCompleted || status == StatusCancelled
  }

  /** The only event types that change an order. */
  predicate IsActionable(eventType: string) {
    eventType == EventInvoicePaid || eventType == EventInvoiceCancelled
  }

  /**
   * The handler reads the total of `$order_info`, a variable it never
   * assigns, so that total is always PHP null.
   */
  const OrderInfoTotal: Option<real> := None

  /**
   * The amount tamper guard as written: it fires only when `orderInfoTotal`
   * is a non-empty number and the order total in minor units differs from
   * the invoice amount.
   */
  function AmountTamper(orderInfoTotal: Option<real>, orderTotal: real, invoiceAmount: int): (fires: bool)
    ensures fires ==> orderInfoTotal.Some? && Trunc(PrepareAmount(orderTotal)) != invoiceAmount
  {
    orderInfoTotal.Some? && orderInfoTotal.value != 0.0 && Trunc(PrepareAmount(orderTotal)) != invoiceAmount
  }

  /**
   * The guard itself has teeth: given a non-zero order-info total, it fires
   * exactly when the truncated order total in minor units differs from the
   * invoice amount.
   */
  lemma AmountTamperWouldFire(total: real, orderTotal: real, amount: int)
    requires total != 0.0
    ensures AmountTamper(Some(total), orderTotal, amount) <==> Trunc(PrepareAmount(orderTotal)) != amount
  {
  }

  /** The public key the handler uses: the configured key, trimmed. */
  function PublicKey(cfg: Config): (key: string)
    ensures |key| <= |cfg.callbackPublicKey|
    ensures key == [] || (key[0] !in TrimChars && key[|key| - 1] !in TrimChars)
    ensures exists i :: TrimmedAt(cfg.callbackPublicKey, key, i)
  {
    Trim(cfg.callbackPublicKey)
  }

  /** The signature checks pass: the header is present, yields a signature, and that signature verifies. */
  predicate Authentic(req: Request, cfg: Config, env: Env) {
    && !Empty(req.signatureHeader)
    && SignatureFromHeader(req.signatureHeader).Success?
    && VerifySignature(req.body,
         UrlSafeB64Decode(SignatureFromHeader(req.signatureHeader).value, env.crypto),
         PublicKey(cfg), env.crypto)
  }

  /**
   * The guarded transition: only `InvoicePaid` or `InvoiceCancelled`, and
   * only on an order that is neither completed nor cancelled.
   */
  function Transition(status: string, eventType: string, orderId: string, invoiceId: string): (out: Outcome)
    ensures out.Applied? <==> !IsTerminal(status) && IsActionable(eventType)
    ensures out.Applied? ==> out.orderId == orderId
    ensures out.Applied? ==> (out.action == MarkPaid(invoiceId) <==> eventType == EventInvoicePaid)
    ensures out.Applied? ==> (out.action == MarkCancelled(invoiceId) <==> eventType == EventInvoiceCancelled)
    ensures !out.Applied? ==> out == Ignored
  {
    if !IsTerminal(status) && IsActionable(eventType) then
      if eventType == EventInvoicePaid then Applied(orderId, MarkPaid(invoiceId))
      else Applied(orderId, MarkCancelled(invoiceId))
    else Ignored
  }

  /**
   * The handler's checks on the payload of an authentic request: required
   * fields, shop id, order id, order lookup, the amount guard, then the
   * transition.
   */
  function Dispatch(data: Option<Payload>, shopId: string, orders: map<string, OrderView>): (out: Outcome)
    ensures out != Crashed && out != Rejected(MissingSignature) && out != Rejected(SignatureMismatch)
    ensures out.Applied? ==> out.orderId in orders && !IsTerminal(orders[out.orderId].status)
  {
    match data
    case None => Rejected(MissingFields)
    case Some(payload) =>
      if payload.invoice.None? || Empty(payload.eventType) then Rejected(MissingFields)
      else
        var invoice := payload.invoice.value;
        if invoice.shopId != shopId then Rejected(ShopIdMismatch)
        else if Empty(invoice.orderId) then Rejected(MissingOrderId)
        else if invoice.orderId !in orders then Rejected(OrderNotFound(invoice.orderId))
        else
          var order := orders[invoice.orderId];
          if AmountTamper(OrderInfoTotal, order.total, invoice.amount) then Rejected(AmountMismatch)
          else Transition(order.status, payload.eventType, invoice.orderId, invoice.id)
  }

  /**
   * The decision of `callback_handler` for a request, given the orders the
   * store knows (specification of CallbackHandler). The checks run in the
   * handler's order and the first that fails decides.
   */
  function Decide(req: Request, cfg: Config, env: Env, orders: map<string, OrderView>): (out: Outcome)
    ensures Empty(req.signatureHeader) ==> out == Rejected(MissingSignature)
    ensures out == Crashed <==> !Empty(req.signatureHeader) && SignatureFromHeader(req.signatureHeader).Failure?
    ensures out.Applied? || out.Ignored? ==> Authentic(req, cfg, env)
  {
    if Empty(req.signatureHeader) then Rejected(MissingSignature)
    else
      match SignatureFromHeader(req.signatureHeader)
      case Failure(_) => Crashed
      case Success(signature) =>
        var decoded := UrlSafeB64Decode(signature, env.crypto);
        if !VerifySignature(req.body, decoded, PublicKey(cfg), env.crypto) then Rejected(SignatureMismatch)
        else Dispatch(env.decodeJson(req.body), cfg.shopId, orders)
  }

  /** Once the request is authentic, the payload checks alone decide. */
  lemma DecideAuthentic(req: Request, cfg: Config, env: Env, orders: map<string, OrderView>)
    ensures Authentic(req, cfg, env) <==> Decide(req, cfg, env, orders) == Dispatch(env.decodeJson(req.body), cfg.shopId, orders)
  {
  }

  /**
   * An order changes only after every check has passed: the signature is
   * authentic, the payload names the configured shop and a known order that
   * is not terminal, and the action matches the event type and invoice id.
   */
  lemma AppliedOnlyAfterAllChecks(req: Request, cfg: Config, env: Env, orders: map<string, OrderView>)
    requires Decide(req, cfg, env, orders).Applied?
    ensures var out := Decide(req, cfg, env, orders);
      && Authentic(req, cfg, env)
      && env.decodeJson(req.body).Some?
      && var data := env.decodeJson(req.body).value;
      && data.invoice.Some? && !Empty(data.eventType)
      && data.invoice.value.shopId == cfg.shopId
      && !Empty(out.orderId) && out.orderId == data.invoice.value.orderId
      && out.orderId in orders && !IsTerminal(orders[out.orderId].status)
      && (out.action == MarkPaid(data.invoice.value.id) <==> data.eventType == EventInvoicePaid)
      && (out.action == MarkCancelled(data.invoice.value.id) <==> data.eventType == EventInvoiceCancelled)
  {
    DecideAuthentic(req, cfg, env, orders);
  }

  /**
   * The payload checks, in the handler's order: each rejects exactly when
   * the checks before it passed and it fails.
   */
  lemma DispatchChain(data: Option<Payload>, shopId: string, orders: map<string, OrderView>)
    ensures Dispatch(data, shopId, orders) == Rejected(MissingFields) <==>
      (data.None? || data.value.invoice.None? || Empty(data.value.eventType))
    ensures data.Some? && data.value.invoice.Some? && !Empty(data.value.eventType) ==>
      var invoice := data.value.invoice.value;
      && (Dispatch(data, shopId, orders) == Rejected(ShopIdMismatch) <==> invoice.shopId != shopId)
      && (invoice.shopId == shopId ==>
            (Dispatch(data, shopId, orders) == Rejected(MissingOrderId) <==> Empty(invoice.orderId)))
      && (invoice.shopId == shopId && !Empty(invoice.orderId) ==>
            (Dispatch(data, shopId, orders) == Rejected(OrderNotFound(invoice.orderId)) <==> invoice.orderId !in orders))
      && (invoice.shopId == shopId && !Empty(invoice.orderId) && invoice.orderId in orders ==>
            Dispatch(data, shopId, orders) ==
              Transition(orders[invoice.orderId].status, data.value.eventType, invoice.orderId, invoice.id))
  {
  }

  /**
   * The signature checks come first: a present, extractable signature that
   * does not verify is rejected whatever the payload says; one that does
   * verify hands over to the payload checks.
   */
  lemma SignatureChecksFirst(req: Request, cfg: Config, env: Env, orders: map<string, OrderView>)
    requires !Empty(req.signatureHeader) && SignatureFromHeader(req.signatureHeader).Success?
    ensures Decide(req, cfg, env, orders) == Rejected(SignatureMismatch) <==> !Authentic(req, cfg, env)
  {
    DecideAuthentic(req, cfg, env, orders);
  }

  /** The amount tamper check never rejects: the model accepts any invoice amount. */
  lemma AmountCheckNeverRejects(req: Request, cfg: Config, env: Env, orders: map<string, OrderView>)
    ensures Decide(req, cfg, env, orders) != Rejected(AmountMismatch)
  {
    DecideAuthentic(req, cfg, env, orders);
    var data := env.decodeJson(req.body);
    if data.Some? && data.value.invoice.Some? {
      var invoice := data.value.invoice.value;
      if invoice.orderId in orders {
        assert !AmountTamper(OrderInfoTotal, orders[invoice.orderId].total, invoice.amount);
      }
    }
  }

  /** A completed or cancelled order is never changed, whatever the notification. */
  lemma TerminalOrderUntouched(req: Request, cfg: Config, env: Env, orders: map<string, OrderView>, id: string)
    requires id in orders && IsTerminal(orders[id].status)
    ensures !(Decide(req, cfg, env, orders).Applied? && Decide(req, cfg, env, orders).orderId == id)
  {
  }

  /** The status WooCommerce's `payment_complete` leaves an order in. */
  function PaidStatus(needsProcessing: bool): string {
    if needsProcessing then StatusProcessing else StatusCompleted
  }

  /** The order as the store holds it after an action. */
  function After(order: OrderView, action: Action): OrderView {
    match action
    case MarkPaid(_) => order.(status := PaidStatus(order.needsProcessing))
    case MarkCancelled(_) => order.(status := StatusCancelled)
  }

  /**
   * Re-delivering a notification after it was applied: a no-op when the
   * order became terminal, which a cancellation always makes it; a paid
   * order that needs processing is left `processing`, which is not
   * terminal, so the same `InvoicePaid` is applied again.
   */
  lemma {:induction false} Redelivery(req: Request, cfg: Config, env: Env, orders: map<string, OrderView>)
    requires Decide(req, cfg, env, orders).Applied?
    ensures var out := Decide(req, cfg, env, orders);
      var orders' := orders[out.orderId := After(orders[out.orderId], out.action)];
      Decide(req, cfg, env, orders') ==
        if IsTerminal(orders'[out.orderId].status) then Ignored else out
    ensures var out := Decide(req, cfg, env, orders);
      out.action.MarkCancelled? || !orders[out.orderId].needsProcessing ==>
        Decide(req, cfg, env, orders[out.orderId := After(orders[out.orderId], out.action)]) == Ignored
  {
    var out := Decide(req, cfg, env, orders);
    AppliedOnlyAfterAllChecks(req, cfg, env, orders);
    var data := env.decodeJson(req.body).value;
    var invoice := data.invoice.value;
    var orders' := orders[out.orderId := After(orders[out.orderId], out.action)];
    assert orders'[invoice.orderId].total == orders[invoice.orderId].total;
    assert Decide(req, cfg, env, orders') ==
      Transition(orders'[invoice.orderId].status, data.eventType, invoice.orderId, invoice.id);
  }

  /** The HTTP reply of an outcome: status code and JSON `message`, if any. */
  datatype Response = Response(code: int, message: Option<string>)

  /** Note added to the order when a payment is confirmed. */
  function PaidNote(invoiceId: string): string {
    "Платеж подтвержден(invoice ID: " + invoiceId + ")"
  }

  /** Note attached to the cancellation. */
  function CancelNote(invoiceId: string): string {
    "Платеж отменен(invoice ID: " + invoiceId + ")"
  }

  function RejectionMessage(reason: Rejection): string {
    match reason
    case MissingSignature => "Отсутствует подпись уведомления для Webhook"
    case SignatureMismatch => "Несоответствие сигнатуры уведомления для Webhook"
    case MissingFields => "Одно или несколько обязательный полей отсутствуют"
    case ShopIdMismatch => "shopID отсутствует"
    case MissingOrderId => "order_id отсутствует"
    case OrderNotFound(id) => "Заказ " + id + " отсутствует"
    case AmountMismatch => "Полученная сумма не соответствует сумме заказа"
  }

  /**
   * The wire reply: 400 with a message for every rejection, 200 with a
   * message for an applied transition, 200 with no body when ignored, and
   * a 500 with no JSON message when the handler crashed.
   */
  function ResponseOf(out: Outcome): (r: Response)
    ensures r.code == 400 <==> out.Rejected?
    ensures r.code == 200 <==> out.Applied? || out.Ignored?
    ensures r.message.Some? <==> out.Rejected? || out.Applied?
  {
    match out
    case Rejected(reason) => Response(400, Some(RejectionMessage(reason)))
    case Crashed => Response(500, None)
    case Applied(_, MarkPaid(id)) => Response(200, Some("Платеж подтвержден, invoice ID: " + id))
    case Applied(_, MarkCancelled(id)) => Response(200, Some("Платеж отменен, invoice ID: " + id))
    case Ignored => Response(200, None)
  }

  /** A store order whose status and notes the handler changes. */
  class Order {
    var status: string
    var notes: seq<string>
    var transactionId: string
    const total: real
    /** WooCommerce's `needs_processing()`: whether a paid order goes to `processing` rather than `completed`. */
    const needsProcessing: bool

    constructor (status: string, total: real, needsProcessing: bool)
      ensures this.status == status && notes == [] && transactionId == ""
      ensures this.total == total && this.needsProcessing == needsProcessing
    {
      this.status := status;
      notes := [];
      transactionId := "";
      this.total := total;
      this.needsProcessing := needsProcessing;
    }

    function View(): OrderView
      reads this
    {
      OrderView(status, total, needsProcessing)
    }

    /** `add_order_note`. */
    method AddOrderNote(note: string)
      modifies this
      ensures notes == old(notes) + [note]
      ensures status == old(status) && transactionId == old(transactionId)
    {
      notes := notes + [note];
    }

    /** `payment_complete($transaction_id)`: records the payment reference and moves the order on. */
    method PaymentComplete(reference: string)
      modifies this
      ensures transactionId == reference && status == PaidStatus(needsProcessing)
      ensures notes == old(notes)
    {
      transactionId := reference;
      status := PaidStatus(needsProcessing);
    }

    /** `update_status($status, $note)`. */
    method UpdateStatus(newStatus: string, note: string)
      modifies this
      ensures status == newStatus && notes == old(notes) + [note]
      ensures transactionId == old(transactionId)
    {
      status := newStatus;
      notes := notes + [note];
    }
  }

  /** What the handler can read of each known order. */
  function Views(orders: map<string, Order>): (views: map<string, OrderView>)
    reads orders.Values
    ensures views.Keys == orders.Keys
    ensures forall id :: id in orders ==> views[id] == orders[id].View()
  {
    map id | id in orders :: orders[id].View()
  }

  /**
   * `callback_handler`: runs the checks in order, returning at the first that
   * fails, then applies the guarded transition to the order. Only the order
   * the notification names can change, and only on an `Applied` outcome.
   */
  method CallbackHandler(req: Request, cfg: Config, env: Env, orders: map<string, Order>)
    returns (out: Outcome)
    modifies orders.Values
    ensures out == Decide(req, cfg, env, old(Views(orders)))
    ensures out.Applied? ==> out.orderId in orders
    ensures out.Applied? && out.action.MarkPaid? ==>
      var order := orders[out.orderId];
      && order.notes == old(order.notes) + [PaidNote(out.action.invoiceId)]
      && order.transactionId == out.action.invoiceId
      && order.status == PaidStatus(order.needsProcessing)
    ensures out.Applied? && out.action.MarkCancelled? ==>
      var order := orders[out.orderId];
      && order.notes == old(order.notes) + [CancelNote(out.action.invoiceId)]
      && order.transactionId == old(order.transactionId)
      && order.status == StatusCancelled
    ensures forall o :: o in orders.Values && !(out.Applied? && o == orders[out.orderId]) ==> unchanged(o)
  {
    if Empty(req.signatureHeader) {
      return Rejected(MissingSignature);
    }
    var signature := SignatureFromHeader(req.signatureHeader);
    if signature.Failure? {
      return Crashed;
    }
    var decoded := UrlSafeB64Decode(signature.value, env.crypto);
    if !VerifySignature(req.body, decoded, PublicKey(cfg), env.crypto) {
      return Rejected(SignatureMismatch);
    }
    var data := env.decodeJson(req.body);
    if data.None? || data.value.invoice.None? || Empty(data.value.eventType) {
      return Rejected(MissingFields);
    }
    var invoice := data.value.invoice.value;
    if invoice.shopId != cfg.shopId {
      return Rejected(ShopIdMismatch);
    }
    if Empty(invoice.orderId) {
      return Rejected(MissingOrderId);
    }
    if invoice.orderId !in orders {
      return Rejected(OrderNotFound(invoice.orderId));
    }
    var order := orders[invoice.orderId];
    if AmountTamper(OrderInfoTotal, order.total, invoice.amount) {
      return Rejected(AmountMismatch);
    }
    var eventType := data.value.eventType;
    if !IsTerminal(order.status) && IsActionable(eventType) {
      if eventType == EventInvoicePaid {
        order.AddOrderNote(PaidNote(invoice.id));
        order.PaymentComplete(invoice.id);
        out := Applied(invoice.orderId, MarkPaid(invoice.id));
      } else {
        // the other actionable event: InvoiceCancelled
        order.UpdateStatus(StatusCancelled, CancelNote(invoice.id));
        out := Applied(invoice.orderId, MarkCancelled(invoice.id));
      }
      return;
    }
    out := Ignored;
  }
}
