/**
 * Invoice creation and the per-order invoice cache of the checkout page.
 *
 * The checkout page looks the order's invoice up in the buyer's session
 * under the keys `<order id>invoice_id` and `<order id>access_token`; only
 * when no invoice id is stored does it build an invoice request, post it to
 * the processor and store the returned id and access token.
 */
module Invoice {
  import opened Wrappers
  import opened Php
  import opened Cart

  /** The gateway's constant API base. */
  const ApiBase: string := "https://api.rbk.money/v2/"

  /** Path of the invoice-creation endpoint. */
  const InvoicesPath: string := "processing/invoices"

  /** The only HTTP status that counts as a created invoice. */
  const HttpCreated: int := 201

  /** Label of the invoice's `product` field, followed by the order id. */
  const ProductLabel: string := "Заказ № "

  /** `_prepare_api_url($path)`: the base with its trailing slashes removed, one slash, the path. */
  function ApiUrl(path: string): (url: string)
    ensures url == "https://api.rbk.money/v2/" + path
  {
    var base := RTrim(ApiBase, {'/'});
    assert base == "https://api.rbk.money/v2" by {
      assert ApiBase[..|ApiBase| - 1] == "https://api.rbk.money/v2";
    }
    base + "/" + path
  }

  /** The invoice-creation payload (metadata other than the order id and the due-date computation are left out). */
  datatype InvoiceRequest = InvoiceRequest(
    shopId: string,
    amount: real,
    orderId: string,
    dueDate: string,
    currency: string,
    product: string,
    cart: seq<Line>,
    description: string)

  /** An outbound POST: the endpoint URL and the payload. */
  datatype Post = Post(url: string, body: InvoiceRequest)

  /** The processor's reply, with `invoice.id` and `invoiceAccessToken.payload` read from its body ("" when absent). */
  datatype HttpReply = HttpReply(code: int, invoiceId: string, accessToken: string)

  /** What the checkout page needs to open the hosted payment form. */
  datatype Credentials = Credentials(invoiceId: string, accessToken: string)

  datatype CreateError =
    | CartFailed(cause: CartError)   // thrown while building the payload; not caught by the page
    | NotCreated(code: int)          // thrown as an Exception for any status but 201; caught by the page

  /** The request `_create_invoice` posts for an order, if its cart can be built. */
  function RequestFor(o: OrderSnapshot, shopId: string, dueDate: string): (r: Result<Post, CartError>)
    ensures r.Success? <==> CartOf(o).Success?
    ensures r.Success? ==>
      && r.value.url == ApiBase + InvoicesPath
      && r.value.body.orderId == o.id
      && r.value.body.amount / 100.0 == o.total
      && r.value.body.cart == CartOf(o).value
      && r.value.body.shopId == shopId
      && r.value.body.currency == o.currency
      && r.value.body.product == ProductLabel + o.id
      && r.value.body.dueDate == dueDate
      && r.value.body.description == ""
  {
    match CartOf(o)
    case Failure(e) => Failure(e)
    case Success(cart) =>
      Success(Post(ApiUrl(InvoicesPath),
        InvoiceRequest(shopId, PrepareAmount(o.total), o.id, dueDate, o.currency,
          ProductLabel + o.id, cart, "")))
  }

  /** The result of `_create_invoice` given the processor's reply (specification of CreateInvoice). */
  function CreateOutcome(o: OrderSnapshot, shopId: string, dueDate: string, reply: HttpReply): (r: Result<Credentials, CreateError>)
    ensures r.Success? <==> CartOf(o).Success? && reply.code == HttpCreated
    ensures r.Success? ==> r.value == Credentials(reply.invoiceId, reply.accessToken)
    ensures CartOf(o).Success? && reply.code != HttpCreated ==> r == Failure(NotCreated(reply.code))
    ensures CartOf(o).Failure? ==> r == Failure(CartFailed(CartOf(o).error))
  {
    match RequestFor(o, shopId, dueDate)
    case Failure(e) => Failure(CartFailed(e))
    case Success(_) =>
      if reply.code != HttpCreated then Failure(NotCreated(reply.code))
      else Success(Credentials(reply.invoiceId, reply.accessToken))
  }

  /**
   * `_create_invoice`: builds the payload and, when it could be built, the
   * POST that is sent; `reply` stands for the processor's answer to it.
   */
  method CreateInvoice(o: OrderSnapshot, shopId: string, dueDate: string, reply: HttpReply)
    returns (sent: Option<Post>, res: Result<Credentials, CreateError>)
    ensures sent.Some? <==> CartOf(o).Success?
    ensures sent.Some? ==> Success(sent.value) == RequestFor(o, shopId, dueDate)
    ensures res == CreateOutcome(o, shopId, dueDate, reply)
  {
    var cart := PrepareCart(o);
    if cart.Failure? {
      return None, Failure(CartFailed(cart.error));
    }
    var body := InvoiceRequest(shopId, PrepareAmount(o.total), o.id, dueDate, o.currency,
      ProductLabel + o.id, cart.value, "");
    sent := Some(Post(ApiUrl(InvoicesPath), body));
    if reply.code != HttpCreated {
      return sent, Failure(NotCreated(reply.code));
    }
    res := Success(Credentials(reply.invoiceId, reply.accessToken));
  }

  /** Session key of an order's invoice id. */
  function InvoiceKey(orderId: string): string {
    orderId + "invoice_id"
  }

  /** Session key of an order's access token. */
  function TokenKey(orderId: string): string {
    orderId + "access_token"
  }

  /** The session's `get`: the stored value, or "" (PHP null) when absent. */
  function Lookup(store: map<string, string>, key: string): (value: string)
    ensures value != "" ==> key in store && store[key] == value
    ensures key in store ==> value == store[key]
  {
    if key in store then store[key] else ""
  }

  /** Two orders never share a session key, and an invoice-id key is never a token key. */
  lemma KeysDistinct(a: string, b: string)
    ensures a != b ==> InvoiceKey(a) != InvoiceKey(b) && TokenKey(a) != TokenKey(b)
    ensures InvoiceKey(a) != TokenKey(b)
  {
    if InvoiceKey(a) == InvoiceKey(b) {
      assert |a| == |b|;
      assert a == InvoiceKey(a)[..|a|] == InvoiceKey(b)[..|b|] == b;
    }
    if TokenKey(a) == TokenKey(b) {
      assert |a| == |b|;
      assert a == TokenKey(a)[..|a|] == TokenKey(b)[..|b|] == b;
    }
    var ik, tk := InvoiceKey(a), TokenKey(b);
    assert ik[|ik| - 1] == 'd';
    assert tk[|tk| - 1] == 'n';
  }

  /** The buyer's session: a key/value store that the checkout page reads and writes. */
  class Session {
    var store: map<string, string>

    constructor (initial: map<string, string>)
      ensures store == initial
    {
      store := initial;
    }

    function Get(key: string): string
      reads this
    {
      Lookup(store, key)
    }

    method Set(key: string, value: string)
      modifies this
      ensures store == old(store)[key := value]
    {
      store := store[key := value];
    }
  }

  /** What the checkout page ends in. */
  datatype Checkout =
    | RedirectToCheckout                              // empty order id: error notice, back to checkout
    | Apology                                         // invoice creation threw; generic message
    | Fatal(cause: CartError)                         // uncaught error while building the cart
    | PaymentForm(invoiceId: string, accessToken: string)

  /**
   * The checkout page's get-or-create of the order's invoice: the page it
   * ends in and the session afterwards (specification of DisplayPaymentForm).
   */
  function Visit(store: map<string, string>, orderId: string, o: OrderSnapshot,
                 shopId: string, dueDate: string, reply: HttpReply): (map<string, string>, Checkout)
  {
    if Empty(orderId) then (store, RedirectToCheckout)
    else
      var invoiceId := Lookup(store, InvoiceKey(orderId));
      var accessToken := Lookup(store, TokenKey(orderId));
      if !Empty(invoiceId) then (store, PaymentForm(invoiceId, accessToken))
      else
        match CreateOutcome(o, shopId, dueDate, reply)
        case Failure(CartFailed(e)) => (store, Fatal(e))
        case Failure(NotCreated(_)) => (store, Apology)
        case Success(c) =>
          (store[InvoiceKey(orderId) := c.invoiceId][TokenKey(orderId) := c.accessToken],
           PaymentForm(c.invoiceId, c.accessToken))
  }

  /**
   * `display_payment_form` up to the page it renders: reads the cached
   * invoice, and creates and caches one only when no invoice id is stored.
   * `attempted` tells whether invoice creation was started, `posted`
   * whether the processor was actually called (the cart could be built).
   */
  method DisplayPaymentForm(session: Session, orderId: string, o: OrderSnapshot,
                            shopId: string, dueDate: string, reply: HttpReply)
    returns (page: Checkout, attempted: bool, posted: bool)
    modifies session
    ensures (session.store, page) == Visit(old(session.store), orderId, o, shopId, dueDate, reply)
    ensures attempted <==> !Empty(orderId) && Empty(Lookup(old(session.store), InvoiceKey(orderId)))
    ensures posted <==> attempted && CartOf(o).Success?
  {
    attempted, posted := false, false;
    if Empty(orderId) {
      return RedirectToCheckout, attempted, posted;
    }
    var invoiceId := session.Get(InvoiceKey(orderId));
    var accessToken := session.Get(TokenKey(orderId));
    if Empty(invoiceId) {
      var sent, response := CreateInvoice(o, shopId, dueDate, reply);
      attempted, posted := true, sent.Some?;
      match response {
        case Failure(CartFailed(e)) =>
          return Fatal(e), attempted, posted;
        case Failure(NotCreated(_)) =>
          return Apology, attempted, posted;
        case Success(c) =>
          invoiceId := c.invoiceId;
          session.Set(InvoiceKey(orderId), invoiceId);
          accessToken := c.accessToken;
          session.Set(TokenKey(orderId), accessToken);
      }
    }
    page := PaymentForm(invoiceId, accessToken);
  }

  /** The session changes only when no invoice id was stored and the processor answered 201. */
  lemma VisitCreatesOnlyOnMiss(store: map<string, string>, orderId: string, o: OrderSnapshot,
                               shopId: string, dueDate: string, reply: HttpReply)
    ensures Visit(store, orderId, o, shopId, dueDate, reply).0 != store ==>
      && !Empty(orderId)
      && Empty(Lookup(store, InvoiceKey(orderId)))
      && reply.code == HttpCreated
  {
  }

  /** After a creation both keys hold the issued pair, and no other key changed. */
  lemma VisitStoresBoth(store: map<string, string>, orderId: string, o: OrderSnapshot,
                        shopId: string, dueDate: string, reply: HttpReply)
    requires !Empty(orderId) && Empty(Lookup(store, InvoiceKey(orderId)))
    requires CartOf(o).Success? && reply.code == HttpCreated
    ensures var (after, page) := Visit(store, orderId, o, shopId, dueDate, reply);
      && page == PaymentForm(reply.invoiceId, reply.accessToken)
      && Lookup(after, InvoiceKey(orderId)) == reply.invoiceId
      && Lookup(after, TokenKey(orderId)) == reply.accessToken
      && forall k :: k != InvoiceKey(orderId) && k != TokenKey(orderId) ==> Lookup(after, k) == Lookup(store, k)
  {
    KeysDistinct(orderId, orderId);
  }

  /**
   * A second visit makes no create call and shows the stored pair, whatever
   * the processor would answer, provided the first visit showed a non-empty
   * invoice id (an empty id, e.g. from a reply missing `invoice.id`, is
   * created afresh on every visit).
   */
  lemma VisitIdempotent(store: map<string, string>, orderId: string, o: OrderSnapshot,
                        shopId: string, dueDate: string, reply: HttpReply,
                        o': OrderSnapshot, shopId': string, dueDate': string, reply': HttpReply)
    requires Visit(store, orderId, o, shopId, dueDate, reply).1.PaymentForm?
    requires !Empty(Visit(store, orderId, o, shopId, dueDate, reply).1.invoiceId)
    ensures var first := Visit(store, orderId, o, shopId, dueDate, reply);
      Visit(first.0, orderId, o', shopId', dueDate', reply') == first
    ensures var first := Visit(store, orderId, o, shopId, dueDate, reply);
      Lookup(first.0, InvoiceKey(orderId)) == first.1.invoiceId
  {
    KeysDistinct(orderId, orderId);
  }

  /** One order's visit never changes another order's cached invoice. */
  lemma VisitIsolatesOrders(store: map<string, string>, orderId: string, other: string, o: OrderSnapshot,
                            shopId: string, dueDate: string, reply: HttpReply)
    requires other != orderId
    ensures var after := Visit(store, orderId, o, shopId, dueDate, reply).0;
      && Lookup(after, InvoiceKey(other)) == Lookup(store, InvoiceKey(other))
      && Lookup(after, TokenKey(other)) == Lookup(store, TokenKey(other))
  {
    KeysDistinct(orderId, other);
    KeysDistinct(other, orderId);
  }
}
