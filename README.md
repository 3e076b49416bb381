# RBKmoney payment gateway for WooCommerce: a Dafny model of its core

This project models the logic of the WooCommerce payment gateway for the
RBKmoney processor (`class-wc-gateway-rbkmoney.php`), and proves properties of
that model. It covers four parts.

- **Invoice cart construction** (module `Cart`). The invoice lines built for an
  order come from two sources. Product lines come from the line items:
  - the per-unit amount is rounded to the cent;
  - an item whose amount is not positive is skipped;
  - the quantity and the tax percentage are truncated to integers;
  - a VAT tax mode is attached only for the processor's known rates.

  At most one shipping line comes from the shipping items, and it goes in
  front of the product lines. Module `Invoice` adds the invoice request, the
  API URL, the check that the processor answered 201, and the checkout page's
  per-order invoice cache in the buyer's session.
- **Signature handling** (module `Signature`):
  - the regular expression `alg=(\S+);\sdigest=` that `preg_replace` strips
    from the `Content-Signature` header;
  - the URL-safe base64 alphabet translation;
  - the fail-closed guards of the signature check.
- **The webhook handler** (module `Webhook`). A chain of rejection checks runs
  in a fixed order. Then a guarded transition marks the named order paid or
  cancelled, or does nothing when the order is already completed or
  cancelled. `Decide` is the decision as a function.
  `Webhook.CallbackHandler` is the imperative handler. It works on `Order`
  objects and is proved equal to `Decide`, and it is proved to change only the
  order it names.
- **PHP built-ins** (module `Php`) whose exact behaviour matters here:
  - `empty()` on strings, which is true for "" and "0";
  - the `(int)` cast, which truncates toward zero;
  - `round($x, 2)`, which rounds halves away from zero;
  - `trim` and `rtrim`.

Amounts are exact reals. Library calls are parameters:
- base64 decoding, OpenSSL key parsing and verification (`Signature.Crypto`);
- `json_decode` (`Webhook.Env`);
- the processor's HTTP reply (`Invoice.HttpReply`);
- the invoice due date (a string parameter).

Where the code differs from what its messages and the rest of the plugin suggest, the model follows the code:
- A `Content-Signature` header that does not contain the `alg=…; digest=`
  pattern is not rejected. `preg_replace` leaves it unchanged and the whole
  header is used as the signature (`Signature.HeaderWithoutPatternPassesThrough`).
- An empty signature after stripping makes `get_signature_from_header` throw an
  exception that nothing catches. The request then ends in a server error, not
  in a 400 reply (`Webhook.Outcome.Crashed`).
- The amount check reads `$order_info['total']`, and `$order_info` is never
  assigned. The check therefore never rejects (`Webhook.AmountCheckNeverRejects`).
  Its guard is modelled as written, with the missing value as a constant.
- The shipping line tests the untruncated tax percentage, so a non-zero
  percentage strictly between -1 and 1 gets the "0%" VAT label. Product lines test the truncated
  percentage and never carry "0%" (`Cart.ShippingZeroPercentLabel`,
  `Cart.ItemLinesValid`).
- The checkout page polls for the status `processing` as the sign of a paid
  order (class-wc-gateway-rbkmoney.php:358). That status is not one of the
  statuses the handler refuses to touch. A re-delivered `InvoicePaid` for an
  order left in `processing` is applied again (`Webhook.Redelivery`).
- A division by zero is modelled as an error result (`Cart.CartError`). This
  covers an item with zero quantity, a priced item with a zero line total, and
  shipping with a positive total but zero shipping cost. Under PHP 8 it is a
  `DivisionByZeroError`, which the page's `catch (Exception …)` does not catch
  (`Invoice.Checkout.Fatal`).

## Model

| member | source | states |
|---|---|---|
| Php.Empty | class-wc-gateway-rbkmoney.php:401 | `empty()` holds for "", can hold only for strings of at most one character, and on one character holds exactly for "0" |
| Php.Trunc | class-wc-gateway-rbkmoney.php:762-763 | `(int)` of a number truncates toward zero: the result is within one of the input, on the zero side |
| Php.RoundHalfAway | class-wc-gateway-rbkmoney.php:755 | the integer `round` picks is within one half of the input, halves going away from zero |
| Php.Round2 | class-wc-gateway-rbkmoney.php:755 | `round($x, 2)` gives a whole number of hundredths within half a cent of `x`, with an exact half going away from zero |
| Php.Round2Positive | class-wc-gateway-rbkmoney.php:754-758 | a rounded amount is positive exactly when the exact amount is at least half a cent |
| Php.Round2OfCents | class-wc-gateway-rbkmoney.php:755 | rounding an amount already exact to the cent leaves it unchanged |
| Php.RTrim | class-wc-gateway-rbkmoney.php:858 | `rtrim` gives a prefix that does not end in a trimmed character, and every dropped character is a trimmed one |
| Php.LTrim | class-wc-gateway-rbkmoney.php:477 | `ltrim` gives a suffix that does not start with a trimmed character, and every dropped character is a trimmed one |
| Php.Trim | class-wc-gateway-rbkmoney.php:477 | the trimmed key is a contiguous slice of the input, every character dropped on either side is whitespace or NUL, and the key neither starts nor ends with one |
| Php.TrimKeepsClean | class-wc-gateway-rbkmoney.php:477 | a key with nothing to trim is passed on unchanged |
| Php.TrimIdempotent | class-wc-gateway-rbkmoney.php:477 | trimming twice equals trimming once |
| Cart.TaxRateLabel | class-wc-gateway-rbkmoney.php:837-855 | label "0%", "10%" or "18%" exactly for rates 0, 10 and 18; no label for any other rate |
| Cart.PrepareAmount | class-wc-gateway-rbkmoney.php:866-868 | minor units divided by 100 give back the amount |
| Cart.PrepareAmountWhole | class-wc-gateway-rbkmoney.php:866-868 | an amount exact to the cent converts to that whole number of minor units |
| Cart.ProductTaxMode | class-wc-gateway-rbkmoney.php:762-775 | a product line gets a VAT tax mode exactly for truncated percentages 10 and 18, labelled "10%" and "18%" respectively, and never "0%" |
| Cart.ShippingTaxMode | class-wc-gateway-rbkmoney.php:811-822 | no mode for a zero percentage; "0%" for a non-zero percentage truncating to 0; "10%" and "18%" for percentages truncating to 10 and 18; none for any other truncated percentage; always of type `InvoiceLineTaxVAT` |
| Cart.ShippingZeroPercentLabel | class-wc-gateway-rbkmoney.php:811-822 | shipping is labelled "0%" exactly when its percentage is non-zero and strictly between -1 and 1 |
| Cart.ItemLine | class-wc-gateway-rbkmoney.php:750-776 | one loop iteration: a zero quantity fails, and an emitted line carries the item's name |
| Cart.ItemLineShape | class-wc-gateway-rbkmoney.php:749-777 | one item fails on a zero quantity, or on a zero line total once priced; it is skipped iff its rounded unit amount is not positive; otherwise it gives its name, truncated quantity, a positive whole number of minor units, and the tax mode of its truncated percentage |
| Cart.ItemDroppedBelowHalfCent | class-wc-gateway-rbkmoney.php:754-758 | an item is skipped exactly when its exact per-unit amount with tax is under half a cent |
| Cart.PrepareItems | class-wc-gateway-rbkmoney.php:745-780 | the loop builds exactly the item-by-item lines `ItemLines`, stopping at the first failure |
| Cart.FailurePropagates | class-wc-gateway-rbkmoney.php:749-777 | once a prefix of the items fails, the whole list fails with the same error |
| Cart.ItemLinesValid | class-wc-gateway-rbkmoney.php:745-780 | every product line has a positive whole-minor-unit price and a 10% or 18% VAT mode or none; there are never more lines than items |
| Cart.ItemLinesAppend | class-wc-gateway-rbkmoney.php:749-777 | lines keep item order: the lines of `a + b` are the lines of `a` followed by those of `b` |
| Cart.ShippingLines | class-wc-gateway-rbkmoney.php:789-828 | at most one shipping line, and none iff there is no shipping item or the amount is not positive; it is named after the first shipping item, has quantity 1 and a positive price of shipping plus tax; it fails iff that amount is positive and the shipping total is zero |
| Cart.PrepareCart | class-wc-gateway-rbkmoney.php:731-736 | the cart is the shipping line followed by the product lines, and any failure is propagated |
| Cart.CartShape | class-wc-gateway-rbkmoney.php:731-736 | a built cart is the shipping part then the product part, has at most one line more than there are items, and every line has a positive price |
| Invoice.ApiUrl | class-wc-gateway-rbkmoney.php:857-864 | the endpoint URL is the constant base `https://api.rbk.money/v2/` followed by the path, with exactly one slash between |
| Invoice.RequestFor | class-wc-gateway-rbkmoney.php:661-674 | a request exists iff the cart can be built; it posts to `…/processing/invoices` with the configured shop id, the order id, the total in minor units, the order currency, the label "Заказ № " followed by the order id, the due date, that cart and an empty description |
| Invoice.CreateOutcome | class-wc-gateway-rbkmoney.php:661-683 | creation succeeds iff the cart builds and the reply is 201, returning the reply's invoice id and token; any other status is the caught "not created" error; a cart failure is the uncaught cart error itself |
| Invoice.CreateInvoice | class-wc-gateway-rbkmoney.php:661-683 | a POST is sent iff the cart builds, it is the request `RequestFor` describes, and the result is `CreateOutcome` |
| Invoice.Lookup | class-wc-gateway-rbkmoney.php:278-279 | a non-empty value read from the session is the one stored under the key, and a stored key reads its value |
| Invoice.KeysDistinct | class-wc-gateway-rbkmoney.php:278-288 | session keys of different orders differ, and an invoice-id key is never an access-token key |
| Invoice.Session.Set | class-wc-gateway-rbkmoney.php:285-288 | the session maps the key to the value and keeps every other entry |
| Invoice.DisplayPaymentForm | class-wc-gateway-rbkmoney.php:261-294 | the page and the new session are those of `Visit`; creation is attempted iff the order id is non-empty and no invoice id is cached, and the processor is called iff it is attempted and the cart can be built |
| Invoice.VisitCreatesOnlyOnMiss | class-wc-gateway-rbkmoney.php:278-289 | the session changes only for a non-empty order id with no cached invoice id and a 201 reply |
| Invoice.VisitStoresBoth | class-wc-gateway-rbkmoney.php:281-289 | after a creation both keys hold the issued pair, the page shows it, and no other key changes |
| Invoice.VisitIdempotent | class-wc-gateway-rbkmoney.php:278-289 | a second visit after one that showed a non-empty invoice id makes no creation call, whatever the processor would answer, and shows the same invoice |
| Invoice.VisitIsolatesOrders | class-wc-gateway-rbkmoney.php:278-289 | one order's visit leaves every other order's cached invoice and token untouched |
| Signature.MatchAt | class-wc-gateway-rbkmoney.php:103 | a match of the pattern at the start is at least 14 characters long and fits in the text |
| Signature.MatchAtSound | class-wc-gateway-rbkmoney.php:103 | what the matcher finds is a match of `alg=(\S+);\sdigest=` |
| Signature.MatchAtComplete | class-wc-gateway-rbkmoney.php:103 | every match of the pattern at the start is the one the matcher finds, so a match at a position is unique |
| Signature.NoSpaceNoMatch | class-wc-gateway-rbkmoney.php:103 | text without whitespace never matches the pattern |
| Signature.StripPattern | class-wc-gateway-rbkmoney.php:911 | removing the matches never lengthens the header and leaves text without whitespace unchanged |
| Signature.SignatureFromHeader | class-wc-gateway-rbkmoney.php:910-918 | fails exactly when the stripped header is empty by `empty()`; otherwise returns the stripped header |
| Signature.SignatureFromWellFormedHeader | class-wc-gateway-rbkmoney.php:910-918 | `alg=<alg>; digest=<digest>` yields exactly the digest, for any algorithm name and any non-empty digest without whitespace |
| Signature.SignatureMissingWhenDigestEmpty | class-wc-gateway-rbkmoney.php:910-918 | a header with nothing after `digest=` throws |
| Signature.HeaderWithoutPatternPassesThrough | class-wc-gateway-rbkmoney.php:910-918 | a non-empty header without whitespace is returned whole as the signature |
| Signature.ToStandardBase64 | class-wc-gateway-rbkmoney.php:906-908 | `strtr` maps each character `-`, `_`, `,` to `+`, `/`, `=` and keeps the length |
| Signature.ToUrlSafeBase64 | class-wc-gateway-rbkmoney.php:906-908 | the inverse alphabet map, character by character |
| Signature.StandardHasNoUrlSafeChars | class-wc-gateway-rbkmoney.php:906-908 | the translated text contains no `-`, `_` or `,` |
| Signature.UrlSafeRoundTrip | class-wc-gateway-rbkmoney.php:906-908 | standard base64 made URL-safe and translated back is the original |
| Signature.StandardTextUnchanged | class-wc-gateway-rbkmoney.php:907 | text already in the standard alphabet is unchanged by `strtr` |
| Signature.UrlSafeB64Decode | class-wc-gateway-rbkmoney.php:906-908 | standard-alphabet text is passed to `base64_decode` as it is |
| Signature.UrlSafeDecodeAgreesWithStandard | class-wc-gateway-rbkmoney.php:906-908 | a URL-safe signature decodes to the same bytes as its standard form |
| Signature.VerifySignature | class-wc-gateway-rbkmoney.php:920-931 | false when the body, signature or key is empty or the key does not parse; true exactly when the verifier returns 1 otherwise |
| Webhook.AmountTamper | class-wc-gateway-rbkmoney.php:444-451 | the guard fires only with an order-info total present and the truncated order total in minor units different from the invoice amount |
| Webhook.AmountTamperWouldFire | class-wc-gateway-rbkmoney.php:444-451 | given a non-zero order-info total, the guard fires exactly when the truncated order total in minor units differs from the invoice amount |
| Webhook.AmountCheckNeverRejects | class-wc-gateway-rbkmoney.php:444-451 | with `$order_info` never assigned, no request is rejected for an amount mismatch |
| Webhook.PublicKey | class-wc-gateway-rbkmoney.php:474-478 | the key used is a contiguous slice of the configured key, with only whitespace or NUL dropped on either side, and neither starts nor ends with one |
| Webhook.Transition | class-wc-gateway-rbkmoney.php:453-471 | a change is applied iff the status is neither completed nor cancelled and the event is `InvoicePaid` or `InvoiceCancelled`, and it matches the event; otherwise nothing happens |
| Webhook.Dispatch | class-wc-gateway-rbkmoney.php:415-471 | the payload checks never crash or give a signature rejection, and apply a change only to a known order that is not terminal |
| Webhook.Decide | class-wc-gateway-rbkmoney.php:394-472 | a missing header is rejected; the request crashes iff the stripped signature is empty; a request that changes or is ignored is authentic |
| Webhook.DecideAuthentic | class-wc-gateway-rbkmoney.php:401-415 | the request is authentic iff the decision is the payload checks' decision |
| Webhook.SignatureChecksFirst | class-wc-gateway-rbkmoney.php:407-411 | given an extractable signature, the request is rejected for the signature iff it is not authentic, whatever the payload |
| Webhook.DispatchChain | class-wc-gateway-rbkmoney.php:415-442 | each payload check (fields, shop id, order id, order lookup) rejects iff the checks before it passed and it fails; after them the transition decides |
| Webhook.AppliedOnlyAfterAllChecks | class-wc-gateway-rbkmoney.php:394-472 | a change happens only on an authentic request naming the configured shop and a known non-terminal order, with the action its event type names |
| Webhook.TerminalOrderUntouched | class-wc-gateway-rbkmoney.php:453-455 | a completed or cancelled order is never changed |
| Webhook.Redelivery | class-wc-gateway-rbkmoney.php:453-471 | replaying an applied notification is ignored iff the order became terminal, and is otherwise applied again; after a cancellation, or a payment that completes the order, it is ignored |
| Webhook.ResponseOf | class-wc-gateway-rbkmoney.php:480-486 | every rejection replies 400 with a message; a change replies 200 with a message; an ignored request replies 200 with no body; a crash gives neither |
| Webhook.Order.AddOrderNote | class-wc-gateway-rbkmoney.php:458 | appends the note and keeps status and transaction id |
| Webhook.Order.PaymentComplete | class-wc-gateway-rbkmoney.php:459 | records the invoice id as transaction id and moves the order to `processing` or `completed` |
| Webhook.Order.UpdateStatus | class-wc-gateway-rbkmoney.php:464 | sets the status and appends the note |
| Webhook.CallbackHandler | class-wc-gateway-rbkmoney.php:394-472 | the outcome is `Decide` on the orders as they were; a payment adds the note, records the invoice id and moves the status on; a cancellation adds the note and cancels; no other order changes |

## Left out

- Network I/O (`send`, curl) is left out. The processor's reply is a parameter of invoice creation.
- Base64 decoding, OpenSSL key parsing and signature verification are left out. They are opaque function parameters (`Signature.Crypto`).
- `json_decode` is left out. It is a parameter from the request body to the decoded fields, or none.
- The model's payload has no way to tell an absent `invoice` from an empty one.
- `_prepare_due_date` reads the clock and is left out. The due date is a parameter.
- `_get_headers` is left out: it uses a random request id and the private key.
- `_prepare_metadata` is left out, except the order id, which the invoice request carries.
- The rest of the checkout page after the invoice cache is left out: HTML and JavaScript output, the order description, and the redirect after an empty order id (modelled only as its outcome).
- Also left out: `thankyou_page`, `init_form_fields`, `payment_fields`, `process_payment`, `ajax_rbk_payment_status`, the plugin hooks and logging.
- Floating point is modelled as exact reals, so binary rounding drift of PHP floats is not captured. This covers the divisions before `round` or `(int)`, and also the `* 100` of `_prepare_amount` (class-wc-gateway-rbkmoney.php:867) after rounding, where for example 0.29 * 100 is not exactly 29 as a double. The "whole number of minor units" stated by `Cart.ItemLineShape`, `Cart.ItemLinesValid` and `Cart.CartShape` holds for exact reals only.
- Webhook.Decide: the shop id test uses PHP's loose `!=`. The model compares strings exactly, so loose equalities such as numeric strings with different spellings are not captured.
- Signature.StripPattern: `preg_replace` is modelled as total. Its `null` result on a PCRE error is not modelled, for example when a long whitespace-free header of repeated `alg=` exceeds `pcre.backtrack_limit`. In that case `empty()` holds at class-wc-gateway-rbkmoney.php:913 and the request crashes before verification, where the model rejects it for a signature mismatch. Orders are unaffected either way. The contracts of `Signature.StripPattern`, `Signature.HeaderWithoutPatternPassesThrough` and `Webhook.Decide` hold for the total `preg_replace` only.
- Webhook.Transition: the decoded payload fields are typed strings, so PHP's loose `in_array` and `==` on non-string JSON values (class-wc-gateway-rbkmoney.php:455, 457, 463) are not captured. For example, `"eventType": true` matches both event names, so both branches run and the order is marked paid and then cancelled. This is reachable only with a body the processor signed.
- Invoice.ApiUrl: the optional query parameters of `_prepare_api_url` are not modelled, because the only call passes none.
- Webhook.Order.PaymentComplete: WooCommerce's `payment_complete` does more than set the transaction id and the paid status (hooks, stock, emails, and a check on which statuses may be paid). That library code is not part of this model.
- Webhook.CallbackHandler: the order is found in a map of known orders. Concurrent deliveries to the same order are not modelled.
- Invoice.DisplayPaymentForm: the page builds a fresh `new WC_Session_Handler()` (class-wc-gateway-rbkmoney.php:263) and never calls `init()` or saves it. The model assumes that this handler reads and keeps the buyer's persistent session. Whether it does depends on WooCommerce code that is not part of this model. `Invoice.VisitIdempotent` and the cache lemmas hold under that assumption.
- Invoice.DisplayPaymentForm: concurrent visits sharing one session are not modelled.
- Webhook.ResponseOf: the uncaught exception's output is not modelled, only that it is not a JSON reply.
- Under PHP 7 a division by zero gives INF or NAN with a warning instead of throwing. The model follows PHP 8 (`Cart.CartError`).
