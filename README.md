# Paymob payment adapter — Dafny model

This project models `PaymobPayment`, the Paymob gateway adapter of the
`nafezly/payments` Laravel package. It covers four parts:

- **Callback verification** (`verify`). The adapter signs the JSON encoding of the callback body with
  HMAC-SHA512 under its secret and compares the result with the `Hmac` header. The outcome is one of
  three: authentic and paid, authentic and declined (with the provider's error message), or
  unauthenticated.
- **The provider error-code table** (`getErrorMessage`).
- **The payment flow** (`pay`). It checks the required fields, then sends an intention request and a
  payment-key request, with an abort after each one, and builds the checkout URL.
- **The refund call** (`refund`). It fetches a fresh auth token, posts the refund, and returns its own
  inputs.

Layout:

- `php_values.dfy` (module `PhpValues`) is the PHP side. It defines decoded JSON values, `$a['k']`
  reads that yield null for missing keys, `isset`, loose `== true`, conversion to string, and the way
  a value is normalised when used as an array key. Integers become their decimal spelling, and the
  model proves that spelling injective.
- `paymob.dfy` (module `Paymob`) holds the adapter. It is a class with its gateway settings as
  constants, fixed at construction. The caller's inputs are mutable fields that `Pay` writes first,
  as the source does. Message keys, endpoints, request bodies and results are datatypes and
  constants. The lemmas about the adapter follow the class.

Foreign code is passed in as values:

- HMAC-SHA512 and `json_encode` are function fields of a `Crypto` value. Lemmas that need an ideal
  HMAC state it as a requirement: `CollisionFree` and `EncodingInjective`.
- Each HTTP exchange is a `gateway: HttpRequest -> Value` parameter, mapping the request sent to its
  decoded JSON response. `Pay` and `Refund` also return the list of requests they sent, so that
  "no request before the field check" and "no payment-key request without an intention id" can be
  stated.
- The translation helper `__()` returns its key and its parameters (`Text`).

Points where the source is less strict than a caller might expect; the model follows the source:

- Only the intention's `id` is checked (`PaymobPayment.php:82`). A missing intention `token` is not
  an error: null is sent as `auth_token`.
- `delivery_needed` is sent as the string `"false"`.
- `amount_cents` is `amount * 100` with no rounding.
- `refund` sends `amount` verbatim as `amount_cents`, without multiplying it by 100.
- `refund` does not check that the auth-token response contains a token.

## Model

| member | source | states |
|---|---|---|
| `Paymob.PaymobPayment.constructor` | src/Classes/PaymobPayment.php:19-26 | the five gateway settings are stored verbatim; no request field is set |
| `Paymob.MissingField` | src/Classes/PaymobPayment.php:42-43 | there is no missing field exactly when amount is present and non-zero and the first name, last name, e-mail and phone are all present and non-empty. Otherwise the name reported is that of the first field, in the order amount, first name, last name, e-mail, phone, that is null or empty (amount 0): each name comes back exactly when its field is missing and every field before it is present |
| `Paymob.PaymobPayment.Pay` | src/Classes/PaymobPayment.php:39-118 | the inputs are stored in the fields. When a field is missing, the result is `MissingPaymentInfo` and no request is sent. The intention request carries the API key, the currency, `amount*100`, `"false"` and no items, and its shipping block equals its billing block: eight "NA" lines plus the caller's e-mail, names and phone. With no intention `id`, the flow stops after one request. Otherwise the payment-key request reuses the intention's token and id, the same amount and the same billing block. With no payment `token`, the flow fails. Otherwise the result is the intention id, `html = ""` and the checkout URL, from which the iframe id and token parse back when the iframe id contains no `?` |
| `Paymob.RedirectUrlRoundTrip` | src/Classes/PaymobPayment.php:116 | for an iframe id without `?`, parsing the checkout URL returns exactly the iframe id and the token |
| `Paymob.ParseRedirectSound` | src/Classes/PaymobPayment.php:116 | every URL the parser accepts is the fixed iframe prefix + id + `?payment_token=` + token |
| `Paymob.PaymobPayment.Verify` | src/Classes/PaymobPayment.php:124-155 | `process_data` is the payload unchanged, and `payment_id` is `order.id` or null. `success` holds iff the HMAC matches and `success` is truthy. The message is `PAYMENT_FAILED` iff the HMAC does not match, and `PAYMENT_DONE` iff the call succeeds. It is `PAYMENT_FAILED_WITH_CODE` iff the HMAC matches and `success` is not truthy; then its `CODE` parameter is the table message of `data.txn_response_code` |
| `Paymob.ForgedCallbackRejected` | src/Classes/PaymobPayment.php:147-153 | a header that is not the digest of this payload yields `success = false`, `PAYMENT_FAILED` and `order.id` or null, whatever the payload's `success` says |
| `Paymob.MissingHeaderRejected` | src/Classes/PaymobPayment.php:126-131 | a callback with no `Hmac` header never succeeds and reports `PAYMENT_FAILED` |
| `Paymob.OnlySignedPayloadAuthenticates` | src/Classes/PaymobPayment.php:129-131 | under an injective encoding and a collision-free HMAC, the signature of one payload rejects every other payload as unauthenticated, so a tampered payload never yields success |
| `Paymob.DeclinedForBalance` | src/Classes/PaymobPayment.php:139-145 | an authentic callback with a falsy `success` and response code `5` (string or integer) fails with `PAYMENT_FAILED_WITH_CODE`, whose CODE is the insufficient-balance message |
| `Paymob.PaymobPayment.ErrorMessage` | src/Classes/PaymobPayment.php:156-172 | the message has no parameters, and its key is either the generic key or one of the table's keys |
| `Paymob.ErrorCodeTable` | src/Classes/PaymobPayment.php:157-167 | as strings, BLOCKED and B give the blocked key; 5 and 6051 give insufficient balance; F gives 3-D Secure; 7 gives expiry date; 2 gives declined; 637 gives OTP; 11 gives security checks |
| `Paymob.IntErrorCodeTable` | src/Classes/PaymobPayment.php:157-169 | the numeric codes 5, 6051, 7, 2, 637 and 11, sent as integers, give the same messages as their string forms |
| `Paymob.UnmappedCodesFallBack` | src/Classes/PaymobPayment.php:168-171 | the lookup is total. The generic "error occurred" message comes back exactly for the codes outside the table, null and non-numeric or unlisted integers included |
| `Paymob.IntCodeInTable` | src/Classes/PaymobPayment.php:157-168 | an integer code hits the table only as one of 5, 7, 2, 6051, 637 and 11 |
| `Paymob.PaymobPayment.Refund` | src/Classes/PaymobPayment.php:174-188 | the result is `{transaction_id, amount}` equal to the arguments. Exactly two requests are sent: the API key to the auth-token endpoint, then the refund, carrying the returned `token` (or null), the transaction id and the amount as given |
| `Paymob.RefundIgnoresResponses` | src/Classes/PaymobPayment.php:183-186 | the refund result is the same whatever either gateway response contains |
| `PhpValues.KeyIndex` | src/Classes/PaymobPayment.php:82 | the position an array read uses is that of the first entry stored under the key, or the end when no entry has it |
| `PhpValues.IntToDecimalInjective` | src/Classes/PaymobPayment.php:168 | distinct integer codes become distinct array keys |
| `PhpValues.Get` | src/Classes/PaymobPayment.php:82 | a read returns the value of the first entry stored under the key; a non-null result is an entry stored under the key; with no such entry the read is null |
| `PhpValues.Index` | src/Classes/PaymobPayment.php:135 | `$v['k']` on a non-array is null; on an array it is the value of the first entry stored under the key; a non-null result is an entry of the array stored under the key; a missing key reads as null |
| `PhpValues.IndexReadsFirstEntry` | src/Classes/PaymobPayment.php:135 | on an array, `$v['k']` is the value of the first entry stored under the key, for every such array and key |
| `PhpValues.IsSet` | src/Classes/PaymobPayment.php:109 | `isset($v['k'])` holds exactly when `$v` is an array whose first entry under the key holds a non-null value |
| `PhpValues.Truthy` | src/Classes/PaymobPayment.php:132 | `$v == true` fails exactly for null, false, 0, "", "0" and the empty array |
| `PhpValues.ArrayKey` | src/Classes/PaymobPayment.php:168 | only an array is no valid key; null is the key "", a string is itself, an integer is a digit string (after '-' when negative) that reads back as the integer |
| `PhpValues.ToPhpString` | src/Classes/PaymobPayment.php:116 | the string form is empty exactly for null, false and ""; true is "1"; an array is "Array"; a string is itself; an integer is a digit string (after '-' when negative) without a leading zero that reads back as the integer |
| `Paymob.HashEquals` | src/Classes/PaymobPayment.php:131 | `hash_equals` holds exactly when the header is present, has the digest's length and agrees with it at every position |
| `Paymob.PartyAddress` | src/Classes/PaymobPayment.php:52-79 | the block sets all eight address lines to "NA" and carries the given e-mail, names and phone, and it is the only block that does; the payment-key request (lines 93-106) builds the same block |
| `Paymob.RedirectUrl` | src/Classes/PaymobPayment.php:116 | the checkout URL is the fixed iframe prefix, then the iframe id, then `?payment_token=`, then the token, and nothing else |
| `Paymob.PaymobPayment.ExpectedHmac` | src/Classes/PaymobPayment.php:129 | under a collision-free HMAC and an injective encoding, the digest of a payload is the digest of no other payload |

## Left out

- HTTP transport, endpoints' behaviour and network failures: each exchange is the `gateway` parameter; timeouts and transport exceptions are not modelled.
- The internals of `hash_hmac('sha512', …)` and `json_encode`: uninterpreted function fields of `Crypto`; properties that need an ideal HMAC assume it explicitly.
- `hash_equals`' constant-time behaviour: timing cannot be expressed; it is plain string equality.
- Configuration reads via `config(...)`: the constructor takes the five values as parameters, as strings.
- `__()` translation: a message is its key plus parameters (`Text`).
- `BaseController::setPassedVariablesToGlobal` and `checkRequiredFields` are not part of this model. The first is taken as an unconditional assignment of all seven arguments to the fields at the start of `Pay` (the arguments default to null). The second is taken as "the first of amount, first name, last name, e-mail, phone that is null or empty (amount 0), reported by name before any request".
- PHP float arithmetic: `amount` is an exact `real` and `amount * 100` is exact. The source calls no rounding function; its float product may be inexact (0.29 * 100 gives 28.999999999999996), which the model does not capture. JSON numbers in responses and callbacks are integers only; floats there are not modelled.
- PHP loose `== true` is modelled by PHP's bool conversion of the model's value kinds (`Truthy`); other coercions are not.
- Reads of missing keys yield null, as plain PHP does. Under Laravel's error handler the "undefined array key" warning (for `$data['order']['id']` in the authentic branches, or `$intention_request['token']`) would raise an exception instead. Reading an offset of a string also yields null in the model, whereas PHP raises or warns.
- Paymob.PaymobPayment.Verify: a missing `Hmac` header is treated as a mismatch, as PHP 7's `hash_equals` does (warning, false). PHP 8's `hash_equals` throws a `TypeError` instead. Either way it never yields success.
- Paymob.PaymobPayment.ErrorMessage: an array used as the code is treated as an unmapped code. PHP 8 raises "Illegal offset type" in `isset` there.
- Converting an array token to a string in the redirect URL gives "Array", without the warning PHP emits.
- PHP arrays cannot hold duplicate keys. The model's entry lists can, and a read returns the first entry.
