/** The Paymob gateway adapter: callback verification, the provider error-code
    table, the two-step payment flow and the refund call. HTTP traffic is
    modelled by a `gateway` function from the request sent to the decoded JSON
    response; HMAC-SHA512 and json_encode are supplied as a `Crypto` value. */
module Paymob {
  import opened PhpValues

  /** The result of the translation helper `__()`: its key and its replacement parameters. */
  datatype Text = Translated(key: string, params: seq<(string, Text)>)

  function Trans(key: string): Text
  {
    Translated(key, [])
  }

  const PaymentDoneKey := "nafezly::messages.PAYMENT_DONE"
  const PaymentFailedWithCodeKey := "nafezly::messages.PAYMENT_FAILED_WITH_CODE"
  const PaymentFailedKey := "nafezly::messages.PAYMENT_FAILED"

  const BlockedKey := "nafezly::messages.Process_Has_Been_Blocked_From_System"
  const BalanceKey := "nafezly::messages.Balance_is_not_enough"
  const SecureKey := "nafezly::messages.Your_card_is_not_authorized_with_3D_secure"
  const ExpiryKey := "nafezly::messages.Incorrect_card_expiration_date"
  const DeclinedKey := "nafezly::messages.Declined"
  const OtpKey := "nafezly::messages.The_OTP_number_was_entered_incorrectly"
  const SecurityKey := "nafezly::messages.Security_checks_are_not_passed_by_the_system"
  const GenericErrorKey := "nafezly::messages.An_error_occurred_while_executing_the_operation"

  /** Provider transaction response codes and the message shown for each. */
  const ErrorKeys: map<string, string> := map[
    "BLOCKED" := BlockedKey,
    "B" := BlockedKey,
    "5" := BalanceKey,
    "F" := SecureKey,
    "7" := ExpiryKey,
    "2" := DeclinedKey,
    "6051" := BalanceKey,
    "637" := OtpKey,
    "11" := SecurityKey
  ]

  /** A response code the table knows: one of its string keys, or an integer spelling one. */
  predicate IsMappedCode(code: Value)
  {
    || (code.Str? && code.s in {"BLOCKED", "B", "5", "F", "7", "2", "6051", "637", "11"})
    || (code.Int? && code.i in {5, 7, 2, 6051, 637, 11})
  }

  const IntentionUrl := "https://accept.paymob.com/api/acceptance/intention/create"
  const PaymentKeyUrl := "https://accept.paymob.com/api/acceptance/payment_keys"
  const AuthTokenUrl := "https://accept.paymobsolutions.com/api/auth/tokens"
  const RefundUrl := "https://accept.paymob.com/api/acceptance/void_refund/refund"
  const IframeBase := "https://accept.paymobsolutions.com/api/acceptance/iframes/"
  const TokenQuery := "?payment_token="

  const GatewayName := "PayMob"
  const IntentionFailedMessage := "Failed to create payment intention"
  const PaymentKeyFailedMessage := "Failed to create payment key"

  /** The shipping/billing block of a request. */
  datatype Address = Address(
    apartment: string, email: string, floor: string, firstName: string,
    street: string, building: string, phoneNumber: string, postalCode: string,
    city: string, country: string, lastName: string, state: string)

  /** The block the adapter sends: the customer's contact details, "NA" for every address line. */
  function PartyAddress(email: string, firstName: string, lastName: string, phone: string): (a: Address)
    ensures IsPlaceholderBlock(a, email, firstName, lastName, phone)
    ensures forall b :: IsPlaceholderBlock(b, email, firstName, lastName, phone) ==> b == a
  {
    Address("NA", email, "NA", firstName, "NA", "NA", phone, "NA", "NA", "NA", lastName, "NA")
  }

  /** Every address line is the placeholder and the contact details are the given ones. */
  predicate IsPlaceholderBlock(a: Address, email: string, firstName: string, lastName: string, phone: string)
  {
    && a.apartment == "NA" && a.floor == "NA" && a.street == "NA" && a.building == "NA"
    && a.postalCode == "NA" && a.city == "NA" && a.country == "NA" && a.state == "NA"
    && a.email == email && a.firstName == firstName && a.lastName == lastName && a.phoneNumber == phone
  }

  /** The JSON bodies the adapter posts. */
  datatype RequestBody =
    | IntentionBody(apiKey: string, amountCents: real, currency: string, deliveryNeeded: string,
                    items: seq<Value>, shippingData: Address, billingData: Address)
    | PaymentKeyBody(authToken: Value, amountCents: real, currency: string, integrationId: string,
                     orderId: Value, billingData: Address)
    | AuthBody(apiKey: string)
    | RefundBody(authToken: Value, transactionId: Value, refundCents: Value)

  /** A JSON POST (every request carries `content-type: application/json`). */
  datatype HttpRequest = Post(url: string, body: RequestBody)

  datatype PayResult = PayResult(paymentId: Value, html: string, redirectUrl: string)

  datatype PayError =
    | MissingPaymentInfo(field: string, gateway: string)
    | GatewayException(message: string)

  datatype VerifyResult = VerifyResult(success: bool, paymentId: Value, message: Text, processData: seq<(string, Value)>)

  datatype RefundResult = RefundResult(transactionId: Value, amount: Value)

  /** The foreign primitives `verify` relies on: `hash_hmac('sha512', message, key)`
      (hex digest) and `json_encode`. */
  datatype Crypto = Crypto(hmacSha512: (string, string) -> string, jsonEncode: Value -> string)

  /** An idealised HMAC: under this key, distinct messages have distinct digests. */
  ghost predicate CollisionFree(crypto: Crypto, key: string)
  {
    forall m1: string, m2: string :: crypto.hmacSha512(m1, key) == crypto.hmacSha512(m2, key) ==> m1 == m2
  }

  /** json_encode maps distinct values to distinct texts. */
  ghost predicate EncodingInjective(crypto: Crypto)
  {
    forall v1: Value, v2: Value :: crypto.jsonEncode(v1) == crypto.jsonEncode(v2) ==> v1 == v2
  }

  /** `hash_equals($known, $user)`: a non-string (absent) user value never
      matches; otherwise the lengths must agree and then every character. */
  predicate HashEquals(known: string, user: Option<string>)
    ensures HashEquals(known, user) <==>
              user.Some? && |user.value| == |known| && forall k :: 0 <= k < |known| ==> user.value[k] == known[k]
  {
    user.Some? && user.value == known
  }

  /** The first required field (in the order amount, first name, last name,
      e-mail, phone) that is null or empty, if any. */
  function MissingField(amount: Option<real>, firstName: Option<string>, lastName: Option<string>,
                        email: Option<string>, phone: Option<string>): (r: Option<string>)
    ensures r.None? <==> amount.Some? && amount.value != 0.0 && firstName.Some? && firstName.value != ""
                         && lastName.Some? && lastName.value != "" && email.Some? && email.value != ""
                         && phone.Some? && phone.value != ""
    ensures r == Some("amount") <==> amount.None? || amount.value == 0.0
    ensures r == Some("user_first_name") <==>
              amount.Some? && amount.value != 0.0 && (firstName.None? || firstName.value == "")
    ensures r == Some("user_last_name") <==>
              amount.Some? && amount.value != 0.0 && firstName.Some? && firstName.value != ""
              && (lastName.None? || lastName.value == "")
    ensures r == Some("user_email") <==>
              amount.Some? && amount.value != 0.0 && firstName.Some? && firstName.value != ""
              && lastName.Some? && lastName.value != "" && (email.None? || email.value == "")
    ensures r == Some("user_phone") <==>
              amount.Some? && amount.value != 0.0 && firstName.Some? && firstName.value != ""
              && lastName.Some? && lastName.value != "" && email.Some? && email.value != ""
              && (phone.None? || phone.value == "")
  {
    if amount.None? || amount.value == 0.0 then Some("amount")
    else if firstName.None? || firstName.value == "" then Some("user_first_name")
    else if lastName.None? || lastName.value == "" then Some("user_last_name")
    else if email.None? || email.value == "" then Some("user_email")
    else if phone.None? || phone.value == "" then Some("user_phone")
    else None
  }

  /** The checkout page the payer is sent to. */
  function RedirectUrl(iframeId: string, token: string): (url: string)
    ensures |url| == |IframeBase| + |iframeId| + |TokenQuery| + |token|
    ensures url[..|IframeBase|] == IframeBase
    ensures url[|IframeBase|..|IframeBase| + |iframeId|] == iframeId
    ensures url[|IframeBase| + |iframeId|..|url| - |token|] == TokenQuery
    ensures url[|url| - |token|..] == token
  {
    IframeBase + iframeId + TokenQuery + token
  }

  /** Position of the first `c` in `s`, or `|s|` when there is none. */
  function FirstIndex(s: string, c: char): (k: nat)
    ensures k <= |s|
    ensures c !in s[..k]
    ensures k < |s| ==> s[k] == c
  {
    if |s| == 0 then 0
    else if s[0] == c then 0
    else
      var k' := FirstIndex(s[1..], c);
      assert s[..k' + 1] == [s[0]] + s[1..][..k'];
      1 + k'
  }

  /** Reads the iframe id and the payment token back out of a checkout URL. */
  function ParseRedirect(url: string): Option<(string, string)>
  {
    if |url| < |IframeBase| || url[..|IframeBase|] != IframeBase then None
    else
      var rest := url[|IframeBase|..];
      var q := FirstIndex(rest, '?');
      if q + |TokenQuery| <= |rest| && rest[q..q + |TokenQuery|] == TokenQuery
      then Some((rest[..q], rest[q + |TokenQuery|..]))
      else None
  }

  /** The checkout URL carries the iframe id and the token, and both can be read back. */
  lemma RedirectUrlRoundTrip(iframeId: string, token: string)
    requires '?' !in iframeId
    ensures ParseRedirect(RedirectUrl(iframeId, token)) == Some((iframeId, token))
  {
    var url := RedirectUrl(iframeId, token);
    assert url[..|IframeBase|] == IframeBase;
    var rest := url[|IframeBase|..];
    assert rest == iframeId + TokenQuery + token;
    assert rest[|iframeId|] == '?';
    var q := FirstIndex(rest, '?');
    assert q == |iframeId|;
    assert rest[..q] == iframeId;
    assert rest[q..q + |TokenQuery|] == TokenQuery;
    assert rest[q + |TokenQuery|..] == token;
  }

  /** The pieces a successful parse is made of. */
  lemma ParseRedirectParts(url: string) returns (q: nat)
    requires ParseRedirect(url).Some?
    ensures |IframeBase| + q + |TokenQuery| <= |url|
    ensures url[..|IframeBase|] == IframeBase
    ensures ParseRedirect(url).value.0 == url[|IframeBase|..][..q]
    ensures url[|IframeBase|..][q..q + |TokenQuery|] == TokenQuery
    ensures ParseRedirect(url).value.1 == url[|IframeBase|..][q + |TokenQuery|..]
    ensures '?' !in ParseRedirect(url).value.0
  {
    q := FirstIndex(url[|IframeBase|..], '?');
  }

  /** Every URL the parser accepts is a checkout URL with a '?'-free iframe id. */
  lemma ParseRedirectSound(url: string, iframeId: string, token: string)
    requires ParseRedirect(url) == Some((iframeId, token))
    ensures url == RedirectUrl(iframeId, token) && '?' !in iframeId
  {
    var q := ParseRedirectParts(url);
    Reassemble(url, IframeBase, TokenQuery, iframeId, token, q);
  }

  /** A string cut into prefix, first piece, separator and second piece is their concatenation. */
  lemma Reassemble(s: string, prefix: string, sep: string, first: string, second: string, q: nat)
    requires |prefix| + q + |sep| <= |s| && s[..|prefix|] == prefix
    requires s[|prefix|..][..q] == first && s[|prefix|..][q..q + |sep|] == sep
    requires s[|prefix|..][q + |sep|..] == second
    ensures s == prefix + first + sep + second
  {
    var rest := s[|prefix|..];
    assert rest == rest[..q] + rest[q..q + |sep|] + rest[q + |sep|..];
    assert s == s[..|prefix|] + rest;
  }

  /** The payment adapter. The gateway settings are fixed at construction; `Pay`
      stores the caller's inputs in the mutable fields before using them. */
  class PaymobPayment {
    const apiKey: string
    const integrationId: string
    const iframeId: string
    const hmacSecret: string
    const currency: string

    var amount: Option<real>
    var userId: Option<string>
    var userFirstName: Option<string>
    var userLastName: Option<string>
    var userEmail: Option<string>
    var userPhone: Option<string>
    var source: Option<string>

    constructor (apiKey: string, integrationId: string, iframeId: string, hmacSecret: string, currency: string)
      ensures this.apiKey == apiKey && this.integrationId == integrationId && this.iframeId == iframeId
      ensures this.hmacSecret == hmacSecret && this.currency == currency
      ensures amount.None? && userId.None? && userFirstName.None? && userLastName.None?
      ensures userEmail.None? && userPhone.None? && source.None?
    {
      this.apiKey := apiKey;
      this.integrationId := integrationId;
      this.iframeId := iframeId;
      this.hmacSecret := hmacSecret;
      this.currency := currency;
      amount, userId, userFirstName, userLastName := None, None, None, None;
      userEmail, userPhone, source := None, None, None;
    }

    /** Creates a payment intention, then a payment key, and returns the
        checkout URL. `sent` lists the requests issued, in order. */
    method Pay(amount: Option<real>, userId: Option<string>, userFirstName: Option<string>,
               userLastName: Option<string>, userEmail: Option<string>, userPhone: Option<string>,
               source: Option<string>, gateway: HttpRequest -> Value)
      returns (outcome: Result<PayResult, PayError>, sent: seq<HttpRequest>)
      modifies this
      ensures this.amount == amount && this.userId == userId && this.userFirstName == userFirstName
      ensures this.userLastName == userLastName && this.userEmail == userEmail
      ensures this.userPhone == userPhone && this.source == source
      // the required-field check comes before any request
      ensures MissingField(amount, userFirstName, userLastName, userEmail, userPhone).Some? ==>
                sent == [] &&
                outcome == Failure(MissingPaymentInfo(MissingField(amount, userFirstName, userLastName, userEmail, userPhone).value, GatewayName))
      ensures MissingField(amount, userFirstName, userLastName, userEmail, userPhone).None? ==>
                1 <= |sent| <= 2 && sent[0].url == IntentionUrl && sent[0].body.IntentionBody?
      // the intention request: both address blocks are the same placeholder block
      ensures |sent| >= 1 ==>
                && sent[0].body.apiKey == apiKey && sent[0].body.currency == currency
                && sent[0].body.amountCents == amount.value * 100.0
                && sent[0].body.deliveryNeeded == "false" && sent[0].body.items == []
                && sent[0].body.shippingData == sent[0].body.billingData
                && IsPlaceholderBlock(sent[0].body.billingData, userEmail.value, userFirstName.value,
                                      userLastName.value, userPhone.value)
      // no intention id: abort before the payment-key request
      ensures |sent| >= 1 && !IsSet(gateway(sent[0]), "id") ==>
                |sent| == 1 && outcome == Failure(GatewayException(IntentionFailedMessage))
      ensures |sent| >= 1 && IsSet(gateway(sent[0]), "id") ==>
                |sent| == 2 && sent[1] == Post(PaymentKeyUrl, PaymentKeyBody(
                  Index(gateway(sent[0]), "token"), sent[0].body.amountCents, currency, integrationId,
                  Index(gateway(sent[0]), "id"), sent[0].body.billingData))
      // no payment token: fail; otherwise redirect to the checkout iframe
      ensures |sent| == 2 && !IsSet(gateway(sent[1]), "token") ==>
                outcome == Failure(GatewayException(PaymentKeyFailedMessage))
      ensures |sent| == 2 && IsSet(gateway(sent[1]), "token") ==>
                outcome == Success(PayResult(Index(gateway(sent[0]), "id"), "",
                  RedirectUrl(iframeId, ToPhpString(Index(gateway(sent[1]), "token")))))
      ensures outcome.Success? && '?' !in iframeId ==>
                ParseRedirect(outcome.value.redirectUrl) == Some((iframeId, ToPhpString(Index(gateway(sent[1]), "token"))))
    {
      this.amount, this.userId, this.userFirstName, this.userLastName := amount, userId, userFirstName, userLastName;
      this.userEmail, this.userPhone, this.source := userEmail, userPhone, source;

      var missing := MissingField(this.amount, this.userFirstName, this.userLastName, this.userEmail, this.userPhone);
      if missing.Some? {
        return Failure(MissingPaymentInfo(missing.value, GatewayName)), [];
      }

      var amountCents := this.amount.value * 100.0;
      var shipping := PartyAddress(this.userEmail.value, this.userFirstName.value, this.userLastName.value, this.userPhone.value);
      var billing := PartyAddress(this.userEmail.value, this.userFirstName.value, this.userLastName.value, this.userPhone.value);
      var intentionRequest := Post(IntentionUrl, IntentionBody(apiKey, amountCents, currency, "false", [], shipping, billing));
      sent := [intentionRequest];
      var intention := gateway(intentionRequest);
      if !IsSet(intention, "id") {
        return Failure(GatewayException(IntentionFailedMessage)), sent;
      }

      var keyBilling := PartyAddress(this.userEmail.value, this.userFirstName.value, this.userLastName.value, this.userPhone.value);
      var paymentRequest := Post(PaymentKeyUrl, PaymentKeyBody(
        Index(intention, "token"), amountCents, currency, integrationId, Index(intention, "id"), keyBilling));
      sent := sent + [paymentRequest];
      var payment := gateway(paymentRequest);
      if !IsSet(payment, "token") {
        return Failure(GatewayException(PaymentKeyFailedMessage)), sent;
      }

      var token := ToPhpString(Index(payment, "token"));
      outcome := Success(PayResult(Index(intention, "id"), "", RedirectUrl(iframeId, token)));
      if '?' !in iframeId {
        RedirectUrlRoundTrip(iframeId, token);
      }
    }

    /** The digest the callback's `Hmac` header must carry for this payload. */
    function ExpectedHmac(crypto: Crypto, data: seq<(string, Value)>): (digest: string)
      ensures CollisionFree(crypto, hmacSecret) && EncodingInjective(crypto) ==>
                forall other: seq<(string, Value)> ::
                  crypto.hmacSha512(crypto.jsonEncode(Arr(other)), hmacSecret) == digest ==> other == data
    {
      crypto.hmacSha512(crypto.jsonEncode(Arr(data)), hmacSecret)
    }

    /** The callback carries the digest of its own payload under this adapter's secret. */
    predicate Authentic(crypto: Crypto, hmacHeader: Option<string>, data: seq<(string, Value)>)
    {
      hmacHeader == Some(ExpectedHmac(crypto, data))
    }

    /** Interprets a gateway callback: `hmacHeader` is the `Hmac` header (absent
        as None), `data` the request body. */
    function Verify(crypto: Crypto, hmacHeader: Option<string>, data: seq<(string, Value)>): (r: VerifyResult)
      ensures r.processData == data
      ensures r.paymentId == Index(Get(data, "order"), "id")
      ensures r.success <==> Authentic(crypto, hmacHeader, data) && Truthy(Get(data, "success"))
      ensures r.message == Trans(PaymentFailedKey) <==> !Authentic(crypto, hmacHeader, data)
      ensures r.message == Trans(PaymentDoneKey) <==> r.success
      ensures r.message.key == PaymentFailedWithCodeKey <==>
                Authentic(crypto, hmacHeader, data) && !Truthy(Get(data, "success"))
      ensures r.message.key == PaymentFailedWithCodeKey ==>
                r.message.params == [("CODE", ErrorMessage(Index(Get(data, "data"), "txn_response_code")))]
    {
      var body := Arr(data);
      var calculatedHmac := crypto.hmacSha512(crypto.jsonEncode(body), hmacSecret);
      if HashEquals(calculatedHmac, hmacHeader) then
        if Truthy(Index(body, "success")) then
          VerifyResult(true, Index(Index(body, "order"), "id"), Trans(PaymentDoneKey), data)
        else
          var code := ErrorMessage(Index(Index(body, "data"), "txn_response_code"));
          VerifyResult(false, Index(Index(body, "order"), "id"),
                       Translated(PaymentFailedWithCodeKey, [("CODE", code)]), data)
      else
        VerifyResult(false, Index(Index(body, "order"), "id"), Trans(PaymentFailedKey), data)
    }

    /** The message shown for a provider transaction response code. */
    function ErrorMessage(code: Value): (t: Text)
      ensures t.params == []
      ensures t.key == GenericErrorKey || t.key in ErrorKeys.Values
    {
      var key := ArrayKey(code);
      if key.Some? && key.value in ErrorKeys then Trans(ErrorKeys[key.value])
      else Trans(GenericErrorKey)
    }

    /** Refunds a transaction: fetches a fresh auth token, posts the refund and
        echoes its inputs. `sent` is the pair of requests issued. */
    function Refund(transactionId: Value, amount: Value, gateway: HttpRequest -> Value): (r: (RefundResult, seq<HttpRequest>))
      ensures r.0.transactionId == transactionId && r.0.amount == amount
      ensures |r.1| == 2 && r.1[0] == Post(AuthTokenUrl, AuthBody(apiKey))
      ensures r.1[1].url == RefundUrl
      ensures r.1[1].body == RefundBody(Index(gateway(r.1[0]), "token"), transactionId, amount)
    {
      var authRequest := Post(AuthTokenUrl, AuthBody(apiKey));
      var newToken := gateway(authRequest);
      var refundRequest := Post(RefundUrl, RefundBody(Index(newToken, "token"), transactionId, amount));
      (RefundResult(transactionId, amount), [authRequest, refundRequest])
    }
  }

  /** Each mapped code, given as a string, yields its designated message. */
  lemma ErrorCodeTable(p: PaymobPayment)
    ensures p.ErrorMessage(Str("BLOCKED")) == Trans(BlockedKey) && p.ErrorMessage(Str("B")) == Trans(BlockedKey)
    ensures p.ErrorMessage(Str("5")) == Trans(BalanceKey) && p.ErrorMessage(Str("6051")) == Trans(BalanceKey)
    ensures p.ErrorMessage(Str("F")) == Trans(SecureKey)
    ensures p.ErrorMessage(Str("7")) == Trans(ExpiryKey)
    ensures p.ErrorMessage(Str("2")) == Trans(DeclinedKey)
    ensures p.ErrorMessage(Str("637")) == Trans(OtpKey)
    ensures p.ErrorMessage(Str("11")) == Trans(SecurityKey)
  {
  }

  /** A numeric code sent as an integer yields the same message as its string form. */
  lemma IntErrorCodeTable(p: PaymobPayment)
    ensures p.ErrorMessage(Int(5)) == Trans(BalanceKey) && p.ErrorMessage(Int(6051)) == Trans(BalanceKey)
    ensures p.ErrorMessage(Int(7)) == Trans(ExpiryKey)
    ensures p.ErrorMessage(Int(2)) == Trans(DeclinedKey)
    ensures p.ErrorMessage(Int(637)) == Trans(OtpKey)
    ensures p.ErrorMessage(Int(11)) == Trans(SecurityKey)
  {
    assert IntToDecimal(5) == "5";
    assert IntToDecimal(7) == "7";
    assert IntToDecimal(2) == "2";
    assert IntToDecimal(11) == "11";
    assert IntToDecimal(637) == "637";
    assert IntToDecimal(6051) == "6051";
  }

  /** An integer code hits the table only through one of its numeric keys. */
  lemma IntCodeInTable(i: int)
    requires IntToDecimal(i) in ErrorKeys
    ensures i in {5, 7, 2, 6051, 637, 11}
  {
    var s := IntToDecimal(i);
    assert s in {"BLOCKED", "B", "5", "F", "7", "2", "6051", "637", "11"};
    if s == "BLOCKED" || s == "B" || s == "F" {
      IntKeyHasNoLetter(i, 0);
    } else if s == "5" {
      assert NatToDecimal(5) == s;
      IntKeyIsDecimal(i, 5);
    } else if s == "7" {
      assert NatToDecimal(7) == s;
      IntKeyIsDecimal(i, 7);
    } else if s == "2" {
      assert NatToDecimal(2) == s;
      IntKeyIsDecimal(i, 2);
    } else if s == "11" {
      assert NatToDecimal(11) == s;
      IntKeyIsDecimal(i, 11);
    } else if s == "637" {
      assert NatToDecimal(637) == s;
      IntKeyIsDecimal(i, 637);
    } else {
      assert NatToDecimal(6051) == s == "6051";
      IntKeyIsDecimal(i, 6051);
    }
  }

  /** The lookup is total: exactly the codes outside the table, null included, get the generic message. */
  lemma UnmappedCodesFallBack(p: PaymobPayment, code: Value)
    ensures p.ErrorMessage(code) == Trans(GenericErrorKey) <==> !IsMappedCode(code)
  {
    assert GenericErrorKey !in ErrorKeys.Values;
    match code {
      case Str(s) =>
        assert s in ErrorKeys <==> s in {"BLOCKED", "B", "5", "F", "7", "2", "6051", "637", "11"};
      case Int(i) =>
        if IntToDecimal(i) in ErrorKeys {
          IntCodeInTable(i);
        } else if i in {5, 7, 2, 6051, 637, 11} {
          IntErrorCodeTable(p);
        }
      case _ =>
    }
  }

  /** An authentic callback for a failed payment with response code 5 reports insufficient balance. */
  lemma DeclinedForBalance(p: PaymobPayment, crypto: Crypto, hmacHeader: Option<string>, data: seq<(string, Value)>)
    requires p.Authentic(crypto, hmacHeader, data)
    requires !Truthy(Get(data, "success"))
    requires Index(Get(data, "data"), "txn_response_code") in {Str("5"), Int(5)}
    ensures !p.Verify(crypto, hmacHeader, data).success
    ensures p.Verify(crypto, hmacHeader, data).message ==
              Translated(PaymentFailedWithCodeKey, [("CODE", Trans(BalanceKey))])
  {
    ErrorCodeTable(p);
    IntErrorCodeTable(p);
  }

  /** Whatever the payload claims, a callback without a valid signature is reported as failed. */
  lemma ForgedCallbackRejected(p: PaymobPayment, crypto: Crypto, hmacHeader: Option<string>, data: seq<(string, Value)>)
    requires hmacHeader != Some(p.ExpectedHmac(crypto, data))
    ensures p.Verify(crypto, hmacHeader, data) ==
              VerifyResult(false, Index(Get(data, "order"), "id"), Trans(PaymentFailedKey), data)
  {
  }

  /** With an ideal HMAC, the signature of one payload authenticates no other:
      a payload altered in transit (a flipped `success` flag, say) is rejected. */
  lemma OnlySignedPayloadAuthenticates(p: PaymobPayment, crypto: Crypto, signed: seq<(string, Value)>,
                                       received: seq<(string, Value)>)
    requires CollisionFree(crypto, p.hmacSecret) && EncodingInjective(crypto)
    requires received != signed
    ensures !p.Verify(crypto, Some(p.ExpectedHmac(crypto, signed)), received).success
    ensures p.Verify(crypto, Some(p.ExpectedHmac(crypto, signed)), received).message == Trans(PaymentFailedKey)
  {
    assert Arr(received) != Arr(signed);
    assert crypto.jsonEncode(Arr(received)) != crypto.jsonEncode(Arr(signed));
  }

  /** A callback without an `Hmac` header is never authentic. */
  lemma MissingHeaderRejected(p: PaymobPayment, crypto: Crypto, data: seq<(string, Value)>)
    ensures !p.Verify(crypto, None, data).success
    ensures p.Verify(crypto, None, data).message == Trans(PaymentFailedKey)
  {
  }

  /** The refund result depends on the inputs only, never on what the gateway answers. */
  lemma RefundIgnoresResponses(p: PaymobPayment, transactionId: Value, amount: Value,
                               g1: HttpRequest -> Value, g2: HttpRequest -> Value)
    ensures p.Refund(transactionId, amount, g1).0 == p.Refund(transactionId, amount, g2).0 ==
              RefundResult(transactionId, amount)
  {
  }
}
