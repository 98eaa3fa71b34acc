/**
 * The decision logic of the payment server in server.js: the cached
 * provider access token with its one-minute safety margin, the order-id
 * format, the amount check and request construction of the initiate
 * handler, the capture-on-RESERVED rule of the callback handler, and the
 * form fields of the two notification e-mails. The clock, the random
 * string and every reply of the payment provider and of the e-mail relay
 * are parameters; each outbound request is recorded in `calls`.
 */
module VippsServer {
  import opened Wrappers
  import opened Strings

  // ---------------------------------------------------------------------------
  // Access token cache

  /** The provider's answer to a token request. */
  datatype TokenGrant = Granted(accessToken: string, expiresIn: int) | Refused

  /** What `getAccessToken` resolves to: a token, or the authentication error it throws. */
  datatype AuthResult = Token(value: string) | AuthError

  /** The module-level `accessToken` / `tokenExpiry` pair; None is `null`. */
  datatype TokenCache = TokenCache(accessToken: Option<string>, tokenExpiry: Option<int>)

  /** The safety margin taken off the provider's lifetime, in milliseconds. */
  const SafetyMarginMs: int := 60000

  /** `accessToken && tokenExpiry && Date.now() < tokenExpiry`, with JavaScript truthiness. */
  predicate CacheFresh(cache: TokenCache, now: int) {
    && cache.accessToken.Some? && cache.accessToken.value != ""
    && cache.tokenExpiry.Some? && cache.tokenExpiry.value != 0
    && now < cache.tokenExpiry.value
  }

  /** The expiry recorded after a refresh at `now`: the lifetime in seconds, less the margin. */
  function ExpiryAfter(now: int, expiresIn: int): int {
    now + expiresIn * 1000 - SafetyMarginMs
  }

  /** One call of `getAccessToken`: its result, the cache afterwards, and whether the provider was asked. */
  datatype TokenStep = TokenStep(result: AuthResult, cache: TokenCache, requested: bool)

  function TokenLookup(cache: TokenCache, now: int, grant: TokenGrant): (s: TokenStep)
    ensures s.requested <==> !CacheFresh(cache, now)
    ensures !s.requested ==> s.result == Token(cache.accessToken.value) && s.cache == cache
    ensures s.requested && grant.Refused? ==> s.result == AuthError && s.cache == cache
    ensures s.requested && grant.Granted? ==>
      && s.result == Token(grant.accessToken)
      && s.cache == TokenCache(Some(grant.accessToken), Some(ExpiryAfter(now, grant.expiresIn)))
  {
    if CacheFresh(cache, now) then TokenStep(Token(cache.accessToken.value), cache, false)
    else
      match grant
      case Granted(token, expiresIn) =>
        TokenStep(Token(token), TokenCache(Some(token), Some(ExpiryAfter(now, expiresIn))), true)
      case Refused => TokenStep(AuthError, cache, true)
  }

  /**
   * After a refresh at `now`, a later call strictly before the recorded expiry
   * is served from the cache with the same token, whatever the provider would say.
   */
  lemma RefreshThenCached(cache: TokenCache, now: int, token: string, expiresIn: int, later: int, grant2: TokenGrant)
    requires !CacheFresh(cache, now)
    requires token != "" && ExpiryAfter(now, expiresIn) != 0
    requires later < ExpiryAfter(now, expiresIn)
    ensures var first := TokenLookup(cache, now, Granted(token, expiresIn));
      var second := TokenLookup(first.cache, later, grant2);
      !second.requested && second.result == Token(token) && second.cache == first.cache
  {
  }

  /** At or after the recorded expiry the provider is asked again. */
  lemma ExpiredRefreshes(token: string, expiry: int, now: int, grant: TokenGrant)
    requires now >= expiry
    ensures TokenLookup(TokenCache(Some(token), Some(expiry)), now, grant).requested
  {
  }

  /**
   * The callback reads the clock again for the capture: a token that was fresh
   * for the details fetch but lapses before the capture is fetched anew.
   */
  lemma TokenLapsesDuringCallback(cache: TokenCache, now: int, captureNow: int, grant: TokenGrant,
                                  captureGrant: TokenGrant)
    requires CacheFresh(cache, now) && captureNow >= cache.tokenExpiry.value
    ensures var first := TokenLookup(cache, now, grant);
      && !first.requested && first.cache == cache
      && TokenLookup(first.cache, captureNow, captureGrant).requested
  {
  }

  /** A lifetime of 60 seconds or less is used up by the margin: the next call refreshes. */
  lemma ShortLifetimeNeverCached(now: int, token: string, expiresIn: int, grant2: TokenGrant)
    requires expiresIn <= 60
    ensures TokenLookup(TokenCache(Some(token), Some(ExpiryAfter(now, expiresIn))), now, grant2).requested
  {
  }

  // ---------------------------------------------------------------------------
  // Order ids

  /**
   * `generateOrderId`: "OB", the base-36 numeral of the timestamp, and
   * characters 2 to 6 of the random number's base-36 rendering, upper-cased.
   */
  function GenerateOrderId(timestamp: nat, randomText: string): string {
    ToUpper("OB" + Numeral(timestamp, 36) + Substring(randomText, 2, 7))
  }

  /** A character of the id pattern `[0-9A-Z]`. */
  predicate IsIdChar(c: char) {
    '0' <= c <= '9' || 'A' <= c <= 'Z'
  }

  /** What `Math.random().toString(36)` yields past its leading "0.": base-36 digits. */
  predicate RandomDigits(randomText: string) {
    forall i :: 2 <= i < |randomText| ==> IsDigitIn(randomText[i], 36)
  }

  lemma UpperDigit(c: char)
    requires IsDigitIn(c, 36)
    ensures IsIdChar(ToUpperChar(c))
  {
  }

  lemma OrderIdParts(timestamp: nat, randomText: string)
    ensures GenerateOrderId(timestamp, randomText)
      == "OB" + ToUpper(Numeral(timestamp, 36)) + ToUpper(Substring(randomText, 2, 7))
  {
    ToUpperAppend("OB" + Numeral(timestamp, 36), Substring(randomText, 2, 7));
    ToUpperAppend("OB", Numeral(timestamp, 36));
    assert ToUpper("OB") == "OB";
  }

  /** The random part is at most five characters, each a base-36 digit when the text is one. */
  lemma RandomPart(randomText: string)
    ensures |Substring(randomText, 2, 7)| <= 5
    ensures RandomDigits(randomText) ==>
      forall j :: 0 <= j < |Substring(randomText, 2, 7)| ==> IsDigitIn(Substring(randomText, 2, 7)[j], 36)
  {
    var random := Substring(randomText, 2, 7);
    if |randomText| <= 2 {
      assert |random| == 0;
    } else if |randomText| < 7 {
      assert random == randomText[2..];
    } else {
      assert random == randomText[2..7];
    }
  }

  /**
   * The id is "OB", the upper-cased timestamp numeral (which reads back as the
   * timestamp) and at most five random characters.
   */
  lemma OrderIdShape(timestamp: nat, randomText: string)
    ensures var id := GenerateOrderId(timestamp, randomText);
      var time := ToUpper(Numeral(timestamp, 36));
      && StartsWith(id, "OB")
      && |id| == 2 + |time| + |Substring(randomText, 2, 7)|
      && |Substring(randomText, 2, 7)| <= 5
      && |id| > 2
      && id[2..2 + |time|] == time
      && (forall i :: 0 <= i < |time| ==> IsDigitIn(time[i], 36))
      && NumeralValue(time, 36) == timestamp
  {
    var numeral := Numeral(timestamp, 36);
    var id := GenerateOrderId(timestamp, randomText);
    var time := ToUpper(numeral);
    OrderIdParts(timestamp, randomText);
    RandomPart(randomText);
    assert id[..2] == "OB";
    assert id[2..2 + |time|] == time;
    NumeralRoundTrip(timestamp, 36);
    NumeralValueUpper(numeral, 36);
  }

  /** When the random text is a base-36 rendering, every character of the id matches `[0-9A-Z]`. */
  lemma OrderIdCharset(timestamp: nat, randomText: string)
    requires RandomDigits(randomText)
    ensures forall i :: 0 <= i < |GenerateOrderId(timestamp, randomText)| ==> IsIdChar(GenerateOrderId(timestamp, randomText)[i])
  {
    var numeral := Numeral(timestamp, 36);
    var random := Substring(randomText, 2, 7);
    var id := GenerateOrderId(timestamp, randomText);
    var n := |numeral|;
    OrderIdParts(timestamp, randomText);
    RandomPart(randomText);
    assert |id| == 2 + n + |random|;
    forall i | 0 <= i < |id|
      ensures IsIdChar(id[i])
    {
      if i >= 2 + n {
        assert id[i] == ToUpperChar(random[i - 2 - n]);
        UpperDigit(random[i - 2 - n]);
      } else if i >= 2 {
        assert id[i] == ToUpperChar(numeral[i - 2]);
        UpperDigit(numeral[i - 2]);
      }
    }
  }

  /** Different timestamps give ids that differ in their time part. */
  lemma DistinctTimestampsDistinctTimeParts(t1: nat, t2: nat)
    requires t1 != t2
    ensures ToUpper(Numeral(t1, 36)) != ToUpper(Numeral(t2, 36))
  {
    NumeralRoundTrip(t1, 36);
    NumeralRoundTrip(t2, 36);
    NumeralValueUpper(Numeral(t1, 36), 36);
    NumeralValueUpper(Numeral(t2, 36), 36);
  }

  // ---------------------------------------------------------------------------
  // The initiate handler

  /** The JSON body of `/api/vipps/initiate`; None stands for a missing field. */
  datatype InitiateBody = InitiateBody(
    amount: Option<int>,
    certificateType: Option<string>,
    buyerName: Option<string>,
    buyerEmail: Option<string>,
    recipientName: Option<string>,
    message: Option<string>)

  /** How a template literal or `URLSearchParams.append` writes a possibly missing string. */
  function JsText(s: Option<string>): string {
    s.GetOr("undefined")
  }

  /** `!amount || amount < 100`. */
  predicate AmountRejected(amount: Option<int>) {
    amount.None? || amount.value == 0 || amount.value < 100
  }

  lemma AmountAcceptedIff(amount: Option<int>)
    ensures !AmountRejected(amount) <==> amount.Some? && amount.value >= 100
  {
  }

  /** The payment request sent to the provider. */
  datatype PaymentRequest = PaymentRequest(
    merchantSerialNumber: string,
    callbackPrefix: string,
    fallBack: string,
    isApp: bool,
    orderId: string,
    amount: int,
    transactionText: string)

  /** The request object the initiate handler builds once the amount is accepted. */
  function BuildPaymentRequest(appUrl: string, msn: string, orderId: string, amount: int, certificateType: Option<string>): (r: PaymentRequest)
    ensures r.amount == amount * 100 && r.orderId == orderId && r.merchantSerialNumber == msn && !r.isApp
    ensures StartsWith(r.fallBack, appUrl) && EndsWith(r.fallBack, "?orderId=" + orderId)
    ensures StartsWith(r.callbackPrefix, appUrl) && EndsWith(r.callbackPrefix, "/api/vipps/callback")
    ensures r.transactionText == JsText(certificateType) + " - Gift Certificate"
  {
    var fallBack := appUrl + "/payment-success" + "?orderId=" + orderId;
    assert fallBack[..|appUrl|] == appUrl;
    assert fallBack[|fallBack| - |"?orderId=" + orderId|..] == "?orderId=" + orderId;
    var callback := appUrl + "/api/vipps/callback";
    assert callback[..|appUrl|] == appUrl;
    PaymentRequest(msn, callback, fallBack, false, orderId, amount * 100, JsText(certificateType) + " - Gift Certificate")
  }

  /** A provider reply to the payment request: the checkout URL (possibly absent), or a failure. */
  datatype ProviderReply = Accepted(url: Option<string>) | ProviderFailed

  datatype ReplyBody =
    | Checkout(success: bool, orderId: string, vippsUrl: Option<string>)
    | ErrorMessage(error: string)

  datatype Reply = Reply(status: int, body: ReplyBody)

  const AmountError: string := "Amount must be at least 100 NOK (1 NOK)"
  const InitiateError: string := "Failed to initiate payment"

  /** The initiate handler's answer, given the order id, the token outcome and the provider's reply. */
  function InitiateReply(amount: Option<int>, orderId: string, auth: AuthResult, provider: ProviderReply): (r: Reply)
    ensures r.status == 400 <==> AmountRejected(amount)
    ensures r.status == 200 <==> !AmountRejected(amount) && auth.Token? && provider.Accepted?
    ensures r.status == 200 || r.status == 400 || r.status == 500
    ensures r.status == 200 ==> r.body == Checkout(true, orderId, provider.url)
    ensures r.status == 400 ==> r.body == ErrorMessage(AmountError)
  {
    if AmountRejected(amount) then Reply(400, ErrorMessage(AmountError))
    else if auth.AuthError? then Reply(500, ErrorMessage(InitiateError))
    else match provider
      case ProviderFailed => Reply(500, ErrorMessage(InitiateError))
      case Accepted(url) => Reply(200, Checkout(true, orderId, url))
  }

  // ---------------------------------------------------------------------------
  // Notification forms

  /** One `name=value` pair of a `URLSearchParams` form. */
  datatype FormField = FormField(name: string, value: string)

  function Names(form: seq<FormField>): (names: seq<string>)
    ensures |names| == |form|
    ensures forall i :: 0 <= i < |form| ==> names[i] == form[i].name
  {
    seq(|form|, i requires 0 <= i < |form| => form[i].name)
  }

  /** `params.get(name)`: the first value under the name. */
  function Get(form: seq<FormField>, name: string): Option<string> {
    if form == [] then None
    else if form[0].name == name then Some(form[0].value)
    else Get(form[1..], name)
  }

  /** `get` answers the value of the first field with the name. */
  lemma {:induction false} GetFirst(form: seq<FormField>, k: nat, name: string)
    requires k < |form| && form[k].name == name
    requires forall j :: 0 <= j < k ==> form[j].name != name
    ensures Get(form, name) == Some(form[k].value)
    decreases k
  {
    if k > 0 {
      GetFirst(form[1..], k - 1, name);
    }
  }

  /** Every name occurs at most once. */
  predicate DistinctNames(form: seq<FormField>) {
    forall i, j :: 0 <= i < j < |form| ==> form[i].name != form[j].name
  }

  /** In a form without repeated names, each field is what `get` finds under its name. */
  lemma GetDistinct(form: seq<FormField>, k: nat)
    requires k < |form| && DistinctNames(form)
    ensures Get(form, form[k].name) == Some(form[k].value)
  {
    GetFirst(form, k, form[k].name);
  }

  /** The order record the initiate handler hands to the notification. */
  datatype OrderDetails = OrderDetails(
    orderId: string,
    amount: int,
    certificateType: Option<string>,
    buyerName: Option<string>,
    buyerEmail: Option<string>,
    recipientName: Option<string>,
    message: Option<string>,
    status: string)

  /** `orderDetails.message || 'N/A'`. */
  function MessageOrNA(message: Option<string>): (text: string)
    ensures message.None? || message.value == "" ==> text == "N/A"
    ensures message.Some? && message.value != "" ==> text == message.value
  {
    if message.Some? && message.value != "" then message.value else "N/A"
  }

  const OrderFormNames: seq<string> := ["_subject", "_captcha", "_template", "order_id", "amount",
    "certificate_type", "buyer_name", "buyer_email", "recipient_name", "message", "status"]

  lemma OrderFormNamesDistinct()
    ensures forall i, j :: 0 <= i < j < |OrderFormNames| ==> OrderFormNames[i] != OrderFormNames[j]
  {
  }

  /** The form `sendOrderNotification` posts, field by field in append order. */
  function OrderNotice(d: OrderDetails): seq<FormField> {
    [ FormField("_subject", "New Order - " + d.orderId),
      FormField("_captcha", "false"),
      FormField("_template", "table"),
      FormField("order_id", d.orderId),
      FormField("amount", IntToDecimal(d.amount) + " NOK"),
      FormField("certificate_type", JsText(d.certificateType)),
      FormField("buyer_name", JsText(d.buyerName)),
      FormField("buyer_email", JsText(d.buyerEmail)),
      FormField("recipient_name", JsText(d.recipientName)),
      FormField("message", MessageOrNA(d.message)),
      FormField("status", "Payment Initiated") ]
  }

  /** What the relay reads from the order notification under each name. */
  lemma OrderNoticeFields(d: OrderDetails)
    ensures Names(OrderNotice(d)) == OrderFormNames && DistinctNames(OrderNotice(d))
    ensures Get(OrderNotice(d), "_subject") == Some("New Order - " + d.orderId)
    ensures Get(OrderNotice(d), "order_id") == Some(d.orderId)
    ensures Get(OrderNotice(d), "amount") == Some(IntToDecimal(d.amount) + " NOK")
    ensures Get(OrderNotice(d), "certificate_type") == Some(JsText(d.certificateType))
    ensures Get(OrderNotice(d), "buyer_name") == Some(JsText(d.buyerName))
    ensures Get(OrderNotice(d), "buyer_email") == Some(JsText(d.buyerEmail))
    ensures Get(OrderNotice(d), "recipient_name") == Some(JsText(d.recipientName))
    ensures Get(OrderNotice(d), "message") == Some(MessageOrNA(d.message))
    ensures Get(OrderNotice(d), "status") == Some("Payment Initiated")
  {
    var form := OrderNotice(d);
    assert Names(form) == OrderFormNames;
    OrderFormNamesDistinct();
    DistinctByNames(form, OrderFormNames);
    GetDistinct(form, 0);
    GetDistinct(form, 3);
    GetDistinct(form, 4);
    GetDistinct(form, 5);
    GetDistinct(form, 6);
    GetDistinct(form, 7);
    GetDistinct(form, 8);
    GetDistinct(form, 9);
    GetDistinct(form, 10);
  }

  /** A form whose names are pairwise different has distinct names. */
  lemma DistinctByNames(form: seq<FormField>, names: seq<string>)
    requires Names(form) == names
    requires forall i, j :: 0 <= i < j < |names| ==> names[i] != names[j]
    ensures DistinctNames(form)
  {
    forall i, j | 0 <= i < j < |form|
      ensures form[i].name != form[j].name
    {
      assert names[i] == form[i].name && names[j] == form[j].name;
    }
  }

  /** `sendOrderNotification`'s sequence of `formData.append` calls. */
  method OrderNotificationForm(d: OrderDetails) returns (form: seq<FormField>)
    ensures form == OrderNotice(d)
  {
    form := [];
    form := form + [FormField("_subject", "New Order - " + d.orderId)];
    form := form + [FormField("_captcha", "false")];
    form := form + [FormField("_template", "table")];
    form := form + [FormField("order_id", d.orderId)];
    form := form + [FormField("amount", IntToDecimal(d.amount) + " NOK")];
    form := form + [FormField("certificate_type", JsText(d.certificateType))];
    form := form + [FormField("buyer_name", JsText(d.buyerName))];
    form := form + [FormField("buyer_email", JsText(d.buyerEmail))];
    form := form + [FormField("recipient_name", JsText(d.recipientName))];
    form := form + [FormField("message", MessageOrNA(d.message))];
    form := form + [FormField("status", "Payment Initiated")];
  }

  const SuccessFormNames: seq<string> := ["_subject", "_captcha", "order_id", "status"]

  lemma SuccessFormNamesDistinct()
    ensures forall i, j :: 0 <= i < j < |SuccessFormNames| ==> SuccessFormNames[i] != SuccessFormNames[j]
  {
  }

  /** The form `sendPaymentSuccessEmail` posts. */
  function SuccessNotice(orderId: string): seq<FormField> {
    [ FormField("_subject", "Payment Successful - " + orderId),
      FormField("_captcha", "false"),
      FormField("order_id", orderId),
      FormField("status", "PAID - Please send gift certificate") ]
  }

  /** What the relay reads from the success e-mail under each name. */
  lemma SuccessNoticeFields(orderId: string)
    ensures Names(SuccessNotice(orderId)) == SuccessFormNames && DistinctNames(SuccessNotice(orderId))
    ensures Get(SuccessNotice(orderId), "_subject") == Some("Payment Successful - " + orderId)
    ensures Get(SuccessNotice(orderId), "_captcha") == Some("false")
    ensures Get(SuccessNotice(orderId), "order_id") == Some(orderId)
    ensures Get(SuccessNotice(orderId), "status") == Some("PAID - Please send gift certificate")
  {
    var form := SuccessNotice(orderId);
    assert Names(form) == SuccessFormNames;
    SuccessFormNamesDistinct();
    DistinctByNames(form, SuccessFormNames);
    GetDistinct(form, 0);
    GetDistinct(form, 1);
    GetDistinct(form, 2);
    GetDistinct(form, 3);
  }

  /** `sendPaymentSuccessEmail`'s sequence of `formData.append` calls. */
  method PaymentSuccessForm(orderId: string) returns (form: seq<FormField>)
    ensures form == SuccessNotice(orderId)
  {
    form := [];
    form := form + [FormField("_subject", "Payment Successful - " + orderId)];
    form := form + [FormField("_captcha", "false")];
    form := form + [FormField("order_id", orderId)];
    form := form + [FormField("status", "PAID - Please send gift certificate")];
  }

  // ---------------------------------------------------------------------------
  // The callback handler

  /** The part of the provider's payment details the callback reads. */
  datatype PaymentDetails = PaymentDetails(status: string, capturedAmount: int)

  /** The callback captures exactly on a RESERVED payment. */
  predicate ShouldCapture(status: string) {
    status == "RESERVED"
  }

  /** The callback's status code: 500 when the token or the details fetch fails, else 200. */
  function CallbackStatus(auth: AuthResult, details: Option<PaymentDetails>): (code: int)
    ensures code == 200 <==> auth.Token? && details.Some?
    ensures code == 200 || code == 500
  {
    if auth.AuthError? || details.None? then 500 else 200
  }

  // ---------------------------------------------------------------------------
  // The server

  /** An outbound HTTP request. */
  datatype Call =
    | TokenRequest
    | PaymentCall(request: PaymentRequest)
    | DetailsCall(orderId: string)
    | CaptureCall(orderId: string, amount: int)
    | RelayPost(form: seq<FormField>)

  /** No capture among the calls. */
  predicate NoCapture(cs: seq<Call>) {
    forall c :: c in cs ==> !c.CaptureCall?
  }

  /** The requests one `getAccessToken` sends: a token request exactly when the cache was not fresh. */
  function TokenTrace(step: TokenStep): seq<Call> {
    if step.requested then [TokenRequest] else []
  }

  /** The order record the initiate handler builds for an accepted body. */
  function OrderDetailsOf(body: InitiateBody, orderId: string): OrderDetails
    requires body.amount.Some?
  {
    OrderDetails(orderId, body.amount.value, body.certificateType, body.buyerName,
      body.buyerEmail, body.recipientName, body.message, "initiated")
  }

  /**
   * The requests of an accepted initiate: the token lookup's, then the payment
   * request if a token was obtained, then the order notification if the
   * provider accepted the payment.
   */
  function InitiateTrace(step: TokenStep, request: PaymentRequest, provider: ProviderReply,
                         notice: seq<FormField>): seq<Call> {
    TokenTrace(step)
      + (if step.result.AuthError? then []
         else [PaymentCall(request)] + (if provider.Accepted? then [RelayPost(notice)] else []))
  }

  /**
   * The payment request goes out exactly when a token was obtained, and the
   * order notification exactly when, in addition, the provider accepted; no
   * initiate ever captures.
   */
  lemma InitiateTraceCalls(step: TokenStep, request: PaymentRequest, provider: ProviderReply,
                           notice: seq<FormField>)
    ensures PaymentCall(request) in InitiateTrace(step, request, provider, notice) <==> step.result.Token?
    ensures RelayPost(notice) in InitiateTrace(step, request, provider, notice)
      <==> step.result.Token? && provider.Accepted?
    ensures NoCapture(InitiateTrace(step, request, provider, notice))
  {
  }

  /**
   * The requests of `capturePayment`: the token lookup's, then the capture if a
   * token was obtained, then the success e-mail if the capture went through.
   */
  function CaptureTrace(step: TokenStep, orderId: string, amount: int, captureOk: bool): seq<Call> {
    TokenTrace(step)
      + (if step.result.AuthError? then []
         else [CaptureCall(orderId, amount)] + (if captureOk then [RelayPost(SuccessNotice(orderId))] else []))
  }

  /**
   * A capture of exactly this order and amount is sent exactly when a token was
   * obtained, and no other capture; the success e-mail follows only a capture
   * that went through.
   */
  lemma CaptureTraceCalls(step: TokenStep, orderId: string, amount: int, captureOk: bool)
    ensures CaptureCall(orderId, amount) in CaptureTrace(step, orderId, amount, captureOk) <==> step.result.Token?
    ensures forall c :: c in CaptureTrace(step, orderId, amount, captureOk) && c.CaptureCall? ==>
      c == CaptureCall(orderId, amount)
    ensures RelayPost(SuccessNotice(orderId)) in CaptureTrace(step, orderId, amount, captureOk)
      <==> step.result.Token? && captureOk
  {
  }

  /**
   * The requests of the callback: the token lookup's, then the details fetch
   * if a token was obtained, then `capturePayment`'s when the details say
   * RESERVED.
   */
  function CallbackTrace(first: TokenStep, orderId: string, details: Option<PaymentDetails>,
                         second: TokenStep, captureOk: bool): seq<Call> {
    var capture :=
      if details.Some? && ShouldCapture(details.value.status)
      then CaptureTrace(second, orderId, details.value.capturedAmount, captureOk)
      else [];
    TokenTrace(first) + (if first.result.AuthError? then [] else [DetailsCall(orderId)] + capture)
  }

  /**
   * The callback captures exactly when it answers 200 on RESERVED details and
   * the capture's own token lookup succeeds, and then only the reported amount.
   */
  lemma CallbackTraceCaptures(first: TokenStep, orderId: string, details: Option<PaymentDetails>,
                              second: TokenStep, captureOk: bool)
    ensures !NoCapture(CallbackTrace(first, orderId, details, second, captureOk)) <==>
      && CallbackStatus(first.result, details) == 200
      && ShouldCapture(details.value.status)
      && second.result.Token?
    ensures forall c :: c in CallbackTrace(first, orderId, details, second, captureOk) && c.CaptureCall? ==>
      c == CaptureCall(orderId, details.value.capturedAmount)
  {
    var trace := CallbackTrace(first, orderId, details, second, captureOk);
    var tokenPart := TokenTrace(first);
    assert NoCapture(tokenPart);
    if first.result.AuthError? {
      assert trace == tokenPart;
    } else if details.Some? && ShouldCapture(details.value.status) {
      var capture := CaptureTrace(second, orderId, details.value.capturedAmount, captureOk);
      CaptureTraceCalls(second, orderId, details.value.capturedAmount, captureOk);
      assert trace == tokenPart + ([DetailsCall(orderId)] + capture);
      if second.result.Token? {
        assert CaptureCall(orderId, details.value.capturedAmount) in capture;
      } else {
        assert NoCapture(capture);
      }
    } else {
      assert trace == tokenPart + [DetailsCall(orderId)];
    }
  }

  class PaymentServer {
    var accessToken: Option<string>
    var tokenExpiry: Option<int>
    /** Every request sent to the provider or the e-mail relay, in order. */
    var calls: seq<Call>
    const appUrl: string
    const merchantSerialNumber: string

    function Cache(): TokenCache
      reads this
    {
      TokenCache(accessToken, tokenExpiry)
    }

    constructor (appUrl: string, merchantSerialNumber: string)
      ensures accessToken == None && tokenExpiry == None && calls == []
      ensures this.appUrl == appUrl && this.merchantSerialNumber == merchantSerialNumber
    {
      accessToken := None;
      tokenExpiry := None;
      calls := [];
      this.appUrl := appUrl;
      this.merchantSerialNumber := merchantSerialNumber;
    }

    /** `getAccessToken` at time `now`, the provider answering `grant` if it is asked. */
    method GetAccessToken(now: int, grant: TokenGrant) returns (r: AuthResult)
      modifies this
      ensures var step := TokenLookup(old(Cache()), now, grant);
        && r == step.result && Cache() == step.cache
        && calls == old(calls) + TokenTrace(step)
    {
      if accessToken.Some? && accessToken.value != "" && tokenExpiry.Some? && tokenExpiry.value != 0
        && now < tokenExpiry.value
      {
        return Token(accessToken.value);
      }
      calls := calls + [TokenRequest];
      match grant
      case Granted(token, expiresIn) =>
        accessToken := Some(token);
        tokenExpiry := Some(now + expiresIn * 1000 - SafetyMarginMs);
        r := Token(token);
      case Refused =>
        r := AuthError;
    }

    /** `sendOrderNotification`: one relay post of the order form; a relay failure is swallowed. */
    method SendOrderNotification(d: OrderDetails, relayOk: bool)
      modifies this`calls
      ensures calls == old(calls) + [RelayPost(OrderNotice(d))]
    {
      var form := OrderNotificationForm(d);
      calls := calls + [RelayPost(form)];
    }

    /** `sendPaymentSuccessEmail`: one relay post of the success form; a relay failure is swallowed. */
    method SendPaymentSuccessEmail(orderId: string, relayOk: bool)
      modifies this`calls
      ensures calls == old(calls) + [RelayPost(SuccessNotice(orderId))]
    {
      var form := PaymentSuccessForm(orderId);
      calls := calls + [RelayPost(form)];
    }

    /**
     * `/api/vipps/initiate`. The amount is checked before any id is made or
     * token requested; a rejected amount sends nothing and changes nothing.
     */
    method Initiate(body: InitiateBody, now: nat, randomText: string, grant: TokenGrant,
                    provider: ProviderReply, relayOk: bool) returns (reply: Reply)
      modifies this
      ensures AmountRejected(body.amount) ==>
        reply == Reply(400, ErrorMessage(AmountError)) && calls == old(calls) && Cache() == old(Cache())
      ensures !AmountRejected(body.amount) ==>
        var orderId := GenerateOrderId(now, randomText);
        var step := TokenLookup(old(Cache()), now, grant);
        var request := BuildPaymentRequest(appUrl, merchantSerialNumber, orderId, body.amount.value, body.certificateType);
        && reply == InitiateReply(body.amount, orderId, step.result, provider)
        && Cache() == step.cache
        && calls == old(calls) + InitiateTrace(step, request, provider, OrderNotice(OrderDetailsOf(body, orderId)))
    {
      if body.amount.None? || body.amount.value == 0 || body.amount.value < 100 {
        return Reply(400, ErrorMessage(AmountError));
      }
      var amount := body.amount.value;
      var orderId := GenerateOrderId(now, randomText);
      ghost var start := calls;
      ghost var step := TokenLookup(Cache(), now, grant);
      var auth := GetAccessToken(now, grant);
      if auth.AuthError? {
        return Reply(500, ErrorMessage(InitiateError));
      }
      var request := BuildPaymentRequest(appUrl, merchantSerialNumber, orderId, amount, body.certificateType);
      calls := calls + [PaymentCall(request)];
      match provider
      case ProviderFailed =>
        ConcatAssoc(start, TokenTrace(step), [PaymentCall(request)]);
        reply := Reply(500, ErrorMessage(InitiateError));
      case Accepted(url) =>
        var details := OrderDetails(orderId, amount, body.certificateType, body.buyerName,
          body.buyerEmail, body.recipientName, body.message, "initiated");
        assert details == OrderDetailsOf(body, orderId);
        SendOrderNotification(details, relayOk);
        ghost var sent := [PaymentCall(request)] + [RelayPost(OrderNotice(details))];
        ConcatAssoc(start + TokenTrace(step), [PaymentCall(request)], [RelayPost(OrderNotice(details))]);
        ConcatAssoc(start, TokenTrace(step), sent);
        reply := Reply(200, Checkout(true, orderId, url));
    }

    /** `capturePayment`: every failure is swallowed; success is followed by the success e-mail. */
    method CapturePayment(orderId: string, amount: int, now: int, grant: TokenGrant,
                          captureOk: bool, relayOk: bool)
      modifies this
      ensures var step := TokenLookup(old(Cache()), now, grant);
        && Cache() == step.cache
        && calls == old(calls) + CaptureTrace(step, orderId, amount, captureOk)
    {
      var auth := GetAccessToken(now, grant);
      if auth.AuthError? {
        return;
      }
      calls := calls + [CaptureCall(orderId, amount)];
      if captureOk {
        SendPaymentSuccessEmail(orderId, relayOk);
      }
    }

    /**
     * `/api/vipps/callback`: fetch the payment details, capture when they say
     * RESERVED, and answer 200 unless the token or the details fetch failed —
     * whatever happens to the capture.
     */
    method Callback(orderId: string, now: int, grant: TokenGrant, details: Option<PaymentDetails>,
                    captureNow: int, captureGrant: TokenGrant, captureOk: bool, relayOk: bool) returns (status: int)
      modifies this
      ensures var first := TokenLookup(old(Cache()), now, grant);
        var second := TokenLookup(first.cache, captureNow, captureGrant);
        var captured := first.result.Token? && details.Some? && ShouldCapture(details.value.status);
        && status == CallbackStatus(first.result, details)
        && calls == old(calls) + CallbackTrace(first, orderId, details, second, captureOk)
        && Cache() == (if captured then second.cache else first.cache)
    {
      ghost var start := calls;
      ghost var first := TokenLookup(Cache(), now, grant);
      var auth := GetAccessToken(now, grant);
      if auth.AuthError? {
        return 500;
      }
      calls := calls + [DetailsCall(orderId)];
      if details.None? {
        return 500;
      }
      if details.value.status == "RESERVED" {
        ghost var second := TokenLookup(Cache(), captureNow, captureGrant);
        CapturePayment(orderId, details.value.capturedAmount, captureNow, captureGrant, captureOk, relayOk);
        ghost var capture := CaptureTrace(second, orderId, details.value.capturedAmount, captureOk);
        ConcatAssoc(start + TokenTrace(first), [DetailsCall(orderId)], capture);
        ConcatAssoc(start, TokenTrace(first), [DetailsCall(orderId)] + capture);
      } else {
        ConcatAssoc(start, TokenTrace(first), [DetailsCall(orderId)]);
      }
      status := 200;
    }

    /** `/api/vipps/status/:orderId`: the provider's details, passed through, or 500. */
    method Status(orderId: string, now: int, grant: TokenGrant, details: Option<PaymentDetails>)
      returns (status: int, payload: Option<PaymentDetails>)
      modifies this
      ensures var step := TokenLookup(old(Cache()), now, grant);
        && (status == 200 <==> step.result.Token? && details.Some?)
        && (status == 200 ==> payload == details)
        && (status != 200 ==> status == 500 && payload.None?)
        && Cache() == step.cache
        && calls == old(calls) + TokenTrace(step) + (if step.result.Token? then [DetailsCall(orderId)] else [])
    {
      var auth := GetAccessToken(now, grant);
      if auth.AuthError? {
        return 500, None;
      }
      calls := calls + [DetailsCall(orderId)];
      if details.None? {
        return 500, None;
      }
      return 200, details;
    }
  }
}
