/**
 * The browser side of the gift-certificate payment in js/vipps-payment.js:
 * the API base chosen from the host name, the payment data read from the
 * form (with JavaScript's `parseInt` written out), the amount check made
 * before any request, and the decision between redirecting to the
 * provider's checkout page and reporting an error. The server's answer and
 * the browser's form validity are inputs; session storage is a map.
 */
module VippsClient {
  import opened Wrappers
  import opened Strings
  import Forms
  import VippsServer

  /** The backend base URL: the local server on "localhost", the deployed one elsewhere. */
  function ApiUrl(hostname: string): (url: string)
    ensures url == "http://localhost:3000/api/vipps" <==> hostname == "localhost"
    ensures url == "http://localhost:3000/api/vipps" || url == "https://olgaberge.up.railway.app/api/vipps"
  {
    if hostname == "localhost" then "http://localhost:3000/api/vipps"
    else "https://olgaberge.up.railway.app/api/vipps"
  }

  // ---------------------------------------------------------------------------
  // parseInt

  /** The longest prefix of `s` made of digits of `base`. */
  function DigitPrefix(s: string, base: nat): (p: string)
    ensures |p| <= |s| && p == s[..|p|]
    ensures forall i :: 0 <= i < |p| ==> IsDigitIn(p[i], base)
    ensures |p| < |s| ==> !IsDigitIn(s[|p|], base)
  {
    if s != [] && IsDigitIn(s[0], base) then [s[0]] + DigitPrefix(s[1..], base) else []
  }

  /** The unsigned part of `parseInt`: "0x" or "0X" selects hexadecimal, then the longest run of digits. */
  function ParseMagnitude(rest: string): Option<nat> {
    if |rest| >= 2 && rest[0] == '0' && (rest[1] == 'x' || rest[1] == 'X') then ReadDigits(rest[2..], 16)
    else ReadDigits(rest, 10)
  }

  /** The value of the leading digits of `s`, or None when there are none. */
  function ReadDigits(s: string, base: nat): Option<nat>
    requires 2 <= base <= 36
  {
    var digits := DigitPrefix(s, base);
    if digits == [] then None else Some(NumeralValue(digits, base))
  }

  /** A numeral followed by a non-digit reads back as its value. */
  lemma ReadNumeral(m: nat, tail: string, base: nat)
    requires 2 <= base <= 36
    requires tail == [] || !IsDigitIn(tail[0], base)
    ensures ReadDigits(Numeral(m, base) + tail, base) == Some(m)
  {
    NumeralRoundTrip(m, base);
    DigitPrefixOfDigits(Numeral(m, base), tail, base);
  }

  /**
   * `parseInt(s)` with no radix: leading white space skipped, an optional
   * sign, then the magnitude; None stands for NaN.
   */
  function ParseInt(s: string): Option<int> {
    ParseSigned(Forms.TrimStart(s))
  }

  /** An optional sign, then the magnitude. */
  function ParseSigned(t: string): Option<int> {
    var negative := |t| > 0 && t[0] == '-';
    var rest := if |t| > 0 && (t[0] == '-' || t[0] == '+') then t[1..] else t;
    match ParseMagnitude(rest)
    case None => None
    case Some(m) => Some(if negative then -(m as int) else m as int)
  }

  lemma {:induction false} DigitPrefixOfDigits(a: string, b: string, base: nat)
    requires forall i :: 0 <= i < |a| ==> IsDigitIn(a[i], base)
    requires b == [] || !IsDigitIn(b[0], base)
    ensures DigitPrefix(a + b, base) == a
    decreases |a|
  {
    if a == [] {
      assert a + b == b;
    } else {
      assert (a + b)[1..] == a[1..] + b;
      DigitPrefixOfDigits(a[1..], b, base);
    }
  }

  /** What may follow a decimal numeral without changing what `parseInt` reads: not a digit, and not an "x" that turns "0" into a hexadecimal prefix. */
  predicate EndsNumber(tail: string) {
    tail == [] || (!IsDigitIn(tail[0], 10) && tail[0] != 'x' && tail[0] != 'X')
  }

  /** A decimal numeral followed by a non-digit reads back as its value. */
  lemma MagnitudeOfNumeral(m: nat, tail: string)
    requires EndsNumber(tail)
    ensures ParseMagnitude(Numeral(m, 10) + tail) == Some(m)
  {
    var digits := Numeral(m, 10);
    var rest := digits + tail;
    ReadNumeral(m, tail, 10);
    assert rest[0] == digits[0];
    if |rest| >= 2 && rest[0] == '0' {
      assert |digits| == 1;
      assert rest[1] == tail[0];
    }
  }

  lemma TrimStartOfNonSpace(s: string)
    requires s != [] && !IsWhitespace(s[0])
    ensures ParseInt(s) == ParseSigned(s)
  {
    assert Forms.LeadingSpace(s) == 0;
  }

  lemma ParseIntNatural(m: nat, tail: string)
    requires EndsNumber(tail)
    ensures ParseInt(Numeral(m, 10) + tail) == Some(m)
  {
    var s := Numeral(m, 10) + tail;
    assert s[0] == Numeral(m, 10)[0];
    TrimStartOfNonSpace(s);
    MagnitudeOfNumeral(m, tail);
  }

  /** A minus sign in front of a magnitude negates it. */
  lemma ParseIntMinus(body: string)
    ensures ParseMagnitude(body).Some? ==> ParseInt("-" + body) == Some(-(ParseMagnitude(body).value as int))
  {
    var s := "-" + body;
    assert s[0] == '-' && s[1..] == body;
    TrimStartOfNonSpace(s);
  }

  lemma ParseIntNegative(m: nat, tail: string)
    requires EndsNumber(tail)
    ensures ParseInt("-" + Numeral(m, 10) + tail) == Some(-(m as int))
  {
    var digits := Numeral(m, 10);
    var body := digits + tail;
    ConcatAssoc("-", digits, tail);
    MagnitudeOfNumeral(m, tail);
    ParseIntMinus(body);
  }

  /**
   * `parseInt` reads back the decimal numeral of any integer, and ignores
   * whatever follows the digits.
   */
  lemma ParseIntDecimal(n: int, tail: string)
    requires EndsNumber(tail)
    ensures ParseInt(IntToDecimal(n) + tail) == Some(n)
  {
    if n >= 0 {
      ParseIntNatural(n, tail);
    } else {
      ParseIntNegative(-n, tail);
    }
  }

  lemma HexPrefix(rest: string)
    requires |rest| >= 2 && rest[0] == '0' && rest[1] == 'x'
    ensures ParseMagnitude(rest) == ReadDigits(rest[2..], 16)
  {
  }

  /** After "0x" or "0X" the digits are read in base 16. */
  lemma MagnitudeOfHex(m: nat, tail: string)
    requires tail == [] || !IsDigitIn(tail[0], 16)
    ensures ParseMagnitude("0x" + Numeral(m, 16) + tail) == Some(m)
  {
    var body := Numeral(m, 16) + tail;
    var rest := "0x" + body;
    assert "0x" + Numeral(m, 16) + tail == rest;
    assert rest[2..] == body;
    HexPrefix(rest);
    ReadNumeral(m, tail, 16);
  }

  /** A text with no digit after its leading white space and optional sign is NaN. */
  lemma ParseIntNoDigit(s: string)
    requires var t := Forms.TrimStart(s);
      var rest := if |t| > 0 && (t[0] == '-' || t[0] == '+') then t[1..] else t;
      rest == [] || !IsDigitIn(rest[0], 10)
    ensures ParseInt(s) == None
  {
    var t := Forms.TrimStart(s);
    var rest := if |t| > 0 && (t[0] == '-' || t[0] == '+') then t[1..] else t;
    assert DigitPrefix(rest, 10) == [];
  }

  /** The empty text and a lone sign are NaN. */
  lemma ParseIntEmpty()
    ensures ParseInt("") == None && ParseInt("-") == None && ParseInt(" +") == None
  {
    ParseIntNoDigit("");
    ParseIntNoDigit("-");
    assert Forms.TrimStart(" +") == "+" by {
      assert IsWhitespace(" +"[0]) && !IsWhitespace(" +"[1]);
      assert Forms.LeadingSpace(" +"[1..]) == 0;
    }
    ParseIntNoDigit(" +");
  }

  // ---------------------------------------------------------------------------
  // Payment data

  /** The submitted form: `formData.get(name)` is None (null) for a missing field. */
  type FormData = map<string, string>

  function FormGet(form: FormData, name: string): Option<string> {
    if name in form then Some(form[name]) else None
  }

  /** A value that is present and not the empty string, as `!value` would test it. */
  predicate Filled(v: Option<string>) {
    v.Some? && v.value != ""
  }

  /** The object `extractPaymentData` returns; None for `amount` is NaN, for a name field null. */
  datatype PaymentData = PaymentData(
    amount: Option<int>,
    certificateType: string,
    buyerName: Option<string>,
    buyerEmail: Option<string>,
    recipientName: Option<string>,
    message: string)

  /** The amount a certificate type stands for when the form gives none. */
  function DefaultAmount(certificateType: Option<string>): Option<int> {
    if certificateType == Some("Evening Makeup") then Some(1500)
    else if certificateType == Some("Makeup Course") then Some(3000)
    else None
  }

  function ExtractPaymentData(form: FormData): (p: PaymentData)
    ensures Filled(FormGet(form, "amount")) ==> p.amount == ParseInt(FormGet(form, "amount").value)
    ensures !Filled(FormGet(form, "amount")) ==> p.amount == DefaultAmount(FormGet(form, "certificate_type"))
    ensures Filled(FormGet(form, "certificate_type")) ==> p.certificateType == form["certificate_type"]
    ensures !Filled(FormGet(form, "certificate_type")) ==> p.certificateType == "Custom"
    ensures Filled(FormGet(form, "message")) ==> p.message == form["message"]
    ensures !Filled(FormGet(form, "message")) ==> p.message == ""
    ensures p.buyerName == FormGet(form, "buyer_name") && p.buyerEmail == FormGet(form, "buyer_email")
    ensures p.recipientName == FormGet(form, "recipient_name")
  {
    var raw := FormGet(form, "amount");
    var certificateType := FormGet(form, "certificate_type");
    var message := FormGet(form, "message");
    var amount :=
      if Filled(raw) then ParseInt(raw.value)
      else if certificateType == Some("Evening Makeup") then (ParseIntDecimal(1500, ""); assert IntToDecimal(1500) + "" == IntToDecimal(1500); ParseInt(IntToDecimal(1500)))
      else if certificateType == Some("Makeup Course") then (ParseIntDecimal(3000, ""); assert IntToDecimal(3000) + "" == IntToDecimal(3000); ParseInt(IntToDecimal(3000)))
      else None;
    PaymentData(
      amount,
      if Filled(certificateType) then certificateType.value else "Custom",
      FormGet(form, "buyer_name"),
      FormGet(form, "buyer_email"),
      FormGet(form, "recipient_name"),
      if Filled(message) then message.value else "")
  }

  /** The fixed-price certificates are priced without an amount field. */
  lemma FixedPriceCertificates(form: FormData)
    requires !Filled(FormGet(form, "amount"))
    ensures FormGet(form, "certificate_type") == Some("Evening Makeup") ==> ExtractPaymentData(form).amount == Some(1500)
    ensures FormGet(form, "certificate_type") == Some("Makeup Course") ==> ExtractPaymentData(form).amount == Some(3000)
    ensures ExtractPaymentData(form).amount.Some? <==>
      FormGet(form, "certificate_type") == Some("Evening Makeup") || FormGet(form, "certificate_type") == Some("Makeup Course")
  {
  }

  /** An amount typed into the form wins over the certificate type's price. */
  lemma TypedAmountWins(form: FormData, n: int)
    requires FormGet(form, "amount") == Some(IntToDecimal(n))
    ensures ExtractPaymentData(form).amount == Some(n)
  {
    ParseIntDecimal(n, "");
    assert IntToDecimal(n) + "" == IntToDecimal(n);
  }

  // ---------------------------------------------------------------------------
  // The payment handler

  /** `!paymentData.amount || paymentData.amount < 1`. */
  predicate ClientRejects(amount: Option<int>) {
    amount.None? || amount.value == 0 || amount.value < 1
  }

  lemma ClientRejectsIff(amount: Option<int>)
    ensures ClientRejects(amount) <==> amount.None? || amount.value < 1
  {
  }

  /** What the `fetch` to the initiate endpoint produced. */
  datatype ServerAnswer =
    | Answer(ok: bool, error: Option<string>, orderId: Option<string>, vippsUrl: Option<string>)
    | FetchFailed(message: string)

  datatype Outcome =
    | NotSubmitted                    // the browser's own validation refused the form
    | PaymentFailed(message: string)  // the alert after an error
    | Redirected(url: string)         // `window.location.href` set to the checkout page

  /** The outcome, whether the initiate request was sent, and session storage afterwards. */
  datatype Handled = Handled(outcome: Outcome, requested: bool, session: map<string, string>)

  const OrderIdKey: string := "vipps_order_id"

  /** `handleVippsPayment` on a form that is valid or not, given the server's answer if asked. */
  function HandlePayment(formValid: bool, form: FormData, answer: ServerAnswer, session: map<string, string>): (h: Handled)
    ensures !formValid ==> h == Handled(NotSubmitted, false, session)
    ensures h.requested <==> formValid && !ClientRejects(ExtractPaymentData(form).amount)
    ensures h.outcome.Redirected? <==> h.requested && answer.Answer? && answer.ok && Filled(answer.vippsUrl)
    ensures h.outcome.Redirected? ==>
      && h.outcome.url == answer.vippsUrl.value
      && h.session == session[OrderIdKey := answer.orderId.GetOr("undefined")]
    ensures !h.outcome.Redirected? ==> h.session == session
    ensures formValid && !h.requested ==> h.outcome == PaymentFailed("Please enter a valid amount")
  {
    if !formValid then Handled(NotSubmitted, false, session)
    else
      var data := ExtractPaymentData(form);
      if data.amount.None? || data.amount.value == 0 || data.amount.value < 1 then
        Handled(PaymentFailed("Please enter a valid amount"), false, session)
      else
        match answer
        case FetchFailed(message) => Handled(PaymentFailed(message), true, session)
        case Answer(ok, error, orderId, vippsUrl) =>
          if !ok then
            Handled(PaymentFailed(if Filled(error) then error.value else "Failed to initiate payment"), true, session)
          else if Filled(vippsUrl) then
            Handled(Redirected(vippsUrl.value), true, session[OrderIdKey := orderId.GetOr("undefined")])
          else
            Handled(PaymentFailed("No payment URL received"), true, session)
  }

  /** A server error is reported with the server's own message, or a fixed one when it has none. */
  lemma ServerErrorMessage(form: FormData, error: Option<string>, orderId: Option<string>, url: Option<string>, session: map<string, string>)
    requires !ClientRejects(ExtractPaymentData(form).amount)
    ensures HandlePayment(true, form, Answer(false, error, orderId, url), session).outcome
      == PaymentFailed(if Filled(error) then error.value else "Failed to initiate payment")
  {
  }

  /** An accepted answer without a checkout URL is an error, and nothing is stored. */
  lemma NoUrlNoRedirect(form: FormData, orderId: Option<string>, url: Option<string>, session: map<string, string>)
    requires !ClientRejects(ExtractPaymentData(form).amount) && !Filled(url)
    ensures HandlePayment(true, form, Answer(true, None, orderId, url), session)
      == Handled(PaymentFailed("No payment URL received"), true, session)
  {
  }

  // ---------------------------------------------------------------------------
  // The two amount checks side by side

  /** Every amount the server accepts passes the browser's check. */
  lemma ServerAcceptedPassesClient(amount: Option<int>)
    requires !VippsServer.AmountRejected(amount)
    ensures !ClientRejects(amount)
  {
  }

  /**
   * Amounts from 1 to 99 pass the browser's check, so a request is sent, and
   * are then refused by the server with 400.
   */
  lemma ClientServerGap(form: FormData, n: int)
    requires 1 <= n < 100
    requires FormGet(form, "amount") == Some(IntToDecimal(n))
    ensures !ClientRejects(ExtractPaymentData(form).amount)
    ensures VippsServer.AmountRejected(ExtractPaymentData(form).amount)
    ensures VippsServer.InitiateReply(ExtractPaymentData(form).amount, "", VippsServer.AuthError, VippsServer.ProviderFailed).status == 400
  {
    TypedAmountWins(form, n);
  }

  /** A fixed-price certificate clears both checks and is charged its price times 100 in the provider's unit. */
  lemma FixedPriceCharged(form: FormData, appUrl: string, msn: string, orderId: string)
    requires !Filled(FormGet(form, "amount"))
    requires FormGet(form, "certificate_type") == Some("Evening Makeup")
    ensures var p := ExtractPaymentData(form);
      && !ClientRejects(p.amount) && !VippsServer.AmountRejected(p.amount)
      && VippsServer.BuildPaymentRequest(appUrl, msn, orderId, p.amount.value, Some(p.certificateType)).amount == 150000
  {
  }
}
