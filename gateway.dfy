/**
 * How the plugin reads the Kinesis gateway's answers: the payment-creation answer of
 * `_process` (kinesis-pay.php:142-167), the status answer of the poll (lines 303-314),
 * the confirmation answer of `approvePayment` (lines 476-491) and the order-book answer of
 * `getExchangeRate` (lines 450-467). Each is a function of the HTTP status and body.
 */
module Gateway {
  import opened Php
  import opened Outcomes
  import opened Signer

  /** Invoice data keys. */
  const PaymentIdKey := "kinesis-pay-payment_id"
  const AmountPaidKey := "kinesis-pay-amount_paid"

  /** API paths. */
  const CreatePath := "/api/merchants/payment"
  const StatusPathPrefix := "/api/merchants/payment/id/sdk/"
  const ConfirmPath := "/api/merchants/payment/confirm"
  const OrderbookPathPrefix := "/api/v1/exchange/coin-market-cap/orderbook/"

  /** Error texts. */
  const GenericCreateError := "Failed to connect to Kinesis. Please try later."
  const MissingPaymentIdError := "Failed to create Kinesis payment id"
  const StdClassToStringError := "Object of class stdClass could not be converted to string"
  const StatusErrorPrefix := "Unable to get payment status: "
  const ConfirmErrorPrefix := "Unable to confirm payment. "
  const NotApprovedPrefix := "Payment not approved. "

  /** `in_array($status, [200, 201])`. */
  predicate IsSuccessStatus(status: int) {
    status == 200 || status == 201
  }

  /** `4 === (int) floor($status / 100)`: the 4xx class. */
  function IsClientError(status: int): (b: bool)
    ensures b <==> 400 <= status <= 499
  {
    status / 100 == 4
  }

  function CreateParams(merchantId: string, amount: string): Params {
    [("globalMerchantId", JStr(merchantId)), ("amount", JStr(amount))]
  }

  function ConfirmParams(paymentId: Json, orderId: string): Params {
    [("globalPaymentId", paymentId), ("orderId", JStr(orderId))]
  }

  /**
   * `(string) $v` for a value decoded into objects: `stdClass` cannot be converted and
   * raises an engine error; every other value converts as it does when decoded into arrays.
   */
  function ObjectModeText(j: Json): (r: Result<string>)
    ensures r.Failure? <==> j.JObj?
    ensures r.Failure? ==> r.error == PhpError(StdClassToStringError)
    ensures r.Success? ==> r.value == ToText(j)
  {
    if j.JObj? then Failure(PhpError(StdClassToStringError)) else Success(ToText(j))
  }

  /**
   * The error text of a 4xx creation answer (lines 148-155): the raw body, unless it decodes
   * to a PHP-true value, in which case it is that value's `message` property, read as null
   * from anything that is not an object or has no such property.
   */
  function ClientErrorText(decode: string -> Json, body: string): (r: Result<string>)
    ensures !TruthyAsObject(decode(body)) ==> r == Success(body)
    ensures decode(body).JObj? && "message" in decode(body).fields ==>
              r == ObjectModeText(decode(body).fields["message"])
    ensures TruthyAsObject(decode(body)) && !(decode(body).JObj? && "message" in decode(body).fields) ==>
              r == Success("")
  {
    var obj := decode(body);
    if !TruthyAsObject(obj) then Success(body)
    else if obj.JObj? && "message" in obj.fields then ObjectModeText(obj.fields["message"])
    else Success("")
  }

  /**
   * The creation answer (lines 143-166): the payment id in a 200/201 answer when it is PHP-true,
   * the extracted text of a 4xx answer, and otherwise the fixed generic or missing-id error.
   */
  function ClassifyCreate(decode: string -> Json, resp: Response): (r: Result<Json>)
    ensures r.Success? <==>
              IsSuccessStatus(resp.status) && Truthy(Field(decode(resp.body), "globalPaymentId"))
    ensures r.Success? ==> r.value == Field(decode(resp.body), "globalPaymentId")
    ensures !IsSuccessStatus(resp.status) && 400 <= resp.status <= 499 ==>
              r == match ClientErrorText(decode, resp.body)
                   case Success(text) => Failure(InputError(text))
                   case Failure(e) => Failure(e)
    ensures !IsSuccessStatus(resp.status) && !(400 <= resp.status <= 499) ==>
              r == Failure(InputError(GenericCreateError))
    ensures IsSuccessStatus(resp.status) && r.Failure? ==> r.error == InputError(MissingPaymentIdError)
    ensures r.Failure? ==> r.error.InputError? || r.error.PhpError?
  {
    if !IsSuccessStatus(resp.status) then
      if IsClientError(resp.status) then
        match ClientErrorText(decode, resp.body)
        case Success(text) => Failure(InputError(text))
        case Failure(e) => Failure(e)
      else
        Failure(InputError(GenericCreateError))
    else
      var gpid := Field(decode(resp.body), "globalPaymentId");
      if !Truthy(gpid) then Failure(InputError(MissingPaymentIdError)) else Success(gpid)
  }

  /** A JSON `{"message": t}` body and a plain-text body `t` give the payer the same error text `t`. */
  lemma ClientErrorPassthrough(decode: string -> Json, jsonBody: string, text: string, status: int)
    requires 400 <= status <= 499
    requires decode(jsonBody) == JObj(map["message" := JStr(text)])
    requires decode(text) == JNull
    ensures ClassifyCreate(decode, Response(status, jsonBody)) == Failure(InputError(text))
    ensures ClassifyCreate(decode, Response(status, text)) == Failure(InputError(text))
  {
  }

  /**
   * A 4xx body that is valid JSON but not an object, such as `42` or `"too small"`, is PHP-true,
   * so its `message` property is read as null and the payer is shown an empty message.
   */
  lemma ScalarJsonClientErrorIsEmpty(decode: string -> Json, body: string, status: int)
    requires 400 <= status <= 499
    requires Truthy(decode(body)) && !decode(body).JObj?
    ensures ClassifyCreate(decode, Response(status, body)) == Failure(InputError(""))
  {
  }

  /** The poll's status answer (lines 304-313): the decoded body of a 200/201 answer. */
  function ClassifyStatus(decode: string -> Json, resp: Response): (r: Result<Json>)
    ensures r.Success? <==> IsSuccessStatus(resp.status)
    ensures r.Success? ==> r.value == decode(resp.body)
    ensures r.Failure? ==> r.error == InternalError(StatusErrorPrefix + resp.body)
  {
    if !IsSuccessStatus(resp.status) then Failure(InternalError(StatusErrorPrefix + resp.body))
    else Success(decode(resp.body))
  }

  /** `'processed' === $body['status']` (line 314): a strict comparison. */
  predicate IsProcessed(body: Json) {
    Field(body, "status") == JStr("processed")
  }

  /**
   * The amount text stored on confirmation (lines 489-491): the KAU amount when the currency
   * loosely equals "KAU", the KAG amount otherwise, then a space and the currency.
   */
  function AmountPaidText(body: Json): (t: string)
    ensures Field(body, "paymentCurrency") == JStr("KAU") ==>
              t == ToText(Field(body, "paymentKauAmount")) + " KAU"
    ensures Field(body, "paymentCurrency") != JStr("KAU") && Field(body, "paymentCurrency") != JBool(true) ==>
              t == ToText(Field(body, "paymentKagAmount")) + " " + ToText(Field(body, "paymentCurrency"))
  {
    var currency := Field(body, "paymentCurrency");
    var amount := if LooseEqualsWord(currency, "KAU") then Field(body, "paymentKauAmount")
                  else Field(body, "paymentKagAmount");
    ToText(amount) + " " + ToText(currency)
  }

  /** A currency given as `true` loosely equals "KAU": the KAU amount is stored, followed by "1". */
  lemma TrueCurrencyReadsAsKau(body: Json)
    requires Field(body, "paymentCurrency") == JBool(true)
    ensures AmountPaidText(body) == ToText(Field(body, "paymentKauAmount")) + " 1"
  {
  }

  /**
   * The confirmation answer (lines 477-491): the amount text when the answer is 200/201 and
   * its status loosely equals "processed"; otherwise an internal error quoting the body.
   */
  function ClassifyConfirm(decode: string -> Json, resp: Response): (r: Result<string>)
    ensures r.Success? <==>
              IsSuccessStatus(resp.status) && LooseEqualsWord(Field(decode(resp.body), "status"), "processed")
    ensures r.Success? ==> r.value == AmountPaidText(decode(resp.body))
    ensures !IsSuccessStatus(resp.status) ==> r == Failure(InternalError(ConfirmErrorPrefix + resp.body))
    ensures IsSuccessStatus(resp.status) && r.Failure? ==>
              r == Failure(InternalError(NotApprovedPrefix + resp.body))
  {
    if !IsSuccessStatus(resp.status) then Failure(InternalError(ConfirmErrorPrefix + resp.body))
    else
      var body := decode(resp.body);
      if !LooseEqualsWord(Field(body, "status"), "processed") then
        Failure(InternalError(NotApprovedPrefix + resp.body))
      else
        Success(AmountPaidText(body))
  }

  /** Confirmation accepts exactly the answers whose status is "processed" or the boolean `true`. */
  lemma ConfirmAcceptedStatuses(decode: string -> Json, resp: Response)
    requires IsSuccessStatus(resp.status)
    ensures ClassifyConfirm(decode, resp).Success? <==>
              Field(decode(resp.body), "status") in {JStr("processed"), JBool(true)}
  {
  }

  function CurrencyPair(crypto: string, base: string): string {
    crypto + "_" + base
  }

  function OrderbookPath(pair: string): string {
    OrderbookPathPrefix + pair + "?level=1"
  }

  /**
   * The order-book answer (lines 459-466): the first bid of a 200/201 answer. A body that decodes
   * to a string raises when `$body['bids']` is read.
   */
  function ClassifyExchangeRate(decode: string -> Json, pair: string, resp: Response): (r: Result<Json>)
    ensures r.Success? <==> IsSuccessStatus(resp.status) && !decode(resp.body).JStr?
    ensures var bids := Field(decode(resp.body), "bids");
              r.Success? && bids.JList? && |bids.items| > 0 ==> r.value == bids.items[0]
    ensures var bids := Field(decode(resp.body), "bids");
              r.Success? && (bids.JNull? || bids.JBool? || bids.JNum?) ==> r.value == JNull
    ensures var bids := Field(decode(resp.body), "bids");
              r.Success? && bids.JList? && |bids.items| == 0 ==> r.value == JNull
    ensures var bids := Field(decode(resp.body), "bids");
              r.Success? && bids.JObj? ==> r.value == (if "0" in bids.fields then bids.fields["0"] else JNull)
    ensures var bids := Field(decode(resp.body), "bids");
              r.Success? && bids.JStr? ==> r.value == JStr(if |bids.s| > 0 then [bids.s[0]] else "")
    ensures !IsSuccessStatus(resp.status) ==>
              r == Failure(InternalError("Failed to get the " + pair + " exchange rate: " + resp.body))
    ensures IsSuccessStatus(resp.status) && decode(resp.body).JStr? ==> r == Failure(PhpError(StringOffsetError))
  {
    if !IsSuccessStatus(resp.status) then
      Failure(InternalError("Failed to get the " + pair + " exchange rate: " + resp.body))
    else
      match Offset(decode(resp.body), "bids")
      case Failure(e) => Failure(e)
      case Success(bids) => Success(Index0(bids))
  }
}
