/**
 * The plugin's state changes, stated as functions from the state before to the state after:
 * `_sendRequest` (kinesis-pay.php:392-448), the payment creation of `_process` (lines
 * 133-167), `approvePayment` (lines 469-492), `getExchangeRate` (lines 450-467) and the
 * `status` branch of `directAction` (lines 280-343), which is the reconciliation step run
 * on every poll. The class in module Plugin performs them in place and is proved to agree.
 *
 * There is no local payment status: every poll that sees "processed" runs the host's
 * transaction processing and confirms the payment again. Only the ledger's
 * record-if-absent rule keeps the payment from being recorded twice.
 */
module Reconciler {
  import opened Php
  import opened Outcomes
  import opened Signer
  import opened Gateway
  import opened Transaction

  const InvalidLinkError := "Invalid link"
  const NullDataCallError := "Call to a member function data() on null"
  const CreateLogTitle := "GET PAYMENT ID"
  const ConfirmLogTitle := "CONFIRM PAYMENT"

  /** What the core reads but never changes: settings, foreign functions, and the host's secure-id lookup. */
  datatype Env = Env(config: Config, prim: Primitives, invoices: map<string, string>)

  /** What the core changes: invoice data by public id, the ledger, the invoice log and the requests sent. */
  datatype Store = Store(
    invoiceData: map<string, map<string, Json>>,
    ledger: Ledger,
    logs: seq<LogRecord>,
    sent: seq<Request>)

  /** The state after an operation, with its result or the exception it raised. */
  datatype Step<+T> = Step(store: Store, result: Result<T>)

  function DataOf(s: Store, invoice: string): map<string, Json> {
    if invoice in s.invoiceData then s.invoiceData[invoice] else map[]
  }

  /** `$invoice->data()->set($key, $value)->update()`. */
  function SetData(s: Store, invoice: string, key: string, value: Json): Store {
    s.(invoiceData := s.invoiceData[invoice := DataOf(s, invoice)[key := value]])
  }

  /** `$invoiceLog->add($entry)` on the record at position `i` of the log. */
  function AddToLog(s: Store, i: nat, entry: LogEntry): Store {
    if i < |s.logs| then s.(logs := s.logs[i := s.logs[i].(entries := s.logs[i].entries + [entry])]) else s
  }

  /** `$invoiceLog->setProcessed()` on the record at position `i`. */
  function MarkProcessed(s: Store, i: nat): Store {
    if i < |s.logs| then s.(logs := s.logs[i := s.logs[i].(processed := true)]) else s
  }

  /** `_sendRequest($path, $params, $logTitle, $verb, $logInvoice)` answered by `resp`. */
  function SendStep(env: Env, s: Store, path: string, params: Option<Params>, logTitle: string,
                    verb: string, logInvoice: Option<string>, unixTime: nat, resp: Response): (r: Store)
    ensures var req := BuildRequest(env.prim, env.config, unixTime, verb, path, params);
      && r.sent == s.sent + [req]
      && r.logs == s.logs + RequestLogs(env.config, logTitle, logInvoice, req, resp)
    ensures r.invoiceData == s.invoiceData && r.ledger == s.ledger
  {
    var req := BuildRequest(env.prim, env.config, unixTime, verb, path, params);
    s.(sent := s.sent + [req], logs := s.logs + RequestLogs(env.config, logTitle, logInvoice, req, resp))
  }

  /**
   * Payment creation (lines 133-167), for the adjusted amount text: the payment id is stored on
   * the invoice exactly when creation succeeds, and nothing else on any invoice changes.
   */
  function CreateStep(env: Env, s: Store, invoice: string, amount: string, unixTime: nat, resp: Response)
    : (r: Step<Json>)
    ensures var req := BuildRequest(env.prim, env.config, unixTime, "POST", CreatePath,
                                    Some(CreateParams(env.config.merchantId, amount)));
      && r.store.sent == s.sent + [req]
      && r.store.logs == s.logs + RequestLogs(env.config, CreateLogTitle, Some(invoice), req, resp)
    ensures r.store.ledger == s.ledger
    ensures r.result == ClassifyCreate(env.prim.jsonDecode, resp)
    ensures r.result.Failure? ==> r.store.invoiceData == s.invoiceData
    ensures r.result.Success? ==> DataGet(DataOf(r.store, invoice), PaymentIdKey) == r.result.value
    ensures forall other :: other != invoice ==> DataOf(r.store, other) == DataOf(s, other)
    ensures forall k :: k != PaymentIdKey ==> DataGet(DataOf(r.store, invoice), k) == DataGet(DataOf(s, invoice), k)
  {
    var s1 := SendStep(env, s, CreatePath, Some(CreateParams(env.config.merchantId, amount)),
                       CreateLogTitle, "POST", Some(invoice), unixTime, resp);
    match ClassifyCreate(env.prim.jsonDecode, resp)
    case Failure(e) => Step(s1, Failure(e))
    case Success(gpid) => Step(SetData(s1, invoice, PaymentIdKey, gpid), Success(gpid))
  }

  /**
   * `approvePayment($paymentId, $invoice)` (lines 469-492): the confirmation request is sent, and
   * the amount paid is stored exactly when the gateway confirms; nothing else changes on any invoice.
   */
  function ApproveStep(env: Env, s: Store, paymentId: Json, invoice: string, unixTime: nat, resp: Response)
    : (r: Step<()>)
    ensures var req := BuildRequest(env.prim, env.config, unixTime, "POST", ConfirmPath,
                                    Some(ConfirmParams(paymentId, invoice)));
      && r.store.sent == s.sent + [req]
      && r.store.logs == s.logs + RequestLogs(env.config, ConfirmLogTitle, Some(invoice), req, resp)
    ensures r.store.ledger == s.ledger
    ensures r.result.Success? <==> ClassifyConfirm(env.prim.jsonDecode, resp).Success?
    ensures r.result.Failure? ==> r.result.error == ClassifyConfirm(env.prim.jsonDecode, resp).error
    ensures r.result.Failure? ==> r.store.invoiceData == s.invoiceData
    ensures r.result.Success? ==>
              DataGet(DataOf(r.store, invoice), AmountPaidKey) == JStr(ClassifyConfirm(env.prim.jsonDecode, resp).value)
    ensures forall other :: other != invoice ==> DataOf(r.store, other) == DataOf(s, other)
    ensures forall k :: k != AmountPaidKey ==> DataGet(DataOf(r.store, invoice), k) == DataGet(DataOf(s, invoice), k)
  {
    var s1 := SendStep(env, s, ConfirmPath, Some(ConfirmParams(paymentId, invoice)),
                       ConfirmLogTitle, "POST", Some(invoice), unixTime, resp);
    match ClassifyConfirm(env.prim.jsonDecode, resp)
    case Failure(e) => Step(s1, Failure(e))
    case Success(paid) => Step(SetData(s1, invoice, AmountPaidKey, JStr(paid)), Success(()))
  }

  /** `getExchangeRate($crypto, $base)` (lines 450-467): one logged GET, no invoice data written. */
  function ExchangeRateStep(env: Env, s: Store, crypto: string, base: string, logInvoice: Option<string>,
                            unixTime: nat, resp: Response): (r: Step<Json>)
    ensures var pair := CurrencyPair(crypto, base);
      var req := BuildRequest(env.prim, env.config, unixTime, "GET", OrderbookPath(pair), None);
      && r.store.sent == s.sent + [req]
      && r.store.logs == s.logs + RequestLogs(env.config, "GET " + pair + " XRATE", logInvoice, req, resp)
      && r.result == ClassifyExchangeRate(env.prim.jsonDecode, pair, resp)
    ensures r.store.invoiceData == s.invoiceData && r.store.ledger == s.ledger
  {
    var pair := CurrencyPair(crypto, base);
    var s1 := SendStep(env, s, OrderbookPath(pair), None, "GET " + pair + " XRATE", "GET", logInvoice, unixTime, resp);
    Step(s1, ClassifyExchangeRate(env.prim.jsonDecode, pair, resp))
  }

  // ---------------------------------------------------------------- the poll

  /**
   * Lines 284-291 as written: `$this->invoice->data()` is evaluated before `if (!$this->invoice)`,
   * so an unknown secure id raises PHP's null-call error and the "Invalid link" error is never raised.
   */
  function ResolveAsWritten(invoices: map<string, string>, secureId: string): (r: Result<string>)
    ensures r.Success? <==> secureId in invoices
    ensures r.Success? ==> r.value == invoices[secureId]
    ensures r.Failure? ==> r.error == PhpError(NullDataCallError)
  {
    if secureId in invoices then Success(invoices[secureId]) else Failure(PhpError(NullDataCallError))
  }

  /** The as-written lookup never produces the input error its guard was written for. */
  lemma InvalidLinkUnreachableAsWritten(invoices: map<string, string>, secureId: string)
    ensures ResolveAsWritten(invoices, secureId) != Failure(InputError(InvalidLinkError))
  {
  }

  /** The lookup with the guard first, as the code evidently intends; the poll uses this one. */
  function ResolveInvoice(invoices: map<string, string>, secureId: string): (r: Result<string>)
    ensures r.Success? <==> secureId in invoices
    ensures r.Success? ==> r.value == invoices[secureId]
    ensures r.Failure? ==> r.error == InputError(InvalidLinkError)
  {
    if secureId !in invoices then Failure(InputError(InvalidLinkError)) else Success(invoices[secureId])
  }

  /** Both lookups fail on exactly the same ids, and agree on the invoice when they succeed. */
  lemma ResolveAgreesOnKnownIds(invoices: map<string, string>, secureId: string)
    ensures ResolveAsWritten(invoices, secureId).Success? == ResolveInvoice(invoices, secureId).Success?
    ensures ResolveInvoice(invoices, secureId).Success? ==>
              ResolveAsWritten(invoices, secureId) == ResolveInvoice(invoices, secureId)
  {
  }

  /** The status call's log title (line 294): only every tenth poll is logged. */
  function PollLogTitle(pcount: int, txnId: Json): (t: string)
    ensures TruthyString(t) <==> pcount % 10 == 0
  {
    // PHP's `%` truncates and Dafny's does not, but both are zero exactly on multiples of 10.
    if pcount % 10 == 0 then "POLL STATUS #" + IntString(pcount) + ": " + ToText(txnId) else ""
  }

  function StatusPath(txnId: Json): string {
    StatusPathPrefix + ToText(txnId)
  }

  /** The record `_logDirectAction` opens for the incoming poll. */
  function DirectActionLogRecord(config: Config, invoice: string, secureId: string, pcount: int, resp: Response)
    : LogRecord
  {
    LogRecord(DirectActionLog, "", Some(invoice), config.disablePostbackLog, [],
              [IncomingPoll(secureId, pcount), ReceivedResponse(resp)], false)
  }

  /**
   * `$transaction->process()`, as assumed of the host: the source, invoice, status and terms
   * checks in turn (the status check notes the answer on the transaction's log), then the
   * payment is recorded under the invoice's unique id unless that id is already recorded.
   */
  function ProcessTransaction(env: Env, s: Store, logIndex: nat, secureId: string, statusResp: Response)
    : (r: Step<()>)
    ensures r.store.invoiceData == s.invoiceData && r.store.sent == s.sent
    ensures |r.store.logs| == |s.logs|
    ensures forall i :: 0 <= i < |s.logs| && i != logIndex ==> r.store.logs[i] == s.logs[i]
    ensures r.result.Success? <==> secureId in env.invoices && ValidateStatus(env.prim.jsonDecode, statusResp)
    ensures r.result.Success? ==>
              r.store.ledger == RecordIfAbsent(s.ledger, UniqId(DataOf(s, env.invoices[secureId])), env.invoices[secureId])
    ensures r.result.Failure? ==> r.store.ledger == s.ledger
  {
    if !ValidateSource() then Step(s, Failure(TransactionInvalid(SourceCheck)))
    else match FindInvoiceId(env.invoices, secureId)
      case None => Step(s, Failure(TransactionInvalid(InvoiceCheck)))
      case Some(invoice) =>
        var s1 := AddToLog(s, logIndex, Note("KPAY RESPONSE: " + statusResp.body));
        if !ValidateStatus(env.prim.jsonDecode, statusResp) then Step(s1, Failure(TransactionInvalid(StatusCheck)))
        else if !ValidateTerms() then Step(s1, Failure(TransactionInvalid(TermsCheck)))
        else Step(s1.(ledger := RecordIfAbsent(s1.ledger, UniqId(DataOf(s1, invoice)), invoice)), Success(()))
  }

  /**
   * One poll of the `status` action (lines 280-343) with secure id `secureId` and counter `pcount`,
   * answered by `statusResp` and, if a confirmation is sent, by `confirmResp`. On success the
   * result is the decoded status body, which the action echoes back to the caller.
   */
  function PollStep(env: Env, s: Store, secureId: string, pcount: int, statusTime: nat, confirmTime: nat,
                    statusResp: Response, confirmResp: Response): (r: Step<Json>)
    ensures secureId !in env.invoices ==> r.store == s
    ensures r.result.Success? ==> secureId in env.invoices && IsSuccessStatus(statusResp.status)
    ensures r.result.Success? ==> r.result.value == env.prim.jsonDecode(statusResp.body)
    ensures |s.sent| <= |r.store.sent| <= |s.sent| + 2 && r.store.sent[..|s.sent|] == s.sent
    ensures r.store.ledger == s.ledger ||
            (secureId in env.invoices &&
             r.store.ledger == RecordIfAbsent(s.ledger, UniqId(DataOf(s, env.invoices[secureId])), env.invoices[secureId]))
  {
    match ResolveInvoice(env.invoices, secureId)
    case Failure(e) => Step(s, Failure(e))
    case Success(invoice) =>
      var txnId := DataGet(DataOf(s, invoice), PaymentIdKey);
      var s1 := SendStep(env, s, StatusPath(txnId), None, PollLogTitle(pcount, txnId), "GET",
                         Some(invoice), statusTime, statusResp);
      match ClassifyStatus(env.prim.jsonDecode, statusResp)
      case Failure(e) => Step(s1, Failure(e))
      case Success(body) =>
        match Offset(body, "status")
        case Failure(e) => Step(s1, Failure(e))
        case Success(status) =>
        if status != JStr("processed") then Step(s1, Success(body))
        else
          var logIndex := |s1.logs|;
          var s2 := s1.(logs := s1.logs + [DirectActionLogRecord(env.config, invoice, secureId, pcount, statusResp)]);
          var t := ProcessTransaction(env, s2, logIndex, secureId, statusResp);
          if t.result.Failure? then Step(AddToLog(t.store, logIndex, Raised(t.result.error)), Failure(t.result.error))
          else
            var a := ApproveStep(env, t.store, txnId, invoice, confirmTime, confirmResp);
            if a.result.Failure? then Step(AddToLog(a.store, logIndex, Raised(a.result.error)), Failure(a.result.error))
            else Step(MarkProcessed(a.store, logIndex), Success(body))
  }

  // ---------------------------------------------------------------- properties of the poll

  /** A secure id that resolves to no invoice fails with "Invalid link"; nothing is sent, logged or written. */
  lemma PollUnknownInvoiceSendsNothing(env: Env, s: Store, secureId: string, pcount: int, statusTime: nat,
                                       confirmTime: nat, statusResp: Response, confirmResp: Response)
    requires secureId !in env.invoices
    ensures PollStep(env, s, secureId, pcount, statusTime, confirmTime, statusResp, confirmResp)
            == Step(s, Failure(InputError(InvalidLinkError)))
  {
  }

  /**
   * A resolved poll first sends the GET status request for the invoice's stored payment id,
   * and logs it, immediately after the log records already present, exactly on every tenth poll.
   */
  lemma PollSendsStatusRequestFirst(env: Env, s: Store, secureId: string, pcount: int, statusTime: nat,
                                    confirmTime: nat, statusResp: Response, confirmResp: Response)
    requires secureId in env.invoices
    ensures var p := PollStep(env, s, secureId, pcount, statusTime, confirmTime, statusResp, confirmResp);
      var invoice := env.invoices[secureId];
      var txnId := UniqId(DataOf(s, invoice));
      var req := BuildRequest(env.prim, env.config, statusTime, "GET", StatusPath(txnId), None);
      && |p.store.sent| > |s.sent|
      && p.store.sent[..|s.sent| + 1] == s.sent + [req]
      && p.store.logs[..|s.logs|] == s.logs
      && ((|p.store.logs| > |s.logs| && p.store.logs[|s.logs|].kind == RequestLog) <==> pcount % 10 == 0)
      && (pcount % 10 == 0 ==>
            p.store.logs[|s.logs|] == RequestLogs(env.config, PollLogTitle(pcount, txnId), Some(invoice), req, statusResp)[0])
  {
    var invoice := env.invoices[secureId];
    var txnId := UniqId(DataOf(s, invoice));
    var req := BuildRequest(env.prim, env.config, statusTime, "GET", StatusPath(txnId), None);
    var logs := RequestLogs(env.config, PollLogTitle(pcount, txnId), Some(invoice), req, statusResp);
    var p := PollStep(env, s, secureId, pcount, statusTime, confirmTime, statusResp, confirmResp);
    if IsSuccessStatus(statusResp.status) && IsProcessed(env.prim.jsonDecode(statusResp.body)) {
      PollProcessed(env, s, secureId, pcount, statusTime, confirmTime, statusResp, confirmResp);
      PollProcessedLog(env, s, secureId, pcount, statusTime, confirmTime, statusResp, confirmResp);
      var i := |s.logs| + |logs|;
      assert p.store.logs[..i] == s.logs + logs;
      assert p.store.logs[..|s.logs|] == (s.logs + logs)[..|s.logs|];
      if pcount % 10 == 0 {
        assert p.store.logs[|s.logs|] == (s.logs + logs)[|s.logs|];
      }
    } else {
      PollWithoutProcessed(env, s, secureId, pcount, statusTime, confirmTime, statusResp, confirmResp);
      assert p.store.logs == s.logs + logs;
    }
  }

  /**
   * A poll that resolves but does not see a 200/201 "processed" answer sends and logs only the
   * status request and writes nothing else: a non-2xx answer is an internal error quoting the body, a body
   * that decodes to a string raises when its status is read, and any other answer is returned
   * as its decoded body.
   */
  lemma PollWithoutProcessed(env: Env, s: Store, secureId: string, pcount: int, statusTime: nat,
                             confirmTime: nat, statusResp: Response, confirmResp: Response)
    requires secureId in env.invoices
    requires !(IsSuccessStatus(statusResp.status) && IsProcessed(env.prim.jsonDecode(statusResp.body)))
    ensures var p := PollStep(env, s, secureId, pcount, statusTime, confirmTime, statusResp, confirmResp);
      var invoice := env.invoices[secureId];
      var txnId := UniqId(DataOf(s, invoice));
      var req := BuildRequest(env.prim, env.config, statusTime, "GET", StatusPath(txnId), None);
      && p.store.sent == s.sent + [req]
      && p.store.logs == s.logs + RequestLogs(env.config, PollLogTitle(pcount, txnId), Some(invoice), req, statusResp)
      && p.store.invoiceData == s.invoiceData
      && p.store.ledger == s.ledger
      && p.result == (if !IsSuccessStatus(statusResp.status) then Failure(InternalError(StatusErrorPrefix + statusResp.body))
                      else if env.prim.jsonDecode(statusResp.body).JStr? then Failure(PhpError(StringOffsetError))
                      else Success(env.prim.jsonDecode(statusResp.body)))
  {
  }

  /**
   * A poll that sees a 200/201 "processed" answer records the payment under the invoice's
   * payment id unless it is already recorded, then always sends a confirmation. The poll
   * succeeds, returning the decoded status body and storing the amount paid, exactly when the
   * confirmation succeeds; otherwise the confirmation's error is added to the poll's log record
   * and raised, with no invoice data written. The log record is marked processed only on success.
   */
  lemma PollProcessed(env: Env, s: Store, secureId: string, pcount: int, statusTime: nat,
                      confirmTime: nat, statusResp: Response, confirmResp: Response)
    requires secureId in env.invoices
    requires IsSuccessStatus(statusResp.status) && IsProcessed(env.prim.jsonDecode(statusResp.body))
    ensures var p := PollStep(env, s, secureId, pcount, statusTime, confirmTime, statusResp, confirmResp);
      var invoice := env.invoices[secureId];
      var txnId := UniqId(DataOf(s, invoice));
      var confirm := ClassifyConfirm(env.prim.jsonDecode, confirmResp);
      && p.store.ledger == RecordIfAbsent(s.ledger, txnId, invoice)
      && p.store.sent == s.sent + [BuildRequest(env.prim, env.config, statusTime, "GET", StatusPath(txnId), None),
                                   BuildRequest(env.prim, env.config, confirmTime, "POST", ConfirmPath,
                                                Some(ConfirmParams(txnId, invoice)))]
      && (p.result.Success? <==> confirm.Success?)
      && (p.result.Success? ==>
            && p.result.value == env.prim.jsonDecode(statusResp.body)
            && p.store.invoiceData == s.invoiceData[invoice := DataOf(s, invoice)[AmountPaidKey := JStr(confirm.value)]])
      && (p.result.Failure? ==> p.result.error == confirm.error && p.store.invoiceData == s.invoiceData)
  {
  }

  /** The record `_logDirectAction` opened for a processed poll ends with the raised error, or is marked processed. */
  lemma PollProcessedLog(env: Env, s: Store, secureId: string, pcount: int, statusTime: nat,
                         confirmTime: nat, statusResp: Response, confirmResp: Response)
    requires secureId in env.invoices
    requires IsSuccessStatus(statusResp.status) && IsProcessed(env.prim.jsonDecode(statusResp.body))
    ensures var p := PollStep(env, s, secureId, pcount, statusTime, confirmTime, statusResp, confirmResp);
      var i := |s.logs| + (if pcount % 10 == 0 then 1 else 0);
      var statusReq := BuildRequest(env.prim, env.config, statusTime, "GET",
                                    StatusPath(UniqId(DataOf(s, env.invoices[secureId]))), None);
      var openedWith := [IncomingPoll(secureId, pcount), ReceivedResponse(statusResp),
                     Note("KPAY RESPONSE: " + statusResp.body)];
      && i < |p.store.logs|
      && p.store.logs[..i] == s.logs + RequestLogs(env.config, PollLogTitle(pcount, UniqId(DataOf(s, env.invoices[secureId]))),
                                                   Some(env.invoices[secureId]), statusReq, statusResp)
      && p.store.logs[i].kind == DirectActionLog
      && p.store.logs[i].invoice == Some(env.invoices[secureId])
      && (p.store.logs[i].processed <==> p.result.Success?)
      && (p.result.Success? ==> p.store.logs[i].entries == openedWith)
      && (p.result.Failure? ==> p.store.logs[i].entries == openedWith + [Raised(p.result.error)])
  {
    var invoice := env.invoices[secureId];
    var txnId := DataGet(DataOf(s, invoice), PaymentIdKey);
    var s1 := SendStep(env, s, StatusPath(txnId), None, PollLogTitle(pcount, txnId), "GET",
                       Some(invoice), statusTime, statusResp);
    var i := |s1.logs|;
    assert i == |s.logs| + (if pcount % 10 == 0 then 1 else 0);
    var s2 := s1.(logs := s1.logs + [DirectActionLogRecord(env.config, invoice, secureId, pcount, statusResp)]);
    var t := ProcessTransaction(env, s2, i, secureId, statusResp);
    assert t.store.logs[i].entries == [IncomingPoll(secureId, pcount), ReceivedResponse(statusResp),
                                       Note("KPAY RESPONSE: " + statusResp.body)];
    assert t.store.logs[..i] == s1.logs;
    var a := ApproveStep(env, t.store, txnId, invoice, confirmTime, confirmResp);
    assert a.store.logs[i] == t.store.logs[i];
    assert a.store.logs[..i] == s1.logs;
  }

  /** No poll changes the payment id stored on any invoice. */
  lemma PollKeepsPaymentIds(env: Env, s: Store, secureId: string, pcount: int, statusTime: nat,
                            confirmTime: nat, statusResp: Response, confirmResp: Response, invoice: string)
    ensures var p := PollStep(env, s, secureId, pcount, statusTime, confirmTime, statusResp, confirmResp);
      UniqId(DataOf(p.store, invoice)) == UniqId(DataOf(s, invoice))
  {
    if secureId in env.invoices {
      if IsSuccessStatus(statusResp.status) && IsProcessed(env.prim.jsonDecode(statusResp.body)) {
        PollProcessed(env, s, secureId, pcount, statusTime, confirmTime, statusResp, confirmResp);
      } else {
        PollWithoutProcessed(env, s, secureId, pcount, statusTime, confirmTime, statusResp, confirmResp);
      }
    }
  }

  /**
   * Without a local "already processed" guard, a second poll that sees "processed" leaves the
   * ledger as the first left it, but sends a second confirmation for the same payment id; so two
   * such polls put four requests on the wire, two of them confirmations.
   */
  lemma RepeatedProcessedPolls(env: Env, s: Store, secureId: string,
                               pcount1: int, statusTime1: nat, confirmTime1: nat, statusResp1: Response, confirmResp1: Response,
                               pcount2: int, statusTime2: nat, confirmTime2: nat, statusResp2: Response, confirmResp2: Response)
    requires secureId in env.invoices
    requires IsSuccessStatus(statusResp1.status) && IsProcessed(env.prim.jsonDecode(statusResp1.body))
    requires IsSuccessStatus(statusResp2.status) && IsProcessed(env.prim.jsonDecode(statusResp2.body))
    ensures var p1 := PollStep(env, s, secureId, pcount1, statusTime1, confirmTime1, statusResp1, confirmResp1);
      var p2 := PollStep(env, p1.store, secureId, pcount2, statusTime2, confirmTime2, statusResp2, confirmResp2);
      var invoice := env.invoices[secureId];
      var id := UniqId(DataOf(s, invoice));
      && id in p1.store.ledger
      && p2.store.ledger == p1.store.ledger
      && |p2.store.sent| == |s.sent| + 4
      && p2.store.sent[|s.sent| + 1] ==
           BuildRequest(env.prim, env.config, confirmTime1, "POST", ConfirmPath, Some(ConfirmParams(id, invoice)))
      && p2.store.sent[|s.sent| + 3] ==
           BuildRequest(env.prim, env.config, confirmTime2, "POST", ConfirmPath, Some(ConfirmParams(id, invoice)))
  {
    var invoice := env.invoices[secureId];
    var id := UniqId(DataOf(s, invoice));
    var p1 := PollStep(env, s, secureId, pcount1, statusTime1, confirmTime1, statusResp1, confirmResp1);
    PollProcessed(env, s, secureId, pcount1, statusTime1, confirmTime1, statusResp1, confirmResp1);
    PollKeepsPaymentIds(env, s, secureId, pcount1, statusTime1, confirmTime1, statusResp1, confirmResp1, invoice);
    assert UniqId(DataOf(p1.store, invoice)) == id;
    PollProcessed(env, p1.store, secureId, pcount2, statusTime2, confirmTime2, statusResp2, confirmResp2);
  }
}
