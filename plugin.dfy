/**
 * `Am_Paysystem_KinesisPay` (kinesis-pay.php:11-493) as an object whose methods update, in
 * place, the invoice data, the ledger of recorded payments, the invoice log and the list of
 * requests put on the wire. Each gateway answer is a parameter of the method that receives it,
 * and so is the clock. Every method is proved to leave exactly the state, and return exactly
 * the result, that the matching step function of module Reconciler describes.
 */
module Plugin {
  import opened Php
  import opened Outcomes
  import opened Signer
  import opened Gateway
  import opened Transaction
  import opened Reconciler

  class KinesisPay {
    const config: Config
    const prim: Primitives
    /** The host's `findBySecureId`: secure id to public id. */
    const invoices: map<string, string>

    /** Invoice data by public id. */
    var invoiceData: map<string, map<string, Json>>
    var ledger: Ledger
    var logs: seq<LogRecord>
    var sent: seq<Request>

    function Environment(): Env {
      Env(config, prim, invoices)
    }

    function State(): Store
      reads this
    {
      Store(invoiceData, ledger, logs, sent)
    }

    constructor (config: Config, prim: Primitives, invoices: map<string, string>,
                 invoiceData: map<string, map<string, Json>>)
      ensures Environment() == Env(config, prim, invoices)
      ensures State() == Store(invoiceData, map[], [], [])
    {
      this.config := config;
      this.prim := prim;
      this.invoices := invoices;
      this.invoiceData := invoiceData;
      ledger := map[];
      logs := [];
      sent := [];
    }

    /** `_sendRequest` (lines 392-448): sign, build the headers, send, and log when asked to. */
    method SendRequest(path: string, params: Option<Params>, logTitle: string, verb: string,
                       logInvoice: Option<string>, unixTime: nat, resp: Response) returns (r: Response)
      modifies this
      ensures State() == SendStep(Environment(), old(State()), path, params, logTitle, verb, logInvoice, unixTime, resp)
      ensures r == resp
    {
      var nonce := unixTime * 1000;
      var signedBody := if params == None || params == Some([]) then "{}" else prim.jsonEncode(params.value);
      var message := DecimalString(nonce) + verb + path + signedBody;
      var xsig := ToUpper(prim.hmacSha256(message, config.secretToken));

      var headers := [("X-Nonce", DecimalString(nonce)), ("X-Api-Key", config.accessToken),
                      ("X-Signature", xsig), ("Accept", JsonMediaType)];
      if verb != "DELETE" {
        headers := headers + [("Content-Type", JsonMediaType)];
      }

      var body: Option<string> := None;
      if params.Some? {
        body := Some(prim.jsonEncode(params.value));
      }
      var req := Request(verb, ApiBaseUrl + path, headers, body);
      assert req == BuildRequest(prim, config, unixTime, verb, path, params);
      sent := sent + [req];
      r := resp;

      if TruthyString(logTitle) {
        var log := LogRecord(RequestLog, "", None, false, [], [], false);
        if config.disablePostbackLog {
          log := log.(postbackLogDisabled := true);
        }
        if logInvoice.Some? {
          log := log.(invoice := logInvoice);
        }
        log := log.(title := logTitle);
        log := log.(masks := log.masks + [(config.secretToken, SecretMask)]);
        log := log.(entries := log.entries + [SentRequest(req)]);
        log := log.(entries := log.entries + [ReceivedResponse(r)]);
        assert log.masks == [(config.secretToken, SecretMask)];
        assert log.entries == [SentRequest(req), ReceivedResponse(resp)];
        assert [log] == RequestLogs(config, logTitle, logInvoice, req, resp);
        logs := logs + [log];
      } else {
        assert logs == logs + RequestLogs(config, logTitle, logInvoice, req, resp);
      }
    }

    /** The payment-creation part of `_process` (lines 133-167), for the adjusted amount text. */
    method Process(invoice: string, amount: string, unixTime: nat, resp: Response) returns (r: Result<Json>)
      modifies this
      ensures var step := CreateStep(Environment(), old(State()), invoice, amount, unixTime, resp);
        State() == step.store && r == step.result
    {
      var params := CreateParams(config.merchantId, amount);
      var answer := SendRequest(CreatePath, Some(params), CreateLogTitle, "POST", Some(invoice), unixTime, resp);
      if !IsSuccessStatus(answer.status) {
        if IsClientError(answer.status) {
          var text := ClientErrorText(prim.jsonDecode, answer.body);
          if text.Failure? {
            return Failure(text.error);
          }
          return Failure(InputError(text.value));
        }
        return Failure(InputError(GenericCreateError));
      }
      var gpid := Field(prim.jsonDecode(answer.body), "globalPaymentId");
      if !Truthy(gpid) {
        return Failure(InputError(MissingPaymentIdError));
      }
      var data := if invoice in invoiceData then invoiceData[invoice] else map[];
      invoiceData := invoiceData[invoice := data[PaymentIdKey := gpid]];
      r := Success(gpid);
    }

    /** `approvePayment` (lines 469-492). */
    method ApprovePayment(paymentId: Json, invoice: string, unixTime: nat, resp: Response) returns (r: Result<()>)
      modifies this
      ensures var step := ApproveStep(Environment(), old(State()), paymentId, invoice, unixTime, resp);
        State() == step.store && r == step.result
    {
      var params := ConfirmParams(paymentId, invoice);
      var answer := SendRequest(ConfirmPath, Some(params), ConfirmLogTitle, "POST", Some(invoice), unixTime, resp);
      if !IsSuccessStatus(answer.status) {
        return Failure(InternalError(ConfirmErrorPrefix + answer.body));
      }
      var body := prim.jsonDecode(answer.body);
      if !LooseEqualsWord(Field(body, "status"), "processed") {
        return Failure(InternalError(NotApprovedPrefix + answer.body));
      }
      var data := if invoice in invoiceData then invoiceData[invoice] else map[];
      invoiceData := invoiceData[invoice := data[AmountPaidKey := JStr(AmountPaidText(body))]];
      r := Success(());
    }

    /** `getExchangeRate` (lines 450-467). */
    method GetExchangeRate(crypto: string, base: string, logInvoice: Option<string>, unixTime: nat, resp: Response)
      returns (r: Result<Json>)
      modifies this
      ensures var step := ExchangeRateStep(Environment(), old(State()), crypto, base, logInvoice, unixTime, resp);
        State() == step.store && r == step.result
    {
      var pair := CurrencyPair(crypto, base);
      var answer := SendRequest(OrderbookPath(pair), None, "GET " + pair + " XRATE", "GET", logInvoice, unixTime, resp);
      if !IsSuccessStatus(answer.status) {
        return Failure(InternalError("Failed to get the " + pair + " exchange rate: " + answer.body));
      }
      var body := prim.jsonDecode(answer.body);
      var bids := Offset(body, "bids");
      if bids.Failure? {
        return Failure(bids.error);
      }
      r := Success(Index0(bids.value));
    }

    /** The host's `$transaction->process()`, as assumed by `ProcessTransaction`. */
    method RunTransaction(logIndex: nat, secureId: string, statusResp: Response) returns (r: Result<()>)
      modifies this
      ensures var step := ProcessTransaction(Environment(), old(State()), logIndex, secureId, statusResp);
        State() == step.store && r == step.result
    {
      var step := ProcessTransaction(Environment(), State(), logIndex, secureId, statusResp);
      ledger := step.store.ledger;
      logs := step.store.logs;
      r := step.result;
    }

    /** The `status` branch of `directAction` (lines 280-343): one poll of the payment's status. */
    method DirectActionStatus(secureId: string, pcount: int, statusTime: nat, confirmTime: nat,
                              statusResp: Response, confirmResp: Response) returns (r: Result<Json>)
      modifies this
      ensures var step := PollStep(Environment(), old(State()), secureId, pcount, statusTime, confirmTime,
                                   statusResp, confirmResp);
        State() == step.store && r == step.result
    {
      var resolved := ResolveInvoice(invoices, secureId);
      if resolved.Failure? {
        return Failure(resolved.error);
      }
      var invoice := resolved.value;
      var txnId := DataGet(if invoice in invoiceData then invoiceData[invoice] else map[], PaymentIdKey);

      var resp := SendRequest(StatusPath(txnId), None, PollLogTitle(pcount, txnId), "GET",
                              Some(invoice), statusTime, statusResp);
      if !IsSuccessStatus(resp.status) {
        return Failure(InternalError(StatusErrorPrefix + resp.body));
      }

      var body := prim.jsonDecode(resp.body);
      var status := Offset(body, "status");
      if status.Failure? {
        return Failure(status.error);
      }
      if status.value == JStr("processed") {
        var logIndex := |logs|;
        logs := logs + [DirectActionLogRecord(config, invoice, secureId, pcount, resp)];
        var outcome := RunTransaction(logIndex, secureId, resp);
        if outcome.Success? {
          outcome := ApprovePayment(txnId, invoice, confirmTime, confirmResp);
        }
        if outcome.Failure? {
          logs := logs[logIndex := logs[logIndex].(entries := logs[logIndex].entries + [Raised(outcome.error)])];
          return Failure(outcome.error);
        }
        logs := logs[logIndex := logs[logIndex].(processed := true)];
      }
      r := Success(body);
    }
  }
}
