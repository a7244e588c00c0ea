# Kinesis Pay for aMember — a Dafny model of the payment core

The plugin `Am_Paysystem_KinesisPay` lets an aMember invoice be paid through the Kinesis
payment network. Kinesis sends no notifications. The plugin therefore:

- creates a payment with a signed POST;
- has the payer's browser poll a `status` action, which asks Kinesis for the payment's status;
- on a strictly `"processed"` answer, hands that answer to the host as an incoming
  transaction (`Am_Paysystem_KinesisPay_Transaction`);
- then confirms the payment with a second signed POST and stores the amount paid on the invoice.

Every API call goes through `_sendRequest`. It computes a millisecond nonce, signs
`nonce . method . path . body` with HMAC-SHA256 under the merchant secret, upper-cases the
digest, sets the credential headers, and writes an invoice-log record with the secret masked
when it is given a PHP-true title.

The model has seven modules:

- `Php`: the PHP value semantics the code relies on: decoded JSON, truthiness, `(string)`,
  PHP 8.1 loose `==` against a word, reading a string at a word offset, integer printing, `strtoupper`.
- `Outcomes`: `Option`, `Result` and the exceptions raised.
- `Signer`: the pure parts of `_sendRequest` (nonce, signed message, signature, headers, the
  request, the log record), and `isConfigured`.
- `Gateway`: how each gateway answer is read, as a function of the HTTP status and body.
- `Transaction`: the transaction class's hooks, and the host's ledger.
- `Reconciler`: every state change as a function from the state before (a `Store`) to the
  state after, and the poll's properties as lemmas.
- `Plugin`: class `KinesisPay`, whose fields are the invoice data, the ledger, the invoice
  log and the requests sent. Its imperative methods are each proved to produce exactly the
  state and result of the matching `Reconciler` function.

Responses and the clock are parameters. HMAC and JSON encoding and decoding are
function-valued fields of `Signer.Primitives`, about which nothing is assumed.

Behaviour of the code that a reader might not expect:

- There is no local "already processed" guard. Every poll that sees `"processed"` runs the
  host's `process()`. One might expect one confirmation per payment. Provided the host's
  `process()` returns normally for an already-recorded payment id, every poll that sees
  `"processed"` sends a confirmation, and `Reconciler.RepeatedProcessedPolls` proves that two
  such polls send two. If the host threw for a repeat instead, line 327 would log and rethrow
  that exception and no second confirmation would be sent.
  Only the ledger, keyed by the payment id (`getUniqId`), is left unchanged by the second
  poll. That ledger behaviour is an assumption about the host (`Transaction.RecordIfAbsent`).
- The poll never branches on "rejected" or "expired". Every 200/201 answer that is not
  "processed" is returned to the caller as decoded, except a body that decodes to a JSON
  string, which raises when line 314 reads its status. No local status is kept, so there is no
  monotonic status to prove.
- Three rules follow PHP truthiness, so the string "0" counts as empty:
  - the log title in `_sendRequest`;
  - `isConfigured`;
  - the payment id after creation.

The unknown-invoice check comes after its first use (see Findings). The poll is modelled with
the corrected check; "## Left out" says so.

## Model

| member | source | states |
|---|---|---|
| Php.DecimalString | kinesis-pay.php:404-405 | the nonce's decimal text is non-empty, all digits, and starts with '0' only for zero |
| Php.ParseDecimalString | kinesis-pay.php:404-405 | reading the nonce text back gives the nonce |
| Php.DecimalStringInjective | kinesis-pay.php:404-405 | different nonces print differently |
| Php.LeadingDigitsOfPrefix | kinesis-pay.php:405 | in `nonce . method` with a method not starting with a digit, the leading run of digits is exactly the nonce |
| Php.ToUpper | kinesis-pay.php:406 | `strtoupper` keeps the length, leaves no lower-case letter, maps each lower-case letter to its upper case and leaves every other character alone |
| Signer.IsConfigured | kinesis-pay.php:115-118 | configured iff merchant id, access token and secret are all neither "" nor "0" |
| Signer.Nonce | kinesis-pay.php:404 | the nonce is the Unix time in whole seconds times 1000 |
| Signer.CanonicalBody | kinesis-pay.php:405 | the signed body is "{}" for null or empty parameters, otherwise their JSON encoding |
| Signer.Signature | kinesis-pay.php:406 | the signature is the HMAC digest upper-cased: same length, each lower-case letter replaced by its upper case, every other character kept |
| Signer.SigningMessage | kinesis-pay.php:405 | the signed text is the nonce's digits, then the method, then the path, then the signed body |
| Signer.Headers | kinesis-pay.php:409-417 | X-Nonce, X-Api-Key, X-Signature and Accept in that order, then `Content-Type` exactly when the method is not DELETE; no header name appears twice |
| Signer.BuildRequest | kinesis-pay.php:399-424 | the request has the method, the API host plus path, the headers carrying the signature of the signed text, and a body iff parameters were given, equal to the signed body when they are non-empty |
| Signer.RequestHeaders | kinesis-pay.php:399-424 | a request goes to the API host with its method, carries nonce, access token, the signature of `nonce.method.path.body` and `Accept`; it has `Content-Type` iff the method is not DELETE, and a body iff parameters were given |
| Signer.SignedBodyIsWireBody | kinesis-pay.php:405-424 | for non-empty parameters the body on the built request is the signed body, and the X-Signature header signs nonce, method, path and that body |
| Signer.EmptyParamsSignAsEmptyObject | kinesis-pay.php:405-424 | empty parameters sign as "{}" yet still send their encoding; null parameters sign as "{}" and send no body |
| Signer.DigitPrefixUnique | kinesis-pay.php:405 | two digit strings followed by text not starting with a digit are equal if the concatenations are |
| Signer.NonceTextUnique | kinesis-pay.php:404-405 | a nonce's digits followed by text starting with a letter determine the nonce |
| Signer.MessageDeterminesNonce | kinesis-pay.php:404-405 | for methods starting with a letter, equal signed messages come from the same nonce |
| Signer.MessageDeterminesBody | kinesis-pay.php:405 | with nonce, method and path fixed, equal signed messages have equal signed bodies |
| Php.Offset | kinesis-pay.php:466 | `$v[$k]` at a word key raises the string-offset error exactly when `$v` is a string, and otherwise reads the field or null |
| Signer.RequestLogs | kinesis-pay.php:428-444 | one request-log record iff the title is PHP-true, with that title and invoice, the postback-log flag from settings, the secret mask, and exactly the request and response |
| Gateway.IsClientError | kinesis-pay.php:144-147 | `floor(status/100) == 4` iff 400 <= status <= 499 |
| Gateway.ObjectModeText | kinesis-pay.php:155 | `(string)` of a decoded object raises the stdClass conversion error; other values convert as PHP prints them |
| Gateway.ClientErrorText | kinesis-pay.php:148-155 | the raw body when it decodes to a PHP-false value; otherwise the decoded `message`, or "" when there is none |
| Gateway.ClassifyCreate | kinesis-pay.php:143-165 | success iff 200/201 with a PHP-true `globalPaymentId`, which is returned; 4xx gives the extracted text; any other status gives the generic error; a 2xx answer without an id gives the missing-id error |
| Gateway.ClientErrorPassthrough | kinesis-pay.php:148-155 | a JSON `{"message": t}` body and a plain-text body `t` give the payer the same error `t` |
| Gateway.ScalarJsonClientErrorIsEmpty | kinesis-pay.php:152-155 | a 4xx body that is PHP-true JSON but not an object gives an empty error message |
| Gateway.ClassifyStatus | kinesis-pay.php:304-313 | the status answer is read iff 200/201, as its decoded body; otherwise an internal error quoting the body |
| Gateway.AmountPaidText | kinesis-pay.php:489-491 | the stored text is the KAU amount for currency "KAU", and otherwise the KAG amount followed by the currency |
| Gateway.TrueCurrencyReadsAsKau | kinesis-pay.php:489-490 | a currency of `true` loosely equals "KAU": the KAU amount is stored, followed by "1" |
| Gateway.ClassifyConfirm | kinesis-pay.php:477-491 | confirmation succeeds iff 200/201 and the status loosely equals "processed", with the amount text; otherwise the matching internal error quoting the body |
| Gateway.ConfirmAcceptedStatuses | kinesis-pay.php:483-486 | a 2xx confirmation is accepted iff its status is "processed" or `true` |
| Gateway.ClassifyExchangeRate | kinesis-pay.php:459-466 | success iff 200/201 and the body does not decode to a string, giving the first bid of a list, the "0" entry of an object, or the first character of a string (null when `bids` is missing, null, a boolean, a number, an empty list or an object without "0"); a non-2xx answer gives the pair's error quoting the body; a string body raises the string-offset error |
| Transaction.UniqId | kinesis-pay.php:497-500 | the unique id is the payment id stored on the invoice, or null |
| Transaction.ValidateSource | kinesis-pay.php:502-505 | the source check always passes |
| Transaction.ValidateStatus | kinesis-pay.php:507-515 | the status check passes iff the attached answer's status is strictly "processed" |
| Transaction.ValidateTerms | kinesis-pay.php:517-520 | the terms check always passes |
| Transaction.FindInvoiceId | kinesis-pay.php:522-531 | the public id of the invoice the secure id resolves to, or null iff it resolves to none |
| Transaction.RecordIfAbsent | kinesis-pay.php:497-500 | the host's ledger, keyed by the unique id: the id ends up present, a known id keeps its invoice, and every other entry is unchanged |
| Transaction.RecordIfAbsentIdempotent | kinesis-pay.php:497-500 | recording an id twice is recording it once |
| Reconciler.SendStep | kinesis-pay.php:392-448 | one call to `_sendRequest`: exactly the built request is appended to the requests sent, the log records of `Signer.RequestLogs` are appended to the log, and invoice data and ledger are unchanged |
| Reconciler.CreateStep | kinesis-pay.php:133-167 | creation sends and logs the signed POST; the payment id is stored on the invoice iff creation succeeds; nothing else on any invoice changes |
| Reconciler.ApproveStep | kinesis-pay.php:469-492 | the signed confirmation is sent and logged; the amount paid is stored iff the gateway confirms; nothing else on any invoice changes |
| Reconciler.ExchangeRateStep | kinesis-pay.php:450-467 | one logged, signed GET of the order book; no invoice data or ledger change; the result is the classified answer |
| Reconciler.ResolveAsWritten | kinesis-pay.php:284-291 | as written: a known secure id gives its invoice; an unknown one raises the null method-call error |
| Reconciler.InvalidLinkUnreachableAsWritten | kinesis-pay.php:288-291 | as written, "Invalid link" is never raised |
| Reconciler.ResolveInvoice | kinesis-pay.php:284-291 | corrected: a known secure id gives its invoice; an unknown one gives the "Invalid link" input error |
| Reconciler.ResolveAgreesOnKnownIds | kinesis-pay.php:284-291 | both lookups fail on the same ids and agree when they succeed |
| Reconciler.PollLogTitle | kinesis-pay.php:294 | the status request is logged iff the poll counter is a multiple of 10 |
| Reconciler.ProcessTransaction | kinesis-pay.php:495-531 | the host's `process()`: it succeeds iff the secure id resolves and the answer is strictly "processed"; on success the payment is recorded under the invoice's unique id unless already recorded; invoice data and the outbox are untouched, and no log record other than the transaction's own changes |
| Reconciler.PollStep | kinesis-pay.php:280-343 | one poll: an unknown secure id changes nothing; success needs a resolved id and a 200/201 answer and returns the decoded status body; at most two requests are added after those already sent; the ledger is unchanged or has the invoice's unique id recorded |
| Reconciler.PollUnknownInvoiceSendsNothing | kinesis-pay.php:284-291 | an unknown secure id fails with "Invalid link" and changes nothing |
| Reconciler.PollSendsStatusRequestFirst | kinesis-pay.php:293-301 | a resolved poll first sends the GET for the stored payment id, logged right after the existing records iff the counter is a multiple of 10 |
| Reconciler.PollWithoutProcessed | kinesis-pay.php:303-342 | without a 2xx "processed" answer only the status request is sent and logged, and nothing else is written; a non-2xx answer is an internal error quoting the body, a body decoding to a string raises the string-offset error, any other answer is returned decoded |
| Reconciler.PollProcessed | kinesis-pay.php:313-337 | on a 2xx "processed" answer the payment is recorded unless already recorded, and a confirmation is always sent; the poll succeeds iff the confirmation does, storing the amount paid; otherwise the confirmation's error is raised and no invoice data is written |
| Reconciler.PollProcessedLog | kinesis-pay.php:315-336 | the records before the direct-action record are the earlier ones plus the status request's log; that record holds the poll, the answer and the KPAY note; it ends with the raised error on failure and is marked processed iff the poll succeeds |
| Reconciler.PollKeepsPaymentIds | kinesis-pay.php:280-343 | no poll changes any invoice's stored payment id |
| Reconciler.RepeatedProcessedPolls | kinesis-pay.php:314-326 | two processed polls leave the ledger as the first left it, yet send four requests, two of them confirmations for the same payment id |
| Plugin.KinesisPay.SendRequest | kinesis-pay.php:392-448 | builds the headers and the body, puts exactly the signed request on the wire, and adds the log record iff the title is PHP-true; returns the response |
| Plugin.KinesisPay.Process | kinesis-pay.php:133-167 | the new object state and the result are those of `Reconciler.CreateStep` |
| Plugin.KinesisPay.ApprovePayment | kinesis-pay.php:469-492 | the new object state and the result are those of `Reconciler.ApproveStep` |
| Plugin.KinesisPay.GetExchangeRate | kinesis-pay.php:450-467 | the new object state and the result are those of `Reconciler.ExchangeRateStep` |
| Plugin.KinesisPay.RunTransaction | kinesis-pay.php:322-325 | the new object state and the result are those of `Reconciler.ProcessTransaction` |
| Plugin.KinesisPay.DirectActionStatus | kinesis-pay.php:280-343 | the new object state and the result are those of `Reconciler.PollStep`, so all the poll lemmas hold of the object |

## Left out

- The payment page, the setup form, the admin blocks, the readme text, the currency list and
  the pay-page URL. These are presentation and configuration.
- HTTP transport, HMAC-SHA256, `json_encode` and `json_decode`. The last three are
  uninterpreted functions in `Signer.Primitives`; responses are method parameters. A failing
  `$req->send()` (line 425) is therefore not modelled. Inside the try of lines 324-333 such a
  failure would be logged on the poll's record and rethrown; the model cannot produce it.
- The clock: `time()` is the `unixTime` parameter.
- The adjusted amount of `_process` (lines 128-131). It is floating-point arithmetic and
  `number_format`, so the amount enters the model as the text that is sent.
- The host's `Am_Paysystem_Transaction_Incoming::process` and `findBySecureId`. These are
  not part of this model. They are represented by:
  - `Reconciler.ProcessTransaction`, which runs the four checks in order;
  - `Transaction.RecordIfAbsent`, which records at most once per unique id and is an assumption
    about the host;
  - the `invoices` map.
- `_logDirectAction` is assumed always to create a log record, with the poll and the answer
  as its entries.
- Which log records the host displays. The mask pairs are recorded in the model; applying
  them is not.
- The log's `paysys_id` and `remote_addr` fields, and the `LOG_REQUEST` type constant
  (`RequestLog` stands for it).
- `getFiltered`: the poll counter is an integer. A non-numeric `poll` value is not modelled.
- PHP version: the model follows PHP 8.1 and later. That covers loose `==` between a number
  and a word (false), which PHP 7.4 would treat differently (`'processed' != 0` is false there).
  It also covers reading a string at a non-numeric offset, which raises.
- Gateway.ClassifyExchangeRate: when `bids` is itself a string, `$bids[0]` in PHP yields its
  first byte; `Php.Index0` yields its first character, which differs for non-ASCII text.
- Transaction.ValidateStatus: a status body that decodes to a string would raise at line 514.
  The poll only calls it after line 314 has read the same field, which raises first, so the
  function returns false instead.
- Transaction.RecordIfAbsent: an invoice with no stored payment id has the unique id null, so
  all such invoices share one ledger key. How the host treats a null unique id is not modelled.
- Plugin.KinesisPay.DirectActionStatus and Reconciler.PollStep use the corrected lookup
  `Reconciler.ResolveInvoice`. For an unknown secure id they give the "Invalid link" input
  error, where lines 288-291 as written raise PHP's null method-call error
  (`Reconciler.ResolveAsWritten`).
- A failing `json_encode`.
- JSON numbers. They are kept as the text PHP prints for them, since floats are not modelled.
- Invoice-log records are values in a sequence, updated by position. Object identity and
  aliasing of the log objects are not modelled.
- The difference between PHP `Exception` and `Error` in the catch at line 327. Every error
  the two guarded calls can raise in the model is an `Exception`, so all of them are
  caught and logged.
- `$invoice ??= $this->invoice` (line 433). The invoice a request is logged against is a
  parameter; the create, status and confirm calls pass the invoice being paid.
- Plugin.KinesisPay.RunTransaction: this is host code, so its body takes its new state from
  `Reconciler.ProcessTransaction` instead of performing the checks step by step.

## Findings

| source | as written | input that shows it | evidently intended | confidence | as-written member | corrected member |
|---|---|---|---|---|---|---|
| kinesis-pay.php:288-291 | `$this->invoice->data()` is called before the `if (!$this->invoice)` check | a `status` poll whose `id` matches no invoice: PHP raises "Call to a member function data() on null" | fail with the "Invalid link" input error before touching the invoice | high (not executed) | Reconciler.ResolveAsWritten, Reconciler.InvalidLinkUnreachableAsWritten | Reconciler.ResolveInvoice, Reconciler.PollUnknownInvoiceSendsNothing |
