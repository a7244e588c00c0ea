/**
 * `Am_Paysystem_KinesisPay_Transaction` (kinesis-pay.php:495-532): the incoming transaction the
 * poll builds from a "processed" status answer, and the ledger the host records it in.
 *
 * The host's `Am_Paysystem_Transaction_Incoming::process` is not part of this model. It is
 * REPRESENTED, as an assumption, by `RecordIfAbsent`: a payment is recorded at most once per
 * unique id (`getUniqId`), and recording an id that is already present changes nothing.
 */
module Transaction {
  import opened Php
  import opened Outcomes
  import opened Signer
  import opened Gateway

  /** A value stored on an invoice, or null. */
  function DataGet(data: map<string, Json>, key: string): Json {
    if key in data then data[key] else JNull
  }

  /** `getUniqId`: the payment id stored on the invoice. */
  function UniqId(data: map<string, Json>): (id: Json)
    ensures PaymentIdKey in data ==> id == data[PaymentIdKey]
    ensures PaymentIdKey !in data ==> id == JNull
  {
    DataGet(data, PaymentIdKey)
  }

  /** `validateSource`: the answer was fetched by the plugin itself, so it is trusted. */
  function ValidateSource(): (ok: bool)
    ensures ok
  {
    true
  }

  /** `validateTerms`: Kinesis has no payment plans, so the terms always hold. */
  function ValidateTerms(): (ok: bool)
    ensures ok
  {
    true
  }

  /** `validateStatus`: the attached status answer's body is strictly "processed". */
  function ValidateStatus(decode: string -> Json, resp: Response): (ok: bool)
    ensures ok <==> Field(decode(resp.body), "status") == JStr("processed")
  {
    IsProcessed(decode(resp.body))
  }

  /** `findInvoiceId`: the public id of the invoice the poll's secure id resolves to, if any. */
  function FindInvoiceId(invoices: map<string, string>, secureId: string): (r: Option<string>)
    ensures r.Some? <==> secureId in invoices
    ensures r.Some? ==> r.value == invoices[secureId]
  {
    if secureId in invoices then Some(invoices[secureId]) else None
  }

  /** Recorded payments: unique id to the public id of the invoice paid. */
  type Ledger = map<Json, string>

  /** The host's recording step, as assumed: a new id is recorded, a known id is left alone. */
  function RecordIfAbsent(ledger: Ledger, id: Json, invoice: string): (r: Ledger)
    ensures id in r && r[id] == (if id in ledger then ledger[id] else invoice)
    ensures r.Keys == ledger.Keys + {id}
    ensures forall k :: k in ledger ==> k in r && r[k] == ledger[k]
  {
    if id in ledger then ledger else ledger[id := invoice]
  }

  /** Recording twice is recording once. */
  lemma RecordIfAbsentIdempotent(ledger: Ledger, id: Json, invoice: string, again: string)
    ensures RecordIfAbsent(RecordIfAbsent(ledger, id, invoice), id, again) == RecordIfAbsent(ledger, id, invoice)
  {
  }
}
