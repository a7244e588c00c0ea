/**
 * The request signer of `_sendRequest` (kinesis-pay.php:392-448): every call to the
 * Kinesis API carries a millisecond nonce, the merchant's access token and an upper-case
 * HMAC-SHA256 signature of `nonce . method . path . body`, and may leave an audit log record
 * with the merchant secret masked. HMAC and JSON encoding and decoding are not modelled:
 * they are the functions held in `Primitives`, about which nothing is assumed.
 */
module Signer {
  import opened Php
  import opened Outcomes

  const ApiBaseUrl := "https://apip.kinesis.money"
  const SecretMask := "***secret_token***"
  const JsonMediaType := "application/json"

  /** A PHP array of parameters, in insertion order. */
  type Params = seq<(string, Json)>

  /** The plugin's settings that the core reads. An unset setting is "". */
  datatype Config = Config(
    merchantId: string,
    accessToken: string,
    secretToken: string,
    disablePostbackLog: bool)

  /** `isConfigured` (kinesis-pay.php:115-118): the three credentials are all PHP-true. */
  function IsConfigured(c: Config): (ok: bool)
    ensures ok <==> (c.merchantId != "" && c.accessToken != "" && c.secretToken != ""
                     && c.merchantId != "0" && c.accessToken != "0" && c.secretToken != "0")
  {
    TruthyString(c.merchantId) && TruthyString(c.accessToken) && TruthyString(c.secretToken)
  }

  /** The foreign functions the signer calls. */
  datatype Primitives = Primitives(
    /** `hash_hmac('SHA256', message, key)`, a lower-case hex digest of the message. */
    hmacSha256: (string, string) -> string,
    jsonEncode: Params -> string,
    /** `json_decode`, giving null for text that is not JSON. */
    jsonDecode: string -> Json)

  datatype Request = Request(verb: string, url: string, headers: seq<(string, string)>, body: Option<string>)

  datatype Response = Response(status: int, body: string)

  /** `time() * 1000`: whole seconds, expressed in milliseconds. */
  function Nonce(unixTime: nat): (n: nat)
    ensures n % 1000 == 0 && n / 1000 == unixTime
  {
    unixTime * 1000
  }

  /** The body text that is signed: "{}" for null or an empty array, otherwise the JSON encoding. */
  function CanonicalBody(prim: Primitives, params: Option<Params>): (r: string)
    ensures params == None || params == Some([]) ==> r == "{}"
    ensures params.Some? && params.value != [] ==> r == prim.jsonEncode(params.value)
  {
    if params == None || params == Some([]) then "{}" else prim.jsonEncode(params.value)
  }

  /** The signed text of line 405: the nonce's digits, the method, the path and the signed body, in that order. */
  function SigningMessage(prim: Primitives, nonce: nat, verb: string, path: string, params: Option<Params>)
    : (m: string)
    ensures var n := |DecimalString(nonce)|;
      && |m| == n + |verb| + |path| + |CanonicalBody(prim, params)|
      && m[..n] == DecimalString(nonce)
      && m[n..n + |verb|] == verb
      && m[n + |verb|..n + |verb| + |path|] == path
      && m[n + |verb| + |path|..] == CanonicalBody(prim, params)
  {
    DecimalString(nonce) + verb + path + CanonicalBody(prim, params)
  }

  /** `strtoupper(hash_hmac('SHA256', message, secret))`. */
  function Signature(prim: Primitives, secret: string, message: string): (sig: string)
    ensures |sig| == |prim.hmacSha256(message, secret)|
    ensures forall i :: 0 <= i < |sig| ==> !('a' <= sig[i] <= 'z')
    ensures forall i :: 0 <= i < |sig| && 'a' <= prim.hmacSha256(message, secret)[i] <= 'z' ==>
              sig[i] as int == prim.hmacSha256(message, secret)[i] as int - 32
    ensures forall i :: 0 <= i < |sig| && !('a' <= prim.hmacSha256(message, secret)[i] <= 'z') ==>
              sig[i] == prim.hmacSha256(message, secret)[i]
  {
    ToUpper(prim.hmacSha256(message, secret))
  }

  /** The header array of lines 409-417, in the order it is built. */
  function Headers(nonce: nat, apiKey: string, signature: string, verb: string): (h: seq<(string, string)>)
    ensures |h| == (if verb == "DELETE" then 4 else 5)
    ensures h[..4] == [("X-Nonce", DecimalString(nonce)), ("X-Api-Key", apiKey),
                       ("X-Signature", signature), ("Accept", JsonMediaType)]
    ensures (exists i :: 0 <= i < |h| && h[i] == ("Content-Type", JsonMediaType)) <==> verb != "DELETE"
    ensures forall i, j :: 0 <= i < j < |h| ==> h[i].0 != h[j].0
  {
    var common := [("X-Nonce", DecimalString(nonce)), ("X-Api-Key", apiKey),
                   ("X-Signature", signature), ("Accept", JsonMediaType)];
    var h := if verb != "DELETE" then common + [("Content-Type", JsonMediaType)] else common;
    assert verb != "DELETE" ==> h[4] == ("Content-Type", JsonMediaType);
    h
  }

  /** The value a header array gives a name, if any. */
  function HeaderValue(headers: seq<(string, string)>, name: string): Option<string> {
    if headers == [] then None
    else if headers[0].0 == name then Some(headers[0].1)
    else HeaderValue(headers[1..], name)
  }

  /** The request `_sendRequest` sends. */
  function BuildRequest(prim: Primitives, config: Config, unixTime: nat, verb: string,
                        path: string, params: Option<Params>): (r: Request)
    ensures r.verb == verb && r.url == ApiBaseUrl + path
    ensures r.headers == Headers(Nonce(unixTime), config.accessToken,
                                 Signature(prim, config.secretToken, SigningMessage(prim, Nonce(unixTime), verb, path, params)),
                                 verb)
    ensures r.body.Some? <==> params.Some?
    ensures params.Some? && params.value != [] ==> r.body == Some(CanonicalBody(prim, params))
    ensures params == Some([]) ==> r.body == Some(prim.jsonEncode([]))
  {
    var nonce := Nonce(unixTime);
    var sig := Signature(prim, config.secretToken, SigningMessage(prim, nonce, verb, path, params));
    Request(verb, ApiBaseUrl + path, Headers(nonce, config.accessToken, sig, verb),
            if params.Some? then Some(prim.jsonEncode(params.value)) else None)
  }

  /**
   * Every request goes to the API host, carries the nonce, the access token, the signature of
   * its message and `Accept: application/json`, has `Content-Type: application/json` exactly when
   * its method is not DELETE, and has a body exactly when parameters were given.
   */
  lemma RequestHeaders(prim: Primitives, config: Config, unixTime: nat, verb: string,
                       path: string, params: Option<Params>)
    ensures var req := BuildRequest(prim, config, unixTime, verb, path, params);
      && req.verb == verb
      && req.url == ApiBaseUrl + path
      && HeaderValue(req.headers, "X-Nonce") == Some(DecimalString(unixTime * 1000))
      && HeaderValue(req.headers, "X-Api-Key") == Some(config.accessToken)
      && HeaderValue(req.headers, "X-Signature") ==
           Some(Signature(prim, config.secretToken,
                          DecimalString(unixTime * 1000) + verb + path + CanonicalBody(prim, params)))
      && HeaderValue(req.headers, "Accept") == Some(JsonMediaType)
      && HeaderValue(req.headers, "Content-Type") == (if verb == "DELETE" then None else Some(JsonMediaType))
      && |req.headers| == (if verb == "DELETE" then 4 else 5)
      && (req.body.Some? <==> params.Some?)
      && (params.Some? ==> req.body == Some(prim.jsonEncode(params.value)))
  {
    var req := BuildRequest(prim, config, unixTime, verb, path, params);
    var h := req.headers;
    var tail := if verb == "DELETE" then [] else [("Content-Type", JsonMediaType)];
    assert h[1..][1..][1..][1..] == tail;
    forall name | name in {"X-Signature", "Accept", "Content-Type"}
      ensures HeaderValue(h, name) == HeaderValue(h[1..][1..], name)
    {
      assert HeaderValue(h, name) == HeaderValue(h[1..], name);
    }
    assert HeaderValue(h[1..][1..][1..], "Accept") == Some(JsonMediaType);
    assert HeaderValue(h[1..][1..], "Content-Type") == HeaderValue(h[1..][1..][1..], "Content-Type");
    assert HeaderValue(h[1..][1..][1..], "Content-Type") == HeaderValue(tail, "Content-Type");
  }

  /**
   * Whenever a non-empty parameter array is sent, the body on the wire is exactly the signed body,
   * and the signature header signs the nonce, method and path followed by that very body.
   */
  lemma SignedBodyIsWireBody(prim: Primitives, config: Config, unixTime: nat, verb: string,
                             path: string, params: Option<Params>)
    requires params.Some? && params.value != []
    ensures var req := BuildRequest(prim, config, unixTime, verb, path, params);
      && req.body == Some(CanonicalBody(prim, params))
      && HeaderValue(req.headers, "X-Signature") ==
           Some(Signature(prim, config.secretToken, DecimalString(Nonce(unixTime)) + verb + path + req.body.value))
  {
    RequestHeaders(prim, config, unixTime, verb, path, params);
  }

  /**
   * An empty, non-null parameter array signs as "{}" while its JSON encoding is still sent as
   * the body; a null parameter array signs as "{}" and sends no body.
   */
  lemma EmptyParamsSignAsEmptyObject(prim: Primitives, config: Config, unixTime: nat, verb: string, path: string)
    ensures SigningMessage(prim, Nonce(unixTime), verb, path, Some([])) ==
            DecimalString(unixTime * 1000) + verb + path + "{}"
    ensures BuildRequest(prim, config, unixTime, verb, path, Some([])).body == Some(prim.jsonEncode([]))
    ensures SigningMessage(prim, Nonce(unixTime), verb, path, None) ==
            DecimalString(unixTime * 1000) + verb + path + "{}"
    ensures BuildRequest(prim, config, unixTime, verb, path, None).body == None
  {
  }

  /** Two decimal prefixes followed by text that does not start with a digit are equal. */
  lemma DigitPrefixUnique(d1: string, d2: string, a: string, b: string)
    requires AllDigits(d1) && AllDigits(d2)
    requires |a| > 0 && !IsDigit(a[0]) && |b| > 0 && !IsDigit(b[0])
    requires d1 + a == d2 + b
    ensures d1 == d2
  {
    LeadingDigitsOfPrefix(d1, a);
    LeadingDigitsOfPrefix(d2, b);
    assert d1 == (d1 + a)[..|d1|];
    assert d2 == (d2 + b)[..|d2|];
  }

  /** A nonce's digits followed by text that starts with a letter determine the nonce. */
  lemma NonceTextUnique(n1: nat, a: string, n2: nat, b: string)
    requires |a| > 0 && IsLetter(a[0]) && |b| > 0 && IsLetter(b[0])
    requires DecimalString(n1) + a == DecimalString(n2) + b
    ensures n1 == n2
  {
    DigitPrefixUnique(DecimalString(n1), DecimalString(n2), a, b);
    DecimalStringInjective(n1, n2);
  }

  /**
   * For methods that begin with a letter, the signed message determines the nonce, so requests
   * made in different seconds never sign the same message.
   */
  lemma MessageDeterminesNonce(prim: Primitives, n1: nat, m1: string, p1: string, q1: Option<Params>,
                               n2: nat, m2: string, p2: string, q2: Option<Params>)
    requires |m1| > 0 && IsLetter(m1[0]) && |m2| > 0 && IsLetter(m2[0])
    requires SigningMessage(prim, n1, m1, p1, q1) == SigningMessage(prim, n2, m2, p2, q2)
    ensures n1 == n2
  {
    var msg := SigningMessage(prim, n1, m1, p1, q1);
    var k1, k2 := |DecimalString(n1)|, |DecimalString(n2)|;
    var a, b := msg[k1..], msg[k2..];
    assert a[0] == msg[k1..k1 + |m1|][0] == m1[0];
    assert b[0] == msg[k2..k2 + |m2|][0] == m2[0];
    assert msg == msg[..k1] + a == msg[..k2] + b;
    NonceTextUnique(n1, a, n2, b);
  }

  /** With the nonce, method and path fixed, the signed message determines the signed body. */
  lemma MessageDeterminesBody(prim: Primitives, nonce: nat, verb: string, path: string,
                              q1: Option<Params>, q2: Option<Params>)
    requires SigningMessage(prim, nonce, verb, path, q1) == SigningMessage(prim, nonce, verb, path, q2)
    ensures CanonicalBody(prim, q1) == CanonicalBody(prim, q2)
  {
    var prefix := DecimalString(nonce) + verb + path;
    assert SigningMessage(prim, nonce, verb, path, q1) == prefix + CanonicalBody(prim, q1);
    assert SigningMessage(prim, nonce, verb, path, q2) == prefix + CanonicalBody(prim, q2);
    assert CanonicalBody(prim, q1) == (prefix + CanonicalBody(prim, q1))[|prefix|..];
    assert CanonicalBody(prim, q2) == (prefix + CanonicalBody(prim, q2))[|prefix|..];
  }

  // ---------------------------------------------------------------- audit log

  datatype LogKind =
    /** A request/response pair written by `_sendRequest`. */
    | RequestLog
    /** The record the host creates for an incoming call (`_logDirectAction`). */
    | DirectActionLog

  datatype LogEntry =
    | SentRequest(req: Request)
    | ReceivedResponse(resp: Response)
    | IncomingPoll(secureId: string, poll: int)
    | Note(text: string)
    | Raised(error: Error)

  /** An invoice log record; `masks` lists the (secret, replacement) pairs applied when it is shown. */
  datatype LogRecord = LogRecord(
    kind: LogKind,
    title: string,
    invoice: Option<string>,
    postbackLogDisabled: bool,
    masks: seq<(string, string)>,
    entries: seq<LogEntry>,
    processed: bool)

  /** The log records `_sendRequest` leaves (lines 428-444): one exactly when the title is PHP-true. */
  function RequestLogs(config: Config, title: string, invoice: Option<string>, req: Request, resp: Response)
    : (logs: seq<LogRecord>)
    ensures |logs| == (if title != "" && title != "0" then 1 else 0)
    ensures forall i :: 0 <= i < |logs| ==>
      && logs[i].kind == RequestLog
      && logs[i].title == title
      && logs[i].invoice == invoice
      && logs[i].postbackLogDisabled == config.disablePostbackLog
      && (config.secretToken, SecretMask) in logs[i].masks
      && logs[i].entries == [SentRequest(req), ReceivedResponse(resp)]
      && !logs[i].processed
  {
    if TruthyString(title) then
      [LogRecord(RequestLog, title, invoice, config.disablePostbackLog, [(config.secretToken, SecretMask)],
                 [SentRequest(req), ReceivedResponse(resp)], false)]
    else []
  }
}
