/**
 * The few pieces of PHP value semantics the Kinesis Pay plugin depends on:
 * values produced by `json_decode`, truthiness, `(string)` conversion,
 * PHP 8 loose equality against a word, decimal rendering of integers and
 * the ASCII `strtoupper`.
 */
module Php {
  import opened Outcomes

  /** A value produced by `json_decode`. A number is kept as the text PHP prints for it. */
  datatype Json =
    | JNull
    | JBool(b: bool)
    | JNum(text: string)
    | JStr(s: string)
    | JList(items: seq<Json>)
    | JObj(fields: map<string, Json>)

  /** `(bool) $s` for a string: only "" and "0" are false. */
  predicate TruthyString(s: string) {
    s != "" && s != "0"
  }

  /** `(bool) $v` for a value decoded into associative arrays (`json_decode($s, true)`). */
  predicate Truthy(j: Json) {
    match j
    case JNull => false
    case JBool(b) => b
    case JNum(t) => t != "0" && t != "-0"
    case JStr(s) => TruthyString(s)
    case JList(items) => |items| > 0
    case JObj(fields) => |fields| > 0
  }

  /** `(bool) $v` for a value decoded into objects (`json_decode($s)`): every object is true, even `{}`. */
  predicate TruthyAsObject(j: Json) {
    j.JObj? || Truthy(j)
  }

  /** `$v[$k] ?? null` on an associatively decoded value: only an object has fields. */
  function Field(j: Json, k: string): Json {
    if j.JObj? && k in j.fields then j.fields[k] else JNull
  }

  /** The engine error PHP 8.1 and later raise when a string is read at a non-numeric offset. */
  const StringOffsetError := "Cannot access offset of type string on string"

  /**
   * `$v[$k]` without `??`, for a key that is a word: a string raises, anything else reads as `Field`
   * does (null for a missing key, and null from null, booleans, numbers and lists).
   */
  function Offset(j: Json, k: string): (r: Result<Json>)
    requires IsWord(k)
    ensures r.Failure? <==> j.JStr?
    ensures r.Failure? ==> r.error == PhpError(StringOffsetError)
    ensures r.Success? ==> r.value == (if j.JObj? && k in j.fields then j.fields[k] else JNull)
  {
    if j.JStr? then Failure(PhpError(StringOffsetError)) else Success(Field(j, k))
  }

  /** `$v[0]`: the first list element, the entry under key "0", or the first character of a string. */
  function Index0(j: Json): Json {
    match j
    case JList(items) => if |items| > 0 then items[0] else JNull
    case JObj(fields) => if "0" in fields then fields["0"] else JNull
    case JStr(s) => if |s| > 0 then JStr([s[0]]) else JStr("")
    case _ => JNull
  }

  /** `(string) $v` for an associatively decoded value; PHP prints every array as "Array". */
  function ToText(j: Json): string {
    match j
    case JNull => ""
    case JBool(b) => if b then "1" else ""
    case JNum(t) => t
    case JStr(s) => s
    case JList(_) => "Array"
    case JObj(_) => "Array"
  }

  predicate IsLetter(c: char) {
    ('a' <= c <= 'z') || ('A' <= c <= 'Z')
  }

  /** A non-empty string of letters: never numeric, never empty, always true. */
  predicate IsWord(w: string) {
    |w| > 0 && forall i :: 0 <= i < |w| ==> IsLetter(w[i])
  }

  /**
   * `$word == $v` under PHP 8 loose comparison, for a word. A boolean is compared
   * with the word's truthiness; null converts to "" and a number to its text, neither
   * of which is a word; an array never equals a string.
   */
  predicate LooseEqualsWord(j: Json, word: string)
    requires IsWord(word)
  {
    match j
    case JBool(b) => b
    case JStr(s) => s == word
    case _ => false
  }

  // ---------------------------------------------------------------- decimal text

  predicate IsDigit(c: char) {
    '0' <= c <= '9'
  }

  predicate AllDigits(s: string) {
    forall i :: 0 <= i < |s| ==> IsDigit(s[i])
  }

  function DigitChar(d: nat): char
    requires d < 10
  {
    (48 + d) as char
  }

  function DigitValue(c: char): nat
    requires IsDigit(c)
  {
    c as int - 48
  }

  /** How PHP prints a non-negative integer: its decimal digits, without leading zeros. */
  function DecimalString(n: nat): (s: string)
    ensures |s| > 0 && AllDigits(s)
    ensures s[0] == '0' ==> n == 0
    decreases n
  {
    if n < 10 then [DigitChar(n)] else DecimalString(n / 10) + [DigitChar(n % 10)]
  }

  /** Reads a string of decimal digits back as a number. */
  function ParseDecimal(s: string): nat
    requires AllDigits(s)
  {
    if s == [] then 0 else ParseDecimal(s[..|s| - 1]) * 10 + DigitValue(s[|s| - 1])
  }

  /** Parsing undoes printing, so the decimal text of a number determines the number. */
  lemma {:induction false} ParseDecimalString(n: nat)
    ensures ParseDecimal(DecimalString(n)) == n
  {
    if n >= 10 {
      var prefix := DecimalString(n / 10);
      ParseDecimalString(n / 10);
      assert DecimalString(n)[..|DecimalString(n)| - 1] == prefix;
    }
  }

  lemma DecimalStringInjective(m: nat, n: nat)
    requires DecimalString(m) == DecimalString(n)
    ensures m == n
  {
    ParseDecimalString(m);
    ParseDecimalString(n);
  }

  /** The length of the run of digits a string starts with. */
  function LeadingDigits(s: string): nat {
    if s == [] || !IsDigit(s[0]) then 0 else 1 + LeadingDigits(s[1..])
  }

  /** Digits followed by text that does not start with a digit: the run is exactly the digits. */
  lemma {:induction false} LeadingDigitsOfPrefix(d: string, a: string)
    requires AllDigits(d)
    requires a == [] || !IsDigit(a[0])
    ensures LeadingDigits(d + a) == |d|
  {
    if d == [] {
      assert d + a == a;
    } else {
      assert (d + a)[1..] == d[1..] + a;
      LeadingDigitsOfPrefix(d[1..], a);
    }
  }

  /** How PHP prints an integer. */
  function IntString(i: int): string {
    if i < 0 then "-" + DecimalString(-i) else DecimalString(i)
  }

  // ---------------------------------------------------------------- upper case

  function UpperChar(c: char): char {
    if 'a' <= c <= 'z' then (c as int - 32) as char else c
  }

  /** `strtoupper`: ASCII letters only, as in PHP 8. */
  function ToUpper(s: string): (r: string)
    ensures |r| == |s|
    ensures forall i :: 0 <= i < |r| ==> !('a' <= r[i] <= 'z')
    ensures forall i :: 0 <= i < |s| && !('a' <= s[i] <= 'z') ==> r[i] == s[i]
    ensures forall i :: 0 <= i < |s| && 'a' <= s[i] <= 'z' ==> r[i] as int == s[i] as int - 32
  {
    seq(|s|, i requires 0 <= i < |s| => UpperChar(s[i]))
  }
}
