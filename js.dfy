/**
 * The JavaScript values the front end receives from the API, and the few
 * language rules its components rely on: truthiness (`a || b`, `if (!x)`),
 * property access on a parsed response, the outcome of a `fetch` call and the
 * value a `catch` block sees.
 */
module Js {

  /** A value produced by `response.json()`, or `undefined` from a missing property. */
  datatype Json =
    | Undefined
    | Null
    | Bool(b: bool)
    | Num(n: int)
    | Str(s: string)
    | Arr(items: seq<Json>)
    | Obj(fields: map<string, Json>)
  {
    /** `null` and `undefined`: the values whose properties cannot be read. */
    predicate Nullish() {
      Undefined? || Null?
    }
  }

  /** JavaScript truthiness: everything is truthy except undefined, null, false, 0 and "". */
  predicate Truthy(v: Json) {
    match v
    case Undefined => false
    case Null => false
    case Bool(b) => b
    case Num(n) => n != 0
    case Str(s) => s != ""
    case Arr(_) => true
    case Obj(_) => true
  }

  /** `a || b`: the first operand when it is truthy, otherwise the second. */
  function Or(a: Json, b: Json): (r: Json)
    ensures Truthy(a) ==> r == a
    ensures !Truthy(a) ==> r == b
    ensures Truthy(r) <==> Truthy(a) || Truthy(b)
  {
    if Truthy(a) then a else b
  }

  /** A value that may be absent. */
  datatype Option<T> = None | Some(value: T)

  /** The result of an operation that may throw an `Error` with a message. */
  datatype Result<T> = Ok(value: T) | Err(message: string)

  /** The message a JavaScript engine puts in the TypeError thrown by `v.key` on null or undefined. */
  function NullAccessMessage(v: Json, key: string): (m: string)
    requires v.Nullish()
    ensures m != ""
  {
    "Cannot read properties of " + (if v.Null? then "null" else "undefined") + " (reading '" + key + "')"
  }

  /**
   * Property access `v.key`. It throws on null and undefined; on an object it
   * gives the stored value, or undefined when the key is absent; on any other
   * value it gives undefined.
   */
  function Member(v: Json, key: string): (r: Result<Json>)
    ensures r.Err? <==> v.Nullish()
    ensures r.Ok? && v.Obj? && key in v.fields ==> r.value == v.fields[key]
    ensures r.Ok? && !(v.Obj? && key in v.fields) ==> r.value == Undefined
  {
    match v
    case Undefined => Err(NullAccessMessage(v, key))
    case Null => Err(NullAccessMessage(v, key))
    case Obj(m) => Ok(if key in m then m[key] else Undefined)
    case _ => Ok(Undefined)
  }

  /** A value reaching a `catch` block: an `Error` with its message, or anything else. */
  datatype Thrown = ErrorThrown(message: string) | OtherThrown

  /** What a `catch` block stores: an Error's message, or the fallback for any other thrown value. */
  function CatchMessage(t: Thrown, fallback: string): (m: string)
    ensures t.ErrorThrown? ==> m == t.message
    ensures t.OtherThrown? ==> m == fallback
  {
    match t
    case ErrorThrown(msg) => msg
    case OtherThrown => fallback
  }

  /** What `response.json()` gives: a parsed value, or a SyntaxError with its message. */
  datatype Body = Parsed(value: Json) | Malformed(message: string)

  /**
   * The outcome of one `fetch` call, chosen by the environment: a response with
   * its `ok` flag, status and body, or a rejection (network failure).
   */
  datatype FetchOutcome =
    | Response(ok: bool, status: nat, body: Body)
    | Rejected(thrown: Thrown)

  /** The decimal digits of a natural number, most significant first. */
  function NatToDecimal(n: nat): (s: string)
    decreases n
  {
    if n < 10 then [DigitChar(n)] else NatToDecimal(n / 10) + [DigitChar(n % 10)]
  }

  function DigitChar(d: nat): (c: char)
    requires d < 10
    ensures '0' <= c <= '9'
  {
    ('0' as int + d) as char
  }

  function DigitValue(c: char): (d: nat)
    requires '0' <= c <= '9'
    ensures d < 10
  {
    (c as int - '0' as int) as nat
  }

  /** A string of decimal digits (possibly empty). */
  predicate IsDigits(s: string) {
    forall i :: 0 <= i < |s| ==> '0' <= s[i] <= '9'
  }

  /** The value a digit string denotes, most significant digit first. */
  function DecimalValue(s: string): (n: nat)
    requires IsDigits(s)
  {
    if s == [] then 0 else DecimalValue(s[..|s| - 1]) * 10 + DigitValue(s[|s| - 1])
  }

  /**
   * Template-literal interpolation of a natural number yields a digit string
   * that reads back as it, with no leading zero except for zero itself.
   */
  lemma {:induction false} NatToDecimalRoundTrip(n: nat)
    ensures |NatToDecimal(n)| >= 1
    ensures IsDigits(NatToDecimal(n))
    ensures DecimalValue(NatToDecimal(n)) == n
    ensures NatToDecimal(n)[0] == '0' <==> n == 0
    ensures n == 0 ==> NatToDecimal(n) == "0"
  {
    if n >= 10 {
      var q, d := n / 10, n % 10;
      NatToDecimalRoundTrip(q);
      assert NatToDecimal(n) == NatToDecimal(q) + [DigitChar(d)];
      assert NatToDecimal(n)[0] == NatToDecimal(q)[0];
      DecimalValueSnoc(NatToDecimal(q), DigitChar(d));
      assert DigitValue(DigitChar(d)) == d;
    }
  }

  /** Appending a digit shifts the value one decimal place and adds the digit. */
  lemma DecimalValueSnoc(prefix: string, c: char)
    requires IsDigits(prefix) && '0' <= c <= '9'
    ensures IsDigits(prefix + [c])
    ensures DecimalValue(prefix + [c]) == DecimalValue(prefix) * 10 + DigitValue(c)
  {
    var s := prefix + [c];
    assert s[..|s| - 1] == prefix;
  }

  /** `String(n)` for an integer. */
  function IntToDecimal(n: int): (s: string)
  {
    if n < 0 then "-" + NatToDecimal(-n) else NatToDecimal(n)
  }

  /** `${v}` / `String(v)` for an array element inside `Array.prototype.join`: null and undefined become "". */
  function JoinElement(v: Json): string
    decreases v, 1
  {
    if v.Nullish() then "" else ToJsString(v)
  }

  /** `String(v)`, as `new Error(v)` uses it to build the error's message. */
  function ToJsString(v: Json): (s: string)
    decreases v, 0
    ensures v.Str? ==> s == v.s
  {
    match v
    case Undefined => "undefined"
    case Null => "null"
    case Bool(b) => if b then "true" else "false"
    case Num(n) => IntToDecimal(n)
    case Str(s) => s
    case Arr(items) => JoinElements(items)
    case Obj(_) => "[object Object]"
  }

  function JoinElements(items: seq<Json>): string
    decreases items, 2
  {
    if items == [] then ""
    else if |items| == 1 then JoinElement(items[0])
    else JoinElement(items[0]) + "," + JoinElements(items[1..])
  }

  /** The message of `new Error(\`HTTP error! status: ${response.status}\`)`. */
  function HttpErrorMessage(status: nat): (m: string)
    ensures |m| > |"HTTP error! status: "|
    ensures m[..|"HTTP error! status: "|] == "HTTP error! status: "
    ensures IsDigits(m[|"HTTP error! status: "|..]) && DecimalValue(m[|"HTTP error! status: "|..]) == status
    ensures var digits := m[|"HTTP error! status: "|..]; digits[0] == '0' ==> digits == "0"
  {
    NatToDecimalRoundTrip(status);
    assert ("HTTP error! status: " + NatToDecimal(status))[|"HTTP error! status: "|..] == NatToDecimal(status);
    "HTTP error! status: " + NatToDecimal(status)
  }
}
