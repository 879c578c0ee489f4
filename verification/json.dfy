/**
 * JSON values as the provider's JavaScript sees them, and the handful of
 * JavaScript semantics the provider relies on when it reads them: property
 * access on `undefined`/`null` throws, optional chaining short-circuits,
 * truthiness, and the string conversion that `+=` and template literals apply.
 *
 * JSON.parse and JSON.stringify are not implemented: a `Codec` carries them as
 * values and `RoundTrips` states the one law the model relies on.
 */
module Json {

  datatype Option<+T> = None | Some(value: T)

  /** A value JSON can carry. Objects are keyed records (member order is not
      modelled); a number is held as its canonical JavaScript text ("42", "0.5"). */
  datatype JsonValue =
    | JNull
    | JBool(b: bool)
    | JNumber(text: string)
    | JString(s: string)
    | JArray(items: seq<JsonValue>)
    | JObject(fields: map<string, JsonValue>)

  /** A JavaScript value that came out of JSON: `undefined` or a JSON value. */
  datatype JsValue = Undefined | Defined(value: JsonValue)

  datatype JsError = TypeError | SyntaxError | Error(message: string)

  /** How a JavaScript expression completes: with a value, or by throwing. */
  datatype Outcome<+T> = Returned(value: T) | Threw(error: JsError)

  /** JSON.parse (throwing on malformed text) and JSON.stringify. */
  datatype Codec = Codec(parse: string -> Outcome<JsonValue>, stringify: JsonValue -> string)

  /** The law assumed of the platform's JSON: parsing what was stringified gives the value back. */
  ghost predicate RoundTrips(c: Codec) {
    forall v :: c.parse(c.stringify(v)) == Returned(v)
  }

  predicate IsNullish(v: JsValue) {
    v == Undefined || v == Defined(JNull)
  }

  /** JavaScript truthiness. A canonical number text is "0" exactly for zero. */
  predicate Truthy(v: JsValue) {
    match v
    case Undefined => false
    case Defined(JNull) => false
    case Defined(JBool(b)) => b
    case Defined(JNumber(t)) => t != "0"
    case Defined(JString(s)) => s != ""
    case Defined(_) => true
  }

  /** `v.name`: throws on undefined and null; primitives and arrays have no
      such own property. */
  function Member(v: JsValue, name: string): (r: Outcome<JsValue>)
    ensures r.Threw? <==> IsNullish(v)
    ensures r.Threw? ==> r.error == TypeError
    ensures v.Defined? && v.value.JObject? && name in v.value.fields ==> r == Returned(Defined(v.value.fields[name]))
    ensures v.Defined? && !v.value.JObject? && !IsNullish(v) ==> r == Returned(Undefined)
  {
    match v
    case Undefined => Threw(TypeError)
    case Defined(JNull) => Threw(TypeError)
    case Defined(JObject(m)) => Returned(if name in m then Defined(m[name]) else Undefined)
    case Defined(_) => Returned(Undefined)
  }

  /** `v[i]`: arrays and strings by position, objects by the key spelled as a number. */
  function At(v: JsValue, i: nat): Outcome<JsValue>
  {
    match v
    case Undefined => Threw(TypeError)
    case Defined(JNull) => Threw(TypeError)
    case Defined(JArray(items)) => Returned(if i < |items| then Defined(items[i]) else Undefined)
    case Defined(JString(s)) => Returned(if i < |s| then Defined(JString([s[i]])) else Undefined)
    case Defined(JObject(_)) => Member(v, DecimalText(i))
    case Defined(_) => Returned(Undefined)
  }

  /** How many UTF-16 code units JavaScript stores for a character: two for
      one outside the Basic Multilingual Plane. */
  function CodeUnits(ch: char): (n: nat)
    ensures 1 <= n <= 2
  {
    if ch as int < 0x1_0000 then 1 else 2
  }

  /** A string's JavaScript `length`: its UTF-16 code units. */
  function Utf16Length(s: string): (n: nat)
    ensures |s| <= n <= 2 * |s|
  {
    if |s| == 0 then 0 else CodeUnits(s[0]) + Utf16Length(s[1..])
  }

  /** `v.length` (a string's length is counted in UTF-16 code units). */
  function Length(v: JsValue): Outcome<JsValue>
  {
    match v
    case Undefined => Threw(TypeError)
    case Defined(JNull) => Threw(TypeError)
    case Defined(JArray(items)) => Returned(Defined(JNumber(DecimalText(|items|))))
    case Defined(JString(s)) => Returned(Defined(JNumber(DecimalText(Utf16Length(s)))))
    case Defined(JObject(_)) => Member(v, "length")
    case Defined(_) => Returned(Undefined)
  }

  /** `String(v)`, as `+=` on a string and template literals apply it. */
  function JsToString(v: JsValue): string
  {
    match v
    case Undefined => "undefined"
    case Defined(j) => JsonToString(j)
  }

  function JsonToString(j: JsonValue): string
    decreases j
  {
    match j
    case JNull => "null"
    case JBool(b) => if b then "true" else "false"
    case JNumber(t) => t
    case JString(s) => s
    case JArray(items) =>
      // Array.prototype.join(","): null elements become empty
      JoinWithComma(seq(|items|, k requires 0 <= k < |items| =>
        if items[k] == JNull then "" else JsonToString(items[k])))
    case JObject(_) => "[object Object]"
  }

  function JoinWithComma(parts: seq<string>): string
  {
    if |parts| == 0 then ""
    else if |parts| == 1 then parts[0]
    else parts[0] + "," + JoinWithComma(parts[1..])
  }

  /** The canonical text of `Number(v)`. Arrays and objects are first turned
      into their string form, as JavaScript does. */
  function NumberText(v: JsValue): string
  {
    match v
    case Undefined => "NaN"
    case Defined(JNull) => "0"
    case Defined(JBool(b)) => if b then "1" else "0"
    case Defined(JNumber(t)) => t
    case Defined(j) => StringNumberText(JsonToString(j))
  }

  /** `Number(s)` for a string: it counts as a number when it is empty or made
      of decimal digits only. */
  function StringNumberText(s: string): string
  {
    if s == "" then "0" else if AllDigits(s) then StripLeadingZeros(s) else "NaN"
  }

  /** `Number([])` is 0, `Number([n])` is n, and any object is NaN. */
  lemma {:induction false} NumberOfContainers(n: nat, m: map<string, JsonValue>)
    ensures NumberText(Defined(JArray([]))) == "0"
    ensures NumberText(Defined(JArray([JNumber(DecimalText(n))]))) == DecimalText(n)
    ensures NumberText(Defined(JObject(m))) == "NaN"
  {
    var items := [JNumber(DecimalText(n))];
    var parts := seq(|items|, k requires 0 <= k < |items| =>
      if items[k] == JNull then "" else JsonToString(items[k]));
    assert parts == [DecimalText(n)];
    NoLeadingZeros(DecimalText(n));
    assert !AllDigits("[object Object]") by { assert "[object Object]"[0] == '['; }
  }

  lemma {:induction false} NoLeadingZeros(s: string)
    requires |s| >= 1 && (|s| >= 2 ==> s[0] != '0')
    ensures StripLeadingZeros(s) == s
  {
  }

  predicate AllDigits(s: string) {
    forall i :: 0 <= i < |s| ==> '0' <= s[i] <= '9'
  }

  function StripLeadingZeros(s: string): string
    decreases |s|
  {
    if |s| > 1 && s[0] == '0' then StripLeadingZeros(s[1..]) else s
  }

  function DigitChar(d: nat): (ch: char)
    requires d < 10
    ensures '0' <= ch <= '9'
  {
    "0123456789"[d]
  }

  function DigitOf(ch: char): nat
    requires '0' <= ch <= '9'
  {
    (ch as int - '0' as int) as nat
  }

  /** The decimal spelling of a natural number, as JavaScript prints it. */
  function DecimalText(n: nat): (s: string)
    ensures |s| >= 1 && AllDigits(s)
    ensures n >= 10 <==> |s| >= 2
    ensures DigitOf(s[|s| - 1]) == n % 10
    ensures |s| >= 2 ==> s[0] != '0'
    decreases n
  {
    if n < 10 then [DigitChar(n)] else DecimalText(n / 10) + [DigitChar(n % 10)]
  }

  /** The value of a decimal digit string, as `Number` reads it. */
  function DecimalValue(s: string): nat
    requires AllDigits(s)
  {
    if |s| == 0 then 0 else DecimalValue(s[..|s| - 1]) * 10 + DigitOf(s[|s| - 1])
  }

  /** Reading a number's decimal spelling gives the number back. */
  lemma {:induction false} DecimalRoundTrip(n: nat)
    ensures DecimalValue(DecimalText(n)) == n
    decreases n
  {
    var s := DecimalText(n);
    if n >= 10 {
      assert s[..|s| - 1] == DecimalText(n / 10);
      DecimalRoundTrip(n / 10);
    } else {
      assert s[..|s| - 1] == [];
    }
  }

  /** Distinct numbers are spelled differently. */
  lemma DecimalTextInjective(m: nat, n: nat)
    requires DecimalText(m) == DecimalText(n)
    ensures m == n
  {
    DecimalRoundTrip(m);
    DecimalRoundTrip(n);
  }
}
