/** JavaScript values and the few built-in JavaScript behaviours the kiosk code relies on:
    truthiness, property access, `typeof`, template-literal string conversion,
    `String.prototype.trim`, decimal printing of integers and the 32-bit
    conversion `setTimeout` applies to its delay. */
module Js {

  datatype Option<+T> = None | Some(value: T)

  /** A value as `JSON.parse` produces it. Numbers are integers here. */
  datatype Json =
    | JNull
    | JBool(b: bool)
    | JNum(n: int)
    | JStr(s: string)
    | JArr(items: seq<Json>)
    | JObj(fields: map<string, Json>)

  /** What a foreign JSON parser returns: the value, or the message of the exception it threw. */
  datatype JsonParse = Parsed(value: Json) | ParseFailed(error: string)

  /** JavaScript ToBoolean (`!v` is `!Truthy(v)`). */
  predicate Truthy(v: Json) {
    match v
    case JNull => false
    case JBool(b) => b
    case JNum(n) => n != 0
    case JStr(s) => s != ""
    case JArr(_) => true
    case JObj(_) => true
  }

  /** `typeof v === "object"`: true of null, arrays and objects. */
  predicate IsObjectType(v: Json) {
    v.JNull? || v.JArr? || v.JObj?
  }

  /** `v[key]` for a non-null `v` and one of the plain field names the kiosk uses;
      None stands for `undefined`. Only objects have such fields. */
  function Prop(v: Json, key: string): (p: Option<Json>)
    ensures p.Some? <==> v.JObj? && key in v.fields
  {
    if v.JObj? && key in v.fields then Some(v.fields[key]) else None
  }

  /** `p == null` (loose equality): undefined or null. */
  predicate Nullish(p: Option<Json>) {
    p.None? || p == Some(JNull)
  }

  /** `p ?? d` */
  function OrElse(p: Option<Json>, d: Json): (r: Json)
    ensures Nullish(p) ==> r == d
    ensures !Nullish(p) ==> Some(r) == p
  {
    if Nullish(p) then d else p.value
  }

  /** `typeof p === "string"`, with the string. */
  predicate IsString(p: Option<Json>) {
    p.Some? && p.value.JStr?
  }

  /** `typeof p === "number"` */
  predicate IsNumber(p: Option<Json>) {
    p.Some? && p.value.JNum?
  }

  // ---------------------------------------------------------------------------
  // Decimal printing of integers, as `${n}` does

  function DigitChar(d: nat): (c: char)
    requires d < 10
    ensures '0' <= c <= '9' && c as int - '0' as int == d
  {
    (d + '0' as int) as char
  }

  predicate AllDigits(s: string) {
    forall i :: 0 <= i < |s| ==> '0' <= s[i] <= '9'
  }

  function NatToString(n: nat): (s: string)
    ensures |s| >= 1 && AllDigits(s)
  {
    if n < 10 then [DigitChar(n)] else NatToString(n / 10) + [DigitChar(n % 10)]
  }

  /** The value of a string of decimal digits. */
  function DigitsValue(s: string): nat
    requires AllDigits(s)
  {
    if |s| == 0 then 0 else DigitsValue(s[..|s| - 1]) * 10 + (s[|s| - 1] as int - '0' as int)
  }

  lemma {:induction false} NatToStringRoundTrip(n: nat)
    ensures DigitsValue(NatToString(n)) == n
  {
    var s := NatToString(n);
    if n >= 10 {
      NatToStringRoundTrip(n / 10);
      assert s[..|s| - 1] == NatToString(n / 10);
    }
  }

  function IntToString(n: int): (s: string)
    ensures |s| >= 1
    ensures n < 0 <==> s[0] == '-'
  {
    if n < 0 then "-" + NatToString(-n) else NatToString(n)
  }

  lemma NatToStringInjective(a: nat, b: nat)
    requires NatToString(a) == NatToString(b)
    ensures a == b
  {
    NatToStringRoundTrip(a);
    NatToStringRoundTrip(b);
  }

  /** Distinct integers print differently, so every message that embeds a number
      determines that number. */
  lemma IntToStringInjective(a: int, b: int)
    requires IntToString(a) == IntToString(b)
    ensures a == b
  {
    var s := IntToString(a);
    if a < 0 {
      assert b < 0;
      var ta, tb := NatToString(-a), NatToString(-b);
      assert s == "-" + ta && s == "-" + tb;
      assert ta == s[1..] && tb == s[1..];
      NatToStringInjective(-a, -b);
    } else {
      assert b >= 0;
      NatToStringInjective(a, b);
    }
  }

  // ---------------------------------------------------------------------------
  // Template-literal conversion (`${v}`, `String(v)`, and what `new URL(v)` sees)

  function Join(parts: seq<string>, sep: string): string {
    if |parts| == 0 then "" else if |parts| == 1 then parts[0] else parts[0] + sep + Join(parts[1..], sep)
  }

  /** JavaScript ToString of a JSON value; an array is joined with "," with null items empty. */
  function JsString(v: Json): string
    decreases v
  {
    match v
    case JNull => "null"
    case JBool(b) => if b then "true" else "false"
    case JNum(n) => IntToString(n)
    case JStr(s) => s
    case JArr(items) =>
      Join(seq(|items|, i requires 0 <= i < |items| => if items[i] == JNull then "" else JsString(items[i])), ",")
    case JObj(_) => "[object Object]"
  }

  /** ToString of a property that may be undefined. */
  function PropString(p: Option<Json>): (s: string)
    ensures p.None? ==> s == "undefined"
    ensures IsString(p) ==> s == p.value.s
  {
    if p.None? then "undefined" else JsString(p.value)
  }

  // ---------------------------------------------------------------------------
  // String.prototype.trim

  /** The characters `trim` removes: WhiteSpace and LineTerminator of ECMAScript. */
  predicate IsTrimmable(c: char) {
    c == '\t' || c == '\n' || c == '\U{B}' || c == '\U{C}' || c == '\r' || c == ' '
    || c == '\U{A0}' || c == '\U{1680}' || ('\U{2000}' <= c <= '\U{200A}')
    || c == '\U{2028}' || c == '\U{2029}' || c == '\U{202F}' || c == '\U{205F}'
    || c == '\U{3000}' || c == '\U{FEFF}'
  }

  function TrimStart(s: string): (r: string)
    ensures |r| <= |s|
    ensures r == s[|s| - |r|..]
  {
    if |s| > 0 && IsTrimmable(s[0]) then TrimStart(s[1..]) else s
  }

  function TrimEnd(s: string): (r: string)
    ensures |r| <= |s|
    ensures r == s[..|r|]
  {
    if |s| > 0 && IsTrimmable(s[|s| - 1]) then TrimEnd(s[..|s| - 1]) else s
  }

  function Trim(s: string): string {
    TrimEnd(TrimStart(s))
  }

  predicate IsBlank(s: string) {
    forall i :: 0 <= i < |s| ==> IsTrimmable(s[i])
  }

  lemma {:induction false} TrimEndEmptyIff(s: string)
    ensures TrimEnd(s) == "" <==> IsBlank(s)
  {
    if |s| > 0 && IsTrimmable(s[|s| - 1]) {
      TrimEndEmptyIff(s[..|s| - 1]);
      assert IsBlank(s) <==> IsBlank(s[..|s| - 1]) by {
        if IsBlank(s[..|s| - 1]) {
          forall i | 0 <= i < |s| ensures IsTrimmable(s[i]) {
            if i < |s| - 1 { assert s[i] == s[..|s| - 1][i]; }
          }
        }
      }
    }
  }

  lemma {:induction false} TrimStartBlank(s: string)
    ensures IsBlank(TrimStart(s)) <==> IsBlank(s)
  {
    if |s| > 0 && IsTrimmable(s[0]) {
      TrimStartBlank(s[1..]);
      assert IsBlank(s) <==> IsBlank(s[1..]) by {
        if IsBlank(s[1..]) {
          forall i | 0 <= i < |s| ensures IsTrimmable(s[i]) {
            if i > 0 { assert s[i] == s[1..][i - 1]; }
          }
        }
      }
    }
  }

  /** `!s.trim()` holds exactly for strings made only of whitespace (the empty string included). */
  lemma TrimEmptyIff(s: string)
    ensures Trim(s) == "" <==> IsBlank(s)
  {
    TrimEndEmptyIff(TrimStart(s));
    TrimStartBlank(s);
  }

  // ---------------------------------------------------------------------------
  // setTimeout delays

  const INT32_MAX := 0x7FFF_FFFF

  /** ECMAScript ToInt32 on an integer: wrap into [-2^31, 2^31). */
  function ToInt32(n: int): (r: int)
    ensures -0x8000_0000 <= r <= INT32_MAX
    ensures (r - n) % 0x1_0000_0000 == 0
  {
    var m := n % 0x1_0000_0000;
    if m <= INT32_MAX then m else m - 0x1_0000_0000
  }

  /** The delay after which `setTimeout(f, ms)` runs `f`: the WebIDL `long`
      conversion wraps the argument to 32 bits and a negative result counts as 0. */
  function TimerDelay(ms: int): (d: int)
    ensures 0 <= d <= INT32_MAX
    ensures 0 <= ms <= INT32_MAX ==> d == ms
    ensures ms < 0 && -0x8000_0000 <= ms ==> d == 0
  {
    var w := ToInt32(ms);
    if w < 0 then 0 else w
  }
}
