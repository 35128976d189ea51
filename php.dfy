/** The pieces of PHP value semantics the router relies on, over JSON values
    decoded with `json_decode($body, true)` (objects become associative
    arrays, so `JObj` is an array with string keys and `JArr` a list). */
module Php {
  import opened Wrappers
  import opened Json
  import opened Text

  /** `$v[$k]` on a read where a missing key, or a value that is not an array,
      gives null. (Keys here are never numeric, so a list never holds them.) */
  function Index(v: Json, k: string): (r: Json)
    ensures r != JNull ==> v.JObj? && k in v.fields && r == v.fields[k]
  {
    if v.JObj? && k in v.fields then v.fields[k] else JNull
  }

  /** `isset($v[$k])`: the key is there and its value is not null. */
  predicate IsSet(v: Json, k: string)
  {
    Index(v, k) != JNull
  }

  /** `empty($v)`: null, false, 0, `""`, `"0"` and the empty array. */
  predicate Empty(v: Json)
  {
    match v
    case JNull => true
    case JBool(b) => !b
    case JInt(n) => n == 0
    case JStr(s) => s == "" || s == "0"
    case JArr(items) => items == []
    case JObj(fields) => fields == map[]
  }

  /** `isset($v[$k]) ? $v[$k] : ''`, which is also `$v[$k] ?? ''`. */
  function OrEmpty(v: Json, k: string): (r: Json)
    ensures r != JNull
    ensures IsSet(v, k) ==> r == Index(v, k)
    ensures !IsSet(v, k) ==> r == JStr("")
  {
    if IsSet(v, k) then Index(v, k) else JStr("")
  }

  /** String conversion of a value in `"%" . $v . "%"`. */
  function ToText(v: Json): string
  {
    match v
    case JNull => ""
    case JBool(b) => if b then "1" else ""
    case JInt(n) => IntText(n)
    case JStr(s) => s
    case JArr(_) => "Array"
    case JObj(_) => "Array"
  }

  /** White space `intval` skips before a number. */
  predicate IsPhpSpace(c: char)
  {
    c == ' ' || c == '\t' || c == '\n' || c == '\r' || c == '\U{000B}' || c == '\U{000C}'
  }

  function SkipPhpSpace(s: string): (r: string)
    ensures |r| <= |s| && r == s[|s| - |r|..]
    ensures r != [] ==> !IsPhpSpace(r[0])
    decreases |s|
  {
    if s != [] && IsPhpSpace(s[0]) then SkipPhpSpace(s[1..]) else s
  }

  /** The longest prefix of decimal digits. */
  function LeadingDigits(s: string): (r: string)
    ensures StartsWith(s, r)
    ensures forall k :: 0 <= k < |r| ==> IsDigit(r[k])
    ensures |r| < |s| ==> !IsDigit(s[|r|])
    decreases |s|
  {
    if s != [] && IsDigit(s[0]) then [s[0]] + LeadingDigits(s[1..]) else []
  }

  /** `intval` of a string: optional white space, an optional sign, then the
      leading digits; 0 when there are none. */
  function LeadingInt(s: string): int
  {
    var t := SkipPhpSpace(s);
    if t != [] && t[0] == '-' then -(DecimalValue(LeadingDigits(t[1..])) as int)
    else if t != [] && t[0] == '+' then DecimalValue(LeadingDigits(t[1..]))
    else DecimalValue(LeadingDigits(t))
  }

  /** `intval($v)`. */
  function Intval(v: Json): int
  {
    match v
    case JNull => 0
    case JBool(b) => if b then 1 else 0
    case JInt(n) => n
    case JStr(s) => LeadingInt(s)
    case JArr(items) => if items == [] then 0 else 1
    case JObj(fields) => if fields == map[] then 0 else 1
  }

  /** A string of digits is its own leading-digit prefix. */
  lemma {:induction false} LeadingDigitsAll(s: string)
    requires forall k :: 0 <= k < |s| ==> IsDigit(s[k])
    ensures LeadingDigits(s) == s
    decreases |s|
  {
    if s != [] {
      assert forall k :: 0 <= k < |s| - 1 ==> s[1..][k] == s[k + 1];
      LeadingDigitsAll(s[1..]);
    }
  }

  /** `intval` reads back the rendering of any integer. */
  lemma IntvalRoundTrip(n: int)
    ensures Intval(JStr(IntText(n))) == n
  {
    if n < 0 {
      LeadingIntNegative(-n);
    } else {
      LeadingIntDecimal(n);
    }
  }

  lemma LeadingIntDecimal(m: nat)
    ensures LeadingInt(Decimal(m)) == m
  {
    var d := Decimal(m);
    LeadingDigitsAll(d);
    DecimalRoundTrip(m);
    LeadingIntDigits(d);
  }

  /** A text that starts with a digit is read as its leading digits. */
  lemma LeadingIntDigits(d: string)
    requires d != [] && IsDigit(d[0])
    ensures LeadingInt(d) == DecimalValue(LeadingDigits(d))
  {
    assert !IsPhpSpace(d[0]) && d[0] != '-' && d[0] != '+';
    assert SkipPhpSpace(d) == d;
  }

  lemma LeadingIntNegative(m: nat)
    ensures LeadingInt("-" + Decimal(m)) == -(m as int)
  {
    var d := Decimal(m);
    var s := "-" + d;
    LeadingDigitsAll(d);
    DecimalRoundTrip(m);
    assert SkipPhpSpace(s) == s;
    assert s[1..] == d;
  }

  /** `implode($sep, $xs)`. */
  function Join(xs: seq<string>, sep: string): string
    decreases |xs|
  {
    if xs == [] then "" else if |xs| == 1 then xs[0] else xs[0] + sep + Join(xs[1..], sep)
  }
}
