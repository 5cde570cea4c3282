/**
  The JavaScript semantics the lesson-plan endpoint relies on: decoded JSON
  values, truthiness (`!x`, `x || d`), property reads, `String(x)` as used by
  template literals, `String.prototype.trim` and `parseInt` without a radix.
 */
module Js {

  datatype Option<T> = None | Some(value: T)

  /** The outcome of a computation that may throw an `Error` with a message. */
  datatype Result<T> = Ok(value: T) | Err(message: string)

  /** A decoded JSON value. Numbers are integers in this model. */
  datatype Json =
    | JNull
    | JBool(b: bool)
    | JNum(n: int)
    | JStr(s: string)
    | JArr(elems: seq<Json>)
    | JObj(fields: map<string, Json>)

  /** What `JSON.parse` or `Request.json` yields: a value, or the SyntaxError it throws. */
  datatype Decoded = Parsed(value: Json) | SyntaxError(message: string)

  /** JavaScript ToBoolean of a value that may be `undefined` (None). */
  predicate Truthy(v: Option<Json>)
  {
    match v
    case None => false
    case Some(JNull) => false
    case Some(JBool(b)) => b
    case Some(JNum(n)) => n != 0
    case Some(JStr(s)) => s != ""
    case Some(JArr(_)) => true
    case Some(JObj(_)) => true
  }

  /** The five falsy values a decoded JSON value can take, plus `undefined`. */
  lemma FalsyValues(v: Option<Json>)
    ensures !Truthy(v) <==>
      v in {None, Some(JNull), Some(JBool(false)), Some(JNum(0)), Some(JStr(""))}
  {
  }

  /** The property names the endpoint reads. None of them is an inherited
      property of a string, an array or `Object.prototype`, so reading one of
      them from anything but an object that owns it gives `undefined`. */
  const PropertyNames: set<string> :=
    {"topic", "grade_level", "subject", "learning_context", "duration_minutes",
     "ludic_introduction", "bncc_goal", "step_by_step", "rubric_evaluation"}

  /** `v[key]` on a value that is not null: an own property of an object, else `undefined`. */
  function Field(v: Json, key: string): (r: Option<Json>)
    requires key in PropertyNames
    ensures r.Some? <==> v.JObj? && key in v.fields
    ensures r.Some? ==> r.value == v.fields[key]
  {
    if v.JObj? && key in v.fields then Some(v.fields[key]) else None
  }

  /** The TypeError message V8 gives for reading a property of `null`. */
  function ReadOfNullMessage(key: string): string
  {
    "Cannot read properties of null (reading '" + key + "')"
  }

  /** `v.key`, which throws a TypeError when `v` is null. */
  function GetProperty(v: Json, key: string): (r: Result<Option<Json>>)
    requires key in PropertyNames
    ensures r.Err? <==> v == JNull
    ensures r.Err? ==> r.message == ReadOfNullMessage(key)
    ensures r.Ok? ==> r.value == Field(v, key)
  {
    if v == JNull then Err(ReadOfNullMessage(key)) else Ok(Field(v, key))
  }

  // ----- String(x) -----

  function DigitChar(d: nat): (c: char)
    requires d < 10
  {
    ['0', '1', '2', '3', '4', '5', '6', '7', '8', '9'][d]
  }

  predicate IsDecimalDigit(c: char)
  {
    '0' <= c <= '9'
  }

  /** Decimal digits of a natural number, most significant first, no leading zero. */
  function NatToDecimal(n: nat): (s: string)
    ensures |s| >= 1
    ensures forall i | 0 <= i < |s| :: IsDecimalDigit(s[i])
    ensures n >= 10 ==> s[0] != '0'
    decreases n
  {
    if n < 10 then [DigitChar(n)] else NatToDecimal(n / 10) + [DigitChar(n % 10)]
  }

  /** Number::toString for an integer value: an optional minus sign, then the digits. */
  function IntToDecimal(n: int): string
  {
    if n < 0 then "-" + NatToDecimal(-n) else NatToDecimal(n)
  }

  /** The TypeError V8 throws when ToPrimitive finds no callable method giving a primitive. */
  const ConvertToPrimitiveMessage := "Cannot convert object to primitive value"

  /** A value ToString converts without throwing. An object is converted by
      calling its `toString`; a decoded object with its own "toString" key
      holds a value there that cannot be called, so the conversion falls back
      to `valueOf`, which gives back the object itself, and throws. Arrays
      convert their elements. */
  predicate Convertible(j: Json)
    decreases j
  {
    match j
    case JObj(fields) => "toString" !in fields
    case JArr(a) => forall i | 0 <= i < |a| :: Convertible(a[i])
    case _ => true
  }

  /** ToString of a JSON value, as a template literal, `String(x)` or
      `parseInt` applies it. */
  function ToString(j: Json): (r: Result<string>)
    ensures r.Ok? <==> Convertible(j)
    ensures r.Err? ==> r.message == ConvertToPrimitiveMessage
    decreases j
  {
    match j
    case JNull => Ok("null")
    case JBool(b) => Ok(if b then "true" else "false")
    case JNum(n) => Ok(IntToDecimal(n))
    case JStr(s) => Ok(s)
    case JArr(a) => JoinElements(a)
    case JObj(fields) =>
      if "toString" in fields then Err(ConvertToPrimitiveMessage) else Ok("[object Object]")
  }

  /** `Array.prototype.join(",")`: null elements contribute the empty string;
      the first element that cannot be converted throws. */
  function JoinElements(a: seq<Json>): (r: Result<string>)
    ensures r.Ok? <==> forall i | 0 <= i < |a| :: Convertible(a[i])
    ensures r.Err? ==> r.message == ConvertToPrimitiveMessage
    decreases a
  {
    if |a| == 0 then Ok("")
    else
      var first := if a[0] == JNull then Ok("") else ToString(a[0]);
      match first
      case Err(m) => Err(m)
      case Ok(head) =>
        if |a| == 1 then Ok(head)
        else
          match JoinElements(a[1..])
          case Err(m) =>
            assert forall i | 0 <= i < |a| - 1 :: a[1..][i] == a[i + 1];
            Err(m)
          case Ok(tail) =>
            assert forall i | 1 <= i < |a| :: a[i] == a[1..][i - 1];
            Ok(head + "," + tail)
  }

  /** A template-literal substitution `${v}`: `undefined` prints as "undefined". */
  function Interpolate(v: Option<Json>): (r: Result<string>)
    ensures v.None? ==> r == Ok("undefined")
    ensures v.Some? ==> r == ToString(v.value)
  {
    if v.Some? then ToString(v.value) else Ok("undefined")
  }

  /** `${v || fallback}`: only a truthy value is converted. */
  function InterpolateOr(v: Option<Json>, fallback: string): (r: Result<string>)
    ensures Truthy(v) ==> r == ToString(v.value)
    ensures !Truthy(v) ==> r == Ok(fallback)
  {
    if Truthy(v) then ToString(v.value) else Ok(fallback)
  }

  // ----- whitespace and trim -----

  /** StrWhiteSpaceChar of ECMAScript: WhiteSpace (including every Zs code point) and LineTerminator. */
  predicate IsWhiteSpace(c: char)
  {
    c in {'\t', '\U{B}', '\U{C}', ' ', '\U{A0}', '\U{FEFF}', '\U{1680}', '\U{202F}', '\U{205F}', '\U{3000}',
          '\n', '\r', '\U{2028}', '\U{2029}'}
    || '\U{2000}' <= c <= '\U{200A}'
  }

  function TrimStart(s: string): (r: string)
    ensures |r| <= |s| && r == s[|s| - |r|..]
    ensures r == [] || !IsWhiteSpace(r[0])
    ensures forall i | 0 <= i < |s| - |r| :: IsWhiteSpace(s[i])
    decreases |s|
  {
    if |s| > 0 && IsWhiteSpace(s[0]) then TrimStart(s[1..]) else s
  }

  function TrimEnd(s: string): (r: string)
    ensures |r| <= |s| && r == s[..|r|]
    ensures r == [] || !IsWhiteSpace(r[|r| - 1])
    ensures forall i | |r| <= i < |s| :: IsWhiteSpace(s[i])
    decreases |s|
  {
    if |s| > 0 && IsWhiteSpace(s[|s| - 1]) then TrimEnd(s[..|s| - 1]) else s
  }

  /** `String.prototype.trim`. */
  function Trim(s: string): (r: string)
    ensures |r| <= |s|
    ensures r == [] || (!IsWhiteSpace(r[0]) && !IsWhiteSpace(r[|r| - 1]))
    ensures r == [] ==> forall i | 0 <= i < |s| :: IsWhiteSpace(s[i])
  {
    TrimEnd(TrimStart(s))
  }

  /** Leading whitespace is what TrimStart removes, whatever follows it. */
  lemma {:induction false} TrimStartSkipsWhiteSpace(ws: string, s: string)
    requires forall i | 0 <= i < |ws| :: IsWhiteSpace(ws[i])
    ensures TrimStart(ws + s) == TrimStart(s)
    decreases |ws|
  {
    if |ws| > 0 {
      assert (ws + s)[1..] == ws[1..] + s;
      TrimStartSkipsWhiteSpace(ws[1..], s);
    } else {
      assert ws + s == s;
    }
  }

  /** Trimming a text wrapped in whitespace gives the text back when it starts
      and ends with something other than whitespace. */
  lemma TrimUnwraps(pre: string, s: string, post: string)
    requires forall i | 0 <= i < |pre| :: IsWhiteSpace(pre[i])
    requires forall i | 0 <= i < |post| :: IsWhiteSpace(post[i])
    requires |s| > 0 && !IsWhiteSpace(s[0]) && !IsWhiteSpace(s[|s| - 1])
    ensures Trim(pre + s + post) == s
  {
    var t := TrimStart(pre + s + post);
    assert pre + s + post == pre + (s + post);
    TrimStartSkipsWhiteSpace(pre, s + post);
    assert TrimStart(s + post) == s + post by {
      assert (s + post)[0] == s[0];
    }
    TrimEndSkipsWhiteSpace(s, post);
  }

  lemma {:induction false} TrimEndSkipsWhiteSpace(s: string, ws: string)
    requires forall i | 0 <= i < |ws| :: IsWhiteSpace(ws[i])
    requires |s| > 0 && !IsWhiteSpace(s[|s| - 1])
    ensures TrimEnd(s + ws) == s
    decreases |ws|
  {
    if |ws| > 0 {
      var w := ws[..|ws| - 1];
      assert (s + ws)[..|s + ws| - 1] == s + w;
      TrimEndSkipsWhiteSpace(s, w);
    } else {
      assert s + ws == s;
    }
  }

  // ----- parseInt -----

  /** A Number as far as this model needs one: NaN or an integer. */
  datatype NumberValue = NaN | Finite(value: int)

  /** `x < bound` on a Number; every comparison with NaN is false. */
  predicate LessThan(x: NumberValue, bound: int)
  {
    x.Finite? && x.value < bound
  }

  /** The value of a digit character in radices up to 36 (36 stands for "not a digit"). */
  function DigitValue(c: char): (d: nat)
    ensures '0' <= c <= '9' ==> d == c as int - '0' as int
    ensures 'a' <= c <= 'z' ==> d == c as int - 'a' as int + 10
    ensures 'A' <= c <= 'Z' ==> d == c as int - 'A' as int + 10
    ensures d <= 36
    ensures d == 36 <==> !('0' <= c <= '9' || 'a' <= c <= 'z' || 'A' <= c <= 'Z')
  {
    if '0' <= c <= '9' then (c as int) - ('0' as int)
    else if 'a' <= c <= 'z' then (c as int) - ('a' as int) + 10
    else if 'A' <= c <= 'Z' then (c as int) - ('A' as int) + 10
    else 36
  }

  predicate IsDigitIn(c: char, radix: nat)
  {
    DigitValue(c) < radix
  }

  /** Length of the longest prefix of `s` made of digits of `radix`. */
  function DigitPrefixLength(s: string, radix: nat): (n: nat)
    ensures n <= |s|
    ensures forall i | 0 <= i < n :: IsDigitIn(s[i], radix)
    ensures n == |s| || !IsDigitIn(s[n], radix)
    decreases |s|
  {
    if |s| > 0 && IsDigitIn(s[0], radix) then 1 + DigitPrefixLength(s[1..], radix) else 0
  }

  /** The value of a string of digits in `radix`, most significant first. */
  function DigitsValue(s: string, radix: nat): nat
    decreases |s|
  {
    if |s| == 0 then 0
    else DigitsValue(s[..|s| - 1], radix) * radix + DigitValue(s[|s| - 1])
  }

  /** `parseInt(s)` without a radix: skip leading whitespace, read one optional
      sign, read a "0x"/"0X" prefix as radix 16 (radix 10 otherwise), then take
      the longest digit prefix; no digit at all gives NaN. */
  function ParseInt(s: string): NumberValue
  {
    ParseSigned(TrimStart(s))
  }

  function ParseSigned(t: string): NumberValue
  {
    if |t| > 0 && t[0] == '-' then Negate(ParseUnsigned(t[1..]))
    else if |t| > 0 && t[0] == '+' then ParseUnsigned(t[1..])
    else ParseUnsigned(t)
  }

  function Negate(x: NumberValue): NumberValue
  {
    if x.Finite? then Finite(-x.value) else NaN
  }

  predicate HasHexPrefix(u: string)
  {
    |u| >= 2 && u[0] == '0' && (u[1] == 'x' || u[1] == 'X')
  }

  function ParseUnsigned(u: string): NumberValue
  {
    if HasHexPrefix(u) then ParseDigits(u[2..], 16) else ParseDigits(u, 10)
  }

  function ParseDigits(s: string, radix: nat): NumberValue
  {
    var n := DigitPrefixLength(s, radix);
    if n == 0 then NaN else Finite(DigitsValue(s[..n], radix))
  }

  lemma {:induction false} NatToDecimalValue(n: nat)
    ensures DigitsValue(NatToDecimal(n), 10) == n
    decreases n
  {
    var s := NatToDecimal(n);
    if n < 10 {
      assert s[..0] == [];
    } else {
      NatToDecimalValue(n / 10);
      assert s[..|s| - 1] == NatToDecimal(n / 10);
    }
  }

  lemma {:induction false} DigitPrefixOfDecimal(d: string, rest: string)
    requires forall i | 0 <= i < |d| :: IsDecimalDigit(d[i])
    requires rest == [] || !IsDecimalDigit(rest[0])
    ensures DigitPrefixLength(d + rest, 10) == |d|
    decreases |d|
  {
    if |d| == 0 {
      assert d + rest == rest;
    } else {
      assert (d + rest)[0] == d[0];
      assert (d + rest)[1..] == d[1..] + rest;
      DigitPrefixOfDecimal(d[1..], rest);
    }
  }

  /** The decimal digits of a natural number, followed by text that does not
      extend them, read back as that number. */
  lemma ParseDigitsOfDecimal(m: nat, rest: string)
    requires rest == [] || !IsDecimalDigit(rest[0])
    ensures ParseDigits(NatToDecimal(m) + rest, 10) == Finite(m)
  {
    var d := NatToDecimal(m);
    DigitPrefixOfDecimal(d, rest);
    assert (d + rest)[..|d|] == d;
    NatToDecimalValue(m);
  }

  lemma NoTrimBeforeSignOrDigit(s: string)
    requires |s| > 0 && (s[0] == '-' || IsDecimalDigit(s[0]))
    ensures TrimStart(s) == s
  {
    assert !IsWhiteSpace(s[0]);
  }

  /** parseInt reads back what Number::toString writes for an integer, even
      followed by text, as long as that text does not extend the digits (or
      turn a lone "0" into a hexadecimal prefix). */
  lemma ParseIntReadsDecimal(n: int, rest: string)
    requires rest == [] || !IsDecimalDigit(rest[0])
    requires n == 0 ==> rest == [] || (rest[0] != 'x' && rest[0] != 'X')
    ensures ParseInt(IntToDecimal(n) + rest) == Finite(n)
  {
    var m: nat := if n < 0 then -n else n;
    var d := NatToDecimal(m);
    var u := d + rest;
    assert u[0] == d[0];
    assert !HasHexPrefix(u) by {
      if |u| >= 2 && u[0] == '0' {
        assert |d| == 1;
        assert u[1] == rest[0];
      }
    }
    ParseDigitsOfDecimal(m, rest);
    assert ParseUnsigned(u) == Finite(m);
    var s := IntToDecimal(n) + rest;
    if n < 0 {
      assert s == "-" + u;
      assert s[1..] == u;
      assert ParseSigned(s) == Finite(n);
    } else {
      assert s == u;
      assert ParseSigned(s) == Finite(n);
    }
    NoTrimBeforeSignOrDigit(s);
  }

  lemma ParseUnsignedWithoutDigits(u: string)
    requires forall i | 0 <= i < |u| :: !IsDecimalDigit(u[i])
    ensures ParseUnsigned(u) == NaN
  {
    if |u| > 0 {
      assert !IsDigitIn(u[0], 10);
    }
  }

  /** A string with no decimal digit at all parses to NaN. */
  lemma ParseIntWithoutDigits(s: string)
    requires forall i | 0 <= i < |s| :: !IsDecimalDigit(s[i])
    ensures ParseInt(s) == NaN
  {
    var t := TrimStart(s);
    assert forall i | 0 <= i < |t| :: t[i] == s[|s| - |t| + i];
    if |t| > 0 && (t[0] == '-' || t[0] == '+') {
      ParseUnsignedWithoutDigits(t[1..]);
    } else {
      ParseUnsignedWithoutDigits(t);
    }
  }

  /** Leading whitespace never changes what parseInt reads. */
  lemma ParseIntSkipsWhiteSpace(ws: string, s: string)
    requires forall i | 0 <= i < |ws| :: IsWhiteSpace(ws[i])
    ensures ParseInt(ws + s) == ParseInt(s)
  {
    TrimStartSkipsWhiteSpace(ws, s);
  }
}
