/**
 * JavaScript values as the workflow sees them: Mongo documents, request
 * payloads and their loosely typed fields, together with the conversions the
 * source applies to them (`Number`, `Number.parseFloat`, `String`, truthiness,
 * optional chaining, `instanceof Object`, `Object.keys`).
 *
 * A property that is absent (`undefined`) is `None`; JavaScript's NaN is `None`
 * in an `Option<real>`.
 */
module JsValues {
  import opened Wrappers
  import opened Failures

  /** A JSON/BSON value as stored in a document, a payload or a jsonb column. */
  datatype Json =
    | JNull
    | JBool(b: bool)
    | JNum(n: real)
    | JStr(s: string)
    | JOid(oid: string)
    | JDate(ms: int)
    | JArr(items: seq<Json>)
    | JObj(fields: map<string, Json>)

  type Fields = map<string, Json>

  /** Property read on a plain object: `o[key]`. */
  function Get(m: Fields, key: string): (v: Option<Json>)
    ensures v.Some? <==> key in m
    ensures v.Some? ==> v.value == m[key]
  {
    if key in m then Some(m[key]) else None
  }

  /** `v.key`: a TypeError on null or undefined, undefined on a primitive. */
  function Member(v: Option<Json>, key: string): (r: Result<Option<Json>, Error>)
    ensures r.Err? <==> (v == None || v == Some(JNull))
    ensures r.Ok? && r.value.Some? ==> v.Some? && v.value.JObj? && key in v.value.fields
  {
    match v
    case None => Err(TypeError)
    case Some(JNull) => Err(TypeError)
    case Some(JObj(m)) => Ok(Get(m, key))
    case Some(_) => Ok(None)
  }

  /** `v?.key`: undefined whenever `v` is not an object holding `key`. */
  function OptionalMember(v: Option<Json>, key: string): (r: Option<Json>)
    ensures r.Some? <==> v.Some? && v.value.JObj? && key in v.value.fields
  {
    match v
    case Some(JObj(m)) => Get(m, key)
    case _ => None
  }

  /** JavaScript truthiness: undefined, null, false, 0 and "" are the only falsy values. */
  function Truthy(v: Option<Json>): (b: bool)
    ensures !b <==> v in {None, Some(JNull), Some(JBool(false)), Some(JNum(0.0)), Some(JStr(""))}
  {
    match v
    case None => false
    case Some(JNull) => false
    case Some(JBool(b)) => b
    case Some(JNum(n)) => n != 0.0
    case Some(JStr(s)) => |s| > 0
    case Some(_) => true
  }

  /** `v instanceof Object`: arrays, plain objects, dates and ObjectIds. */
  predicate IsObject(v: Option<Json>)
  {
    v.Some? && (v.value.JArr? || v.value.JObj? || v.value.JDate? || v.value.JOid?)
  }

  /** `Object.keys(v).length` for an object `v` (a Date or an ObjectId has no enumerable keys). */
  function KeyCount(v: Option<Json>): nat
  {
    match v
    case Some(JObj(m)) => |m|
    case Some(JArr(items)) => |items|
    case _ => 0
  }

  // ---------------------------------------------------------------------------
  // Decimal digits

  predicate IsDigit(c: char) { '0' <= c <= '9' }

  predicate AllDigits(s: string) { forall i :: 0 <= i < |s| ==> IsDigit(s[i]) }

  function DigitValue(c: char): nat
    requires IsDigit(c)
  {
    c as int - '0' as int
  }

  function DigitChar(d: nat): (c: char)
    requires d < 10
    ensures IsDigit(c) && DigitValue(c) == d
  {
    ('0' as int + d) as char
  }

  /** Length of the run of decimal digits at the start of `s`. */
  function LeadingDigits(s: string): (n: nat)
    ensures n <= |s|
    ensures AllDigits(s[..n])
    ensures n < |s| ==> !IsDigit(s[n])
  {
    if |s| == 0 || !IsDigit(s[0]) then 0
    else
      var k := LeadingDigits(s[1..]);
      assert s[1..][..k] == s[1..k + 1];
      1 + k
  }

  /** The natural number a run of digits denotes. */
  function DigitsValue(d: string): nat
    requires AllDigits(d)
  {
    if |d| == 0 then 0
    else 10 * DigitsValue(d[..|d| - 1]) + DigitValue(d[|d| - 1])
  }

  /** The value of the digits after a decimal point: 0.d1d2d3... */
  function FractionValue(d: string): (r: real)
    requires AllDigits(d)
    ensures 0.0 <= r <= 1.0
  {
    if |d| == 0 then 0.0
    else (DigitValue(d[0]) as real + FractionValue(d[1..])) / 10.0
  }

  /** Decimal text of a natural number, without leading zeros. */
  function NatText(n: nat): (s: string)
    ensures |s| >= 1 && AllDigits(s)
  {
    if n < 10 then [DigitChar(n)]
    else NatText(n / 10) + [DigitChar(n % 10)]
  }

  /** Decimal text of an integer, as `String(i)` renders it. */
  function IntText(i: int): (s: string)
    ensures |s| >= 1
  {
    if i < 0 then "-" + NatText(-i) else NatText(i)
  }

  lemma {:induction false} NatTextValue(n: nat)
    ensures DigitsValue(NatText(n)) == n
  {
    if n >= 10 {
      var d := NatText(n);
      assert d[..|d| - 1] == NatText(n / 10);
      NatTextValue(n / 10);
    }
  }

  // ---------------------------------------------------------------------------
  // Whitespace

  /**
   * The white space and line terminators that `parseFloat`, `Number` and
   * `trim` skip: tab, line feed, vertical tab, form feed, carriage return,
   * space, no-break space, the Unicode space separators (U+1680, U+2000 to
   * U+200A, U+202F, U+205F, U+3000), the line and paragraph separators and
   * the byte order mark.
   */
  predicate IsWhiteSpace(c: char)
  {
    || c == '\t' || c == '\n' || c == '\U{000B}' || c == '\U{000C}' || c == '\r' || c == ' ' || c == '\U{00A0}'
    || c == '\U{1680}' || ('\U{2000}' <= c <= '\U{200A}') || c == '\U{2028}' || c == '\U{2029}'
    || c == '\U{202F}' || c == '\U{205F}' || c == '\U{3000}' || c == '\U{FEFF}'
  }

  function TrimStart(s: string): (t: string)
    ensures |t| <= |s| && t == s[|s| - |t|..]
    ensures |t| > 0 ==> !IsWhiteSpace(t[0])
  {
    if |s| > 0 && IsWhiteSpace(s[0]) then TrimStart(s[1..]) else s
  }

  function TrimEnd(s: string): (t: string)
    ensures |t| <= |s| && t == s[..|t|]
    ensures forall i :: |t| <= i < |s| ==> IsWhiteSpace(s[i])
    ensures |t| > 0 ==> !IsWhiteSpace(t[|t| - 1])
  {
    if |s| > 0 && IsWhiteSpace(s[|s| - 1]) then TrimEnd(s[..|s| - 1]) else s
  }

  // ---------------------------------------------------------------------------
  // Number parsing

  /** Splits an optional leading sign off `t`: (negative?, rest). */
  function SplitSign(t: string): (bool, string)
  {
    if |t| > 0 && t[0] == '-' then (true, t[1..])
    else if |t| > 0 && t[0] == '+' then (false, t[1..])
    else (false, t)
  }

  /**
   * The unsigned decimal `parseFloat` reads at the start of `u`: digits, an
   * optional point and digits. Whatever follows is ignored.
   */
  function PrefixMagnitude(u: string): (r: Option<real>)
    ensures r.None? <==> !(|u| > 0 && IsDigit(u[0])) && !(|u| > 1 && u[0] == '.' && IsDigit(u[1]))
    ensures r.Some? ==> r.value >= 0.0
  {
    var k := LeadingDigits(u);
    var rest := u[k..];
    var fraction := if |rest| > 0 && rest[0] == '.' then rest[1..][..LeadingDigits(rest[1..])] else "";
    if k == 0 && |fraction| == 0 then None
    else Some(DigitsValue(u[..k]) as real + FractionValue(fraction))
  }

  /** The unsigned decimal `Number` reads from `u`, which must consist of it entirely. */
  function WholeMagnitude(u: string): (r: Option<real>)
    ensures r.Some? ==> r.value >= 0.0
  {
    var k := LeadingDigits(u);
    var rest := u[k..];
    if rest == "" && k > 0 then Some(DigitsValue(u[..k]) as real)
    else if |rest| > 0 && rest[0] == '.' && AllDigits(rest[1..]) && (k > 0 || |rest| > 1)
    then Some(DigitsValue(u[..k]) as real + FractionValue(rest[1..]))
    else None
  }

  /**
   * `Number.parseFloat(s)` on the decimal grammar: leading whitespace, an
   * optional sign, digits, an optional point and digits; the longest such
   * prefix is read and whatever follows is ignored. `None` is NaN.
   */
  function ParseFloat(s: string): (r: Option<real>)
    ensures var u := SplitSign(TrimStart(s)).1;
      r.None? <==> !(|u| > 0 && IsDigit(u[0])) && !(|u| > 1 && u[0] == '.' && IsDigit(u[1]))
    ensures r.Some? && r.value < 0.0 ==> SplitSign(TrimStart(s)).0
  {
    var signed := SplitSign(TrimStart(s));
    WithSign(signed.0, PrefixMagnitude(signed.1))
  }

  /** A magnitude read after a sign: negated after a minus sign, NaN stays NaN. */
  function WithSign(negative: bool, m: Option<real>): (r: Option<real>)
    ensures r.None? <==> m.None?
    ensures r.Some? && m.value >= 0.0 && r.value < 0.0 ==> negative
  {
    match m
    case None => None
    case Some(x) => Some(if negative then -x else x)
  }

  /**
   * `Number(s)` on a string: surrounding whitespace is ignored, the empty
   * string is 0, and otherwise the WHOLE string must be a signed decimal.
   */
  function StringToNumber(s: string): Option<real>
  {
    var t := TrimEnd(TrimStart(s));
    if t == "" then Some(0.0)
    else
      var signed := SplitSign(t);
      WithSign(signed.0, WholeMagnitude(signed.1))
  }

  lemma IntTextShape(i: int)
    ensures SplitSign(IntText(i)) == (i < 0, NatText(if i < 0 then -i else i))
    ensures TrimStart(IntText(i)) == IntText(i)
    ensures TrimEnd(IntText(i)) == IntText(i)
  {
    var d := NatText(if i < 0 then -i else i);
    var t := IntText(i);
    assert IsDigit(d[0]) && IsDigit(d[|d| - 1]);
    if i < 0 {
      assert t == "-" + d;
      assert t[0] == '-' && t[1..] == d && t[|t| - 1] == d[|d| - 1];
    } else {
      assert t == d;
    }
    assert !IsWhiteSpace(t[0]) && !IsWhiteSpace(t[|t| - 1]);
  }

  lemma LeadingDigitsAll(d: string)
    requires AllDigits(d)
    ensures LeadingDigits(d) == |d|
  {
  }

  /** `Number.parseFloat` reads back every integer `String` writes. */
  lemma ParseFloatIntText(i: int)
    ensures ParseFloat(IntText(i)) == Some(i as real)
  {
    IntTextShape(i);
    var n: nat := if i < 0 then -i else i;
    var d := NatText(n);
    LeadingDigitsAll(d);
    assert d[..|d|] == d;
    NatTextValue(n);
  }

  /** `Number` reads back every integer `String` writes. */
  lemma StringToNumberIntText(i: int)
    ensures StringToNumber(IntText(i)) == Some(i as real)
  {
    IntTextShape(i);
    var n: nat := if i < 0 then -i else i;
    var d := NatText(n);
    LeadingDigitsAll(d);
    assert d[..|d|] == d;
    NatTextValue(n);
  }

  // ---------------------------------------------------------------------------
  // Conversions

  /** `Number.isInteger(x)`: a finite number with no fractional part. */
  predicate IsInteger(x: Option<real>)
  {
    x.Some? && x.value.Floor as real == x.value
  }

  /** A real with no fractional part. */
  predicate IsWhole(x: real)
  {
    x.Floor as real == x
  }

  /** `x · 10^k`. */
  function Scaled(x: real, k: nat): real
  {
    x * Pow10(k) as real
  }

  /** `10^k`. */
  function Pow10(k: nat): (p: nat)
    ensures p >= 1
  {
    if k == 0 then 1 else 10 * Pow10(k - 1)
  }

  /** The most digits written after the decimal point of a number that has a fractional part. */
  const MaxFractionDigits: nat := 20

  /**
   * The decimal digits of a fraction `0 <= f < 1`, written until nothing is
   * left or `fuel` digits are written.
   */
  function FractionDigits(f: real, fuel: nat): (d: string)
    requires 0.0 <= f < 1.0
    ensures AllDigits(d) && |d| <= fuel
    ensures 0.0 < f && 0 < fuel ==> |d| > 0
    decreases fuel
  {
    if f == 0.0 || fuel == 0 then ""
    else
      var digit := (10.0 * f).Floor;
      [DigitChar(digit)] + FractionDigits(10.0 * f - digit as real, fuel - 1)
  }

  /**
   * `String(j)`. A number is written as its sign, its integral digits and,
   * when it has a fractional part, a point and the digits of that part; a
   * date as "Date(ms)".
   */
  function JsonText(j: Json): string
  {
    match j
    case JNull => "null"
    case JBool(b) => if b then "true" else "false"
    case JNum(n) =>
      if n.Floor as real == n then IntText(n.Floor)
      else
        var a := if n < 0.0 then -n else n;
        (if n < 0.0 then "-" else "") + NatText(a.Floor) + "." + FractionDigits(a - a.Floor as real, MaxFractionDigits)
    case JStr(s) => s
    case JOid(oid) => oid
    case JDate(ms) => "Date(" + IntText(ms) + ")"
    case JArr(items) => ItemsText(items)
    case JObj(_) => "[object Object]"
  }

  /** `Array.prototype.join(",")`, in which null and undefined items are empty. */
  function ItemsText(items: seq<Json>): string
  {
    if |items| == 0 then ""
    else
      var first := if items[0] == JNull then "" else JsonText(items[0]);
      if |items| == 1 then first else first + "," + ItemsText(items[1..])
  }

  /** `String(v)` of a possibly undefined value. */
  function ToText(v: Option<Json>): (t: string)
    ensures v.None? ==> t == "undefined"
    ensures v.Some? && v.value.JStr? ==> t == v.value.s
    ensures v.Some? && v.value.JNum? && IsInteger(Some(v.value.n)) ==> t == IntText(v.value.n.Floor)
  {
    match v
    case None => "undefined"
    case Some(j) => JsonText(j)
  }

  /** `Number(v)`: arrays and ObjectIds go through their text, plain objects are NaN. */
  function ToNumber(v: Option<Json>): (r: Option<real>)
    ensures v.None? ==> r.None?
    ensures v == Some(JNull) ==> r == Some(0.0)
    ensures v.Some? && v.value.JNum? ==> r == Some(v.value.n)
    ensures v.Some? && v.value.JStr? ==> r == StringToNumber(v.value.s)
    ensures v.Some? && v.value.JStr? && r.Some? && TrimEnd(TrimStart(v.value.s)) != "" ==> ParseFloatValue(v) == r
  {
    match v
    case None => None
    case Some(JNull) => Some(0.0)
    case Some(JBool(b)) => Some(if b then 1.0 else 0.0)
    case Some(JNum(n)) => Some(n)
    case Some(JStr(s)) =>
      if StringToNumber(s).Some? && TrimEnd(TrimStart(s)) != "" then NumberAgreesWithParseFloat(s); StringToNumber(s)
      else StringToNumber(s)
    case Some(JOid(oid)) => StringToNumber(oid)
    case Some(JDate(ms)) => Some(ms as real)
    case Some(JArr(items)) => StringToNumber(ItemsText(items))
    case Some(JObj(_)) => None
  }

  /** `Number.parseFloat(v)`: a number is itself, anything else is parsed from its text. */
  function ParseFloatValue(v: Option<Json>): (r: Option<real>)
    ensures v.Some? && v.value.JNum? ==> r == Some(v.value.n)
    ensures v.Some? && v.value.JStr? ==> r == ParseFloat(v.value.s)
    ensures v.None? || v == Some(JNull) || (v.Some? && (v.value.JBool? || v.value.JObj?)) ==> r.None?
  {
    match v
    case Some(JNum(n)) => Some(n)
    case None => ParseFloatOfWord("undefined"); ParseFloat(ToText(v))
    case Some(JNull) => ParseFloatOfWord("null"); ParseFloat(ToText(v))
    case Some(JBool(b)) => ParseFloatOfWord(if b then "true" else "false"); ParseFloat(ToText(v))
    case Some(JObj(_)) => ParseFloatOfObject(); ParseFloat(ToText(v))
    case _ => ParseFloat(ToText(v))
  }

  /** "[object Object]" yields NaN under `parseFloat`. */
  lemma ParseFloatOfObject()
    ensures ParseFloat("[object Object]") == None
  {
    var t := "[object Object]";
    assert TrimStart(t) == t;
    assert SplitSign(t) == (false, t);
    assert LeadingDigits(t) == 0;
    assert t[0..] == t;
  }

  /** A word that starts with a letter yields NaN under `parseFloat`. */
  lemma ParseFloatOfWord(t: string)
    requires |t| > 0 && 'a' <= t[0] <= 'z'
    ensures ParseFloat(t) == None
  {
    assert TrimStart(t) == t;
    assert SplitSign(t) == (false, t);
    assert LeadingDigits(t) == 0;
    assert t[0..] == t;
  }

  /** Only numbers and strings can yield a number through `parseFloat`: undefined, null and booleans are NaN. */
  lemma ParseFloatValueOfNonText(v: Option<Json>)
    requires v == None || v == Some(JNull) || (v.Some? && v.value.JBool?)
    ensures ParseFloatValue(v) == None
  {
    var t := ToText(v);
    assert |t| > 0 && 'a' <= t[0] <= 'z';
    ParseFloatOfWord(t);
  }

  /** `String` then `parseFloat` or `Number` gives back every integer. */
  lemma IntegerTextRoundTrip(n: real)
    requires IsInteger(Some(n))
    ensures ParseFloat(ToText(Some(JNum(n)))) == Some(n)
    ensures StringToNumber(ToText(Some(JNum(n)))) == Some(n)
  {
    ParseFloatIntText(n.Floor);
    StringToNumberIntText(n.Floor);
  }

  /** A run of digits stops at the first character that is not one, whatever follows it. */
  lemma {:induction false} LeadingDigitsAppend(x: string, y: string)
    requires LeadingDigits(x) < |x| || |y| == 0 || !IsDigit(y[0])
    ensures LeadingDigits(x + y) == LeadingDigits(x)
  {
    if |x| > 0 && IsDigit(x[0]) {
      assert (x + y)[1..] == x[1..] + y;
      LeadingDigitsAppend(x[1..], y);
    } else if |x| == 0 {
      assert x + y == y;
    }
  }

  /** Text `Number` reads whole is read alike by `parseFloat`, whatever non-numeric text follows it. */
  lemma MagnitudesAgree(u: string, w: string)
    requires WholeMagnitude(u).Some?
    requires |w| > 0 ==> !IsDigit(w[0]) && w[0] != '.'
    ensures PrefixMagnitude(u + w) == WholeMagnitude(u)
  {
    var k := LeadingDigits(u);
    var rest := u[k..];
    LeadingDigitsAppend(u, w);
    assert (u + w)[..k] == u[..k];
    assert (u + w)[k..] == rest + w;
    if rest != "" {
      var d := rest[1..];
      assert (rest + w)[1..] == d + w;
      LeadingDigitsAll(d);
      LeadingDigitsAppend(d, w);
      assert (d + w)[..|d|] == d;
    }
  }

  /** Text is its end-trimmed text followed by white space only. */
  lemma TrimmedEnd(x: string)
    ensures var t := TrimEnd(x);
      x == t + x[|t|..] && (|x| > |t| ==> !IsDigit(x[|t|]) && x[|t|] != '.')
  {
    var t := TrimEnd(x);
    assert x == x[..|t|] + x[|t|..];
    if |x| > |t| {
      WhiteSpaceIsNotNumeric(x[|t|]);
    }
  }

  lemma WhiteSpaceIsNotNumeric(c: char)
    requires IsWhiteSpace(c)
    ensures !IsDigit(c) && c != '.'
  {
  }

  /**
   * Where `Number` reads a number from non-blank text, `parseFloat` reads the
   * same number: `Number` accepts only texts that are entirely the decimal
   * prefix `parseFloat` reads.
   */
  lemma NumberAgreesWithParseFloat(s: string)
    requires StringToNumber(s).Some? && TrimEnd(TrimStart(s)) != ""
    ensures ParseFloat(s) == StringToNumber(s)
  {
    var ts := TrimStart(s);
    var t := TrimEnd(ts);
    var w := ts[|t|..];
    TrimmedEnd(ts);
    SignOfPrefix(t, w);
    var signed := SplitSign(t);
    assert SplitSign(ts) == (signed.0, signed.1 + w);
    MagnitudesAgree(signed.1, w);
    assert ParseFloat(s) == WithSign(signed.0, PrefixMagnitude(signed.1 + w));
    assert StringToNumber(s) == WithSign(signed.0, WholeMagnitude(signed.1));
  }

  /** The sign of non-empty text is split off alike whatever follows it. */
  lemma SignOfPrefix(t: string, w: string)
    requires t != ""
    ensures SplitSign(t + w) == (SplitSign(t).0, SplitSign(t).1 + w)
  {
    assert (t + w)[0] == t[0];
    assert (t + w)[1..] == t[1..] + w;
  }

  /** The digits of a fraction with at most `fuel` decimal places denote it exactly. */
  lemma {:induction false} FractionDigitsValue(f: real, k: nat, fuel: nat)
    requires 0.0 <= f < 1.0 && k <= fuel
    requires IsWhole(Scaled(f, k))
    ensures FractionValue(FractionDigits(f, fuel)) == f
    decreases fuel
  {
    if f != 0.0 {
      if k == 0 {
        // a fraction strictly between 0 and 1 is not whole
        assert false;
      } else {
        var g := RemainderStep(f, k);
        FractionDigitsValue(g, k - 1, fuel - 1);
        FractionDigitsStep(f, fuel);
      }
    }
  }

  /** Once its first decimal digit is taken off, a fraction has one decimal place fewer. */
  lemma RemainderStep(f: real, k: nat) returns (g: real)
    requires 0.0 <= f < 1.0 && k >= 1
    requires IsWhole(Scaled(f, k))
    ensures g == 10.0 * f - (10.0 * f).Floor as real
    ensures 0.0 <= g < 1.0 && IsWhole(Scaled(g, k - 1))
  {
    var q := Pow10(k - 1);
    var digit := (10.0 * f).Floor;
    var m := (f * Pow10(k) as real).Floor;
    assert Pow10(k) == 10 * q;
    assert f * (10 * q) as real == m as real;
    ScaledRemainder(f, digit, q, m);
    g := 10.0 * f - digit as real;
    assert digit as real <= 10.0 * f < digit as real + 1.0;
    assert (10.0 * f - digit as real) * q as real == g * Pow10(k - 1) as real;
  }

  /** What remains of `f` after its first decimal digit still has one decimal place fewer. */
  lemma ScaledRemainder(f: real, digit: int, q: nat, m: int)
    requires f * (10 * q) as real == m as real
    ensures (10.0 * f - digit as real) * q as real == (m - digit * q) as real
    ensures IsWhole((10.0 * f - digit as real) * q as real)
  {
    var x := q as real;
    assert (10 * q) as real == 10.0 * x;
    assert f * (10.0 * x) == 10.0 * (f * x);
    assert (10.0 * f - digit as real) * x == 10.0 * (f * x) - digit as real * x;
    assert digit as real * x == (digit * q) as real;
  }

  /** The first digit of a fraction, then the digits of what remains. */
  lemma FractionDigitsStep(f: real, fuel: nat)
    requires 0.0 < f < 1.0 && fuel > 0
    ensures var digit := (10.0 * f).Floor;
      FractionValue(FractionDigits(f, fuel)) == (digit as real + FractionValue(FractionDigits(10.0 * f - digit as real, fuel - 1))) / 10.0
  {
    var digit := (10.0 * f).Floor;
    FractionValueCons(DigitChar(digit), FractionDigits(10.0 * f - digit as real, fuel - 1));
  }

  lemma FractionValueCons(c: char, d: string)
    requires IsDigit(c) && AllDigits(d)
    ensures FractionValue([c] + d) == (DigitValue(c) as real + FractionValue(d)) / 10.0
  {
    assert ([c] + d)[0] == c && ([c] + d)[1..] == d;
  }

  /** Text that starts and ends with something other than white space is not trimmed. */
  lemma UntrimmedText(t: string)
    requires |t| > 0 && !IsWhiteSpace(t[0]) && !IsWhiteSpace(t[|t| - 1])
    ensures TrimStart(t) == t && TrimEnd(t) == t
  {
  }

  /**
   * `String` then `parseFloat` or `Number` gives back every number with at
   * most `MaxFractionDigits` decimal places.
   */
  lemma DecimalTextRoundTrip(n: real, k: nat)
    requires k <= MaxFractionDigits && IsWhole(Scaled(n, k))
    ensures ParseFloat(ToText(Some(JNum(n)))) == Some(n)
    ensures StringToNumber(ToText(Some(JNum(n)))) == Some(n)
  {
    if n.Floor as real == n {
      IntegerTextRoundTrip(n);
    } else {
      var a := if n < 0.0 then -n else n;
      var f := a - a.Floor as real;
      FractionPartDigits(n, k);
      FractionalTextReadBack(n, a, f, NatText(a.Floor), FractionDigits(f, MaxFractionDigits));
    }
  }

  /** The digits written for the fractional part of a number with `k` decimal places denote it exactly. */
  lemma FractionPartDigits(n: real, k: nat)
    requires k <= MaxFractionDigits && IsWhole(Scaled(n, k)) && n.Floor as real != n
    ensures var a := if n < 0.0 then -n else n;
      FractionValue(FractionDigits(a - a.Floor as real, MaxFractionDigits)) == a - a.Floor as real
  {
    var a := if n < 0.0 then -n else n;
    MagnitudeIsNotWhole(n, a);
    FractionPartScaled(n, a, k);
    FractionDigitsValue(a - a.Floor as real, k, MaxFractionDigits);
  }

  /** Text written with fraction digits that denote the fractional part exactly is read back as the number. */
  lemma FractionalTextReadBack(n: real, a: real, f: real, i: string, d: string)
    requires n.Floor as real != n && a == (if n < 0.0 then -n else n) && f == a - a.Floor as real
    requires i == NatText(a.Floor) && d == FractionDigits(f, MaxFractionDigits) && FractionValue(d) == f
    ensures ParseFloat(ToText(Some(JNum(n)))) == Some(n)
    ensures StringToNumber(ToText(Some(JNum(n)))) == Some(n)
  {
    MagnitudeIsNotWhole(n, a);
    DecimalTextShape(n, a, i, d);
    DecimalMagnitudes(i, d);
    WholeAndFraction(i, d, a, f);
    SignedMagnitude(n, a);
    ReadBack(ToText(Some(JNum(n))), n < 0.0, i + "." + d, a);
  }

  lemma SignedMagnitude(n: real, a: real)
    requires a == (if n < 0.0 then -n else n)
    ensures WithSign(n < 0.0, Some(a)) == Some(n)
  {
  }

  /** The integral digits of `a` and the digits of its fractional part together denote `a`. */
  lemma WholeAndFraction(i: string, d: string, a: real, f: real)
    requires a >= 0.0 && f == a - a.Floor as real
    requires i == NatText(a.Floor) && AllDigits(d) && FractionValue(d) == f
    ensures DigitsValue(i) as real + FractionValue(d) == a
  {
    NatTextValue(a.Floor);
  }

  /** Untrimmed text with a sign and a decimal both functions read is read alike by `parseFloat` and `Number`. */
  lemma ReadBack(t: string, negative: bool, u: string, v: real)
    requires TrimStart(t) == t && TrimEnd(t) == t && SplitSign(t) == (negative, u) && u != ""
    requires PrefixMagnitude(u) == Some(v) && WholeMagnitude(u) == Some(v)
    ensures ParseFloat(t) == WithSign(negative, Some(v))
    ensures StringToNumber(t) == WithSign(negative, Some(v))
  {
    assert t != "";
  }

  /** The fractional part of a number with `k` decimal places has `k` decimal places. */
  lemma FractionPartScaled(n: real, a: real, k: nat)
    requires IsWhole(Scaled(n, k)) && a == (if n < 0.0 then -n else n)
    ensures IsWhole(Scaled(a - a.Floor as real, k))
  {
    var p := Pow10(k) as real;
    var m := Scaled(n, k).Floor;
    var j := if n < 0.0 then -m else m;
    assert a * p == j as real by {
      if n < 0.0 {
        NegatedProduct(n, p);
      }
    }
    DistributedProduct(a, a.Floor as real, p);
    CastProduct(a.Floor, Pow10(k));
    assert Scaled(a - a.Floor as real, k) == (j - a.Floor * Pow10(k)) as real;
  }

  lemma NegatedProduct(x: real, p: real)
    ensures (-x) * p == -(x * p)
  {
  }

  lemma DistributedProduct(x: real, y: real, p: real)
    ensures (x - y) * p == x * p - y * p
  {
  }

  lemma CastProduct(x: int, y: int)
    ensures (x * y) as real == x as real * y as real
  {
  }

  /** The text of a number with a fractional part: a sign, then integral digits, a point and fraction digits. */
  lemma DecimalTextShape(n: real, a: real, i: string, d: string)
    requires n.Floor as real != n && a == (if n < 0.0 then -n else n)
    requires i == NatText(a.Floor) && d == FractionDigits(a - a.Floor as real, MaxFractionDigits)
    ensures |d| > 0
    ensures var t := ToText(Some(JNum(n)));
      && TrimStart(t) == t && TrimEnd(t) == t
      && SplitSign(t) == (n < 0.0, i + "." + d)
  {
    MagnitudeIsNotWhole(n, a);
    assert ToText(Some(JNum(n))) == JsonText(JNum(n));
    assert JsonText(JNum(n)) == (if n < 0.0 then "-" else "") + i + "." + d;
    SignedDecimalText(n < 0.0, i, d);
  }

  /** The magnitude of a number with a fractional part has one too. */
  lemma MagnitudeIsNotWhole(n: real, a: real)
    requires n.Floor as real != n && a == (if n < 0.0 then -n else n)
    ensures 0.0 < a - a.Floor as real < 1.0
  {
    if n < 0.0 {
      assert n.Floor as real < n < n.Floor as real + 1.0;
      assert a.Floor == -n.Floor - 1;
    }
  }

  /** Signed decimal text is not trimmed, and its sign splits off. */
  lemma SignedDecimalText(negative: bool, i: string, d: string)
    requires |i| > 0 && AllDigits(i) && |d| > 0 && AllDigits(d)
    ensures var t := (if negative then "-" else "") + i + "." + d;
      && TrimStart(t) == t && TrimEnd(t) == t
      && SplitSign(t) == (negative, i + "." + d)
  {
    var u := i + "." + d;
    assert u[0] == i[0] && u[|u| - 1] == d[|d| - 1];
    DigitIsNotWhiteSpace(i[0]);
    DigitIsNotWhiteSpace(d[|d| - 1]);
    if negative {
      var t := "-" + u;
      assert t == (if negative then "-" else "") + i + "." + d;
      assert t[0] == '-' && t[1..] == u && t[|t| - 1] == u[|u| - 1];
      UntrimmedText(t);
    } else {
      assert u == (if negative then "-" else "") + i + "." + d;
      UntrimmedText(u);
    }
  }

  lemma DigitIsNotWhiteSpace(c: char)
    requires IsDigit(c)
    ensures !IsWhiteSpace(c) && c != '-' && c != '+'
  {
  }

  /** Digits, a point and digits are read alike by `parseFloat` and by `Number`. */
  lemma DecimalMagnitudes(i: string, d: string)
    requires |i| > 0 && AllDigits(i) && |d| > 0 && AllDigits(d)
    ensures PrefixMagnitude(i + "." + d) == Some(DigitsValue(i) as real + FractionValue(d))
    ensures WholeMagnitude(i + "." + d) == Some(DigitsValue(i) as real + FractionValue(d))
  {
    DecimalParts(i, d);
    DecimalPrefixMagnitude(i, d);
    DecimalWholeMagnitude(i, d);
  }

  /** How `i + "." + d` splits into its integral digits, the point and the fraction digits. */
  lemma DecimalParts(i: string, d: string)
    requires |i| > 0 && AllDigits(i) && |d| > 0 && AllDigits(d)
    ensures var u := i + "." + d;
      && LeadingDigits(u) == |i| && u[..|i|] == i && u[|i|..] == "." + d
      && ("." + d)[1..] == d && LeadingDigits(d) == |d| && d[..|d|] == d
  {
    var rest := "." + d;
    var u := i + rest;
    assert i + "." + d == u;
    LeadingDigitsAll(i);
    LeadingDigitsAll(d);
    LeadingDigitsAppend(i, rest);
    assert u[..|i|] == i && u[|i|..] == rest;
  }

  lemma DecimalPrefixMagnitude(i: string, d: string)
    requires |i| > 0 && AllDigits(i) && |d| > 0 && AllDigits(d)
    requires var u := i + "." + d;
      && LeadingDigits(u) == |i| && u[..|i|] == i && u[|i|..] == "." + d
      && ("." + d)[1..] == d && LeadingDigits(d) == |d| && d[..|d|] == d
    ensures PrefixMagnitude(i + "." + d) == Some(DigitsValue(i) as real + FractionValue(d))
  {
  }

  lemma DecimalWholeMagnitude(i: string, d: string)
    requires |i| > 0 && AllDigits(i) && |d| > 0 && AllDigits(d)
    requires var u := i + "." + d;
      && LeadingDigits(u) == |i| && u[..|i|] == i && u[|i|..] == "." + d
      && ("." + d)[1..] == d
    ensures WholeMagnitude(i + "." + d) == Some(DigitsValue(i) as real + FractionValue(d))
  {
  }

  /**
   * `Number([n])` and `parseFloat([n])` read a one-item array through its
   * text, and so give back every number with at most `MaxFractionDigits`
   * decimal places.
   */
  lemma SingleNumberArrayRoundTrip(n: real, k: nat)
    requires k <= MaxFractionDigits && IsWhole(Scaled(n, k))
    ensures ToNumber(Some(JArr([JNum(n)]))) == Some(n)
    ensures ParseFloatValue(Some(JArr([JNum(n)]))) == Some(n)
  {
    assert ItemsText([JNum(n)]) == ToText(Some(JNum(n)));
    DecimalTextRoundTrip(n, k);
  }
}
