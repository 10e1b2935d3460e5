/**
 * The slice of Python's data model that the library's core relies on: `None`,
 * numbers, strings, lists, dicts and instances of the library's own
 * `ApiObject` classes, together with `str()`, truthiness, the decimal digits
 * that `int()`/`str()` use on integers and the characters `\s` matches.
 */
module Py {

  datatype Option<+T> = None | Some(value: T)

  datatype Result<+T> = Success(value: T) | Failure(error: Exception)

  /** A raised Python exception: its class name and its message. */
  datatype Exception = Exception(cls: string, message: string)

  function TypeError(message: string): Exception { Exception("TypeError", message) }
  function ValueError(message: string): Exception { Exception("ValueError", message) }
  function AttributeError(message: string): Exception { Exception("AttributeError", message) }
  function IndexError(message: string): Exception { Exception("IndexError", message) }
  function KeyError(key: string): Exception { Exception("KeyError", key) }

  /**
   * A Python value as the library stores it in an attribute or passes it to
   * and from the remote client. A float is carried by its Python `repr`;
   * datetimes and other library objects are opaque values with their `str()`.
   */
  datatype Value =
    | NoneV
    | BoolV(b: bool)
    | IntV(i: int)
    | FloatV(repr: string)
    | StrV(s: string)
    | ListV(items: seq<Value>)
    | DictV(entries: map<string, Value>)
    | ObjV(cls: string, attrs: map<string, Value>)
    | OpaqueV(kind: string, text: string)

  /** Python's `type(v).__name__`. */
  function TypeName(v: Value): string {
    match v
    case NoneV => "NoneType"
    case BoolV(_) => "bool"
    case IntV(_) => "int"
    case FloatV(_) => "float"
    case StrV(_) => "str"
    case ListV(_) => "list"
    case DictV(_) => "dict"
    case ObjV(c, _) => c
    case OpaqueV(k, _) => k
  }

  /** `isinstance(v, numbers.Number)`: `bool` is a subclass of `int`. */
  predicate IsNumber(v: Value) {
    v.BoolV? || v.IntV? || v.FloatV?
  }

  /** Python truthiness (`if v:`). Instances without `__bool__`/`__len__` are true. */
  predicate Truthy(v: Value) {
    match v
    case NoneV => false
    case BoolV(b) => b
    case IntV(i) => i != 0
    case FloatV(r) => r != "0.0" && r != "-0.0"
    case StrV(s) => s != ""
    case ListV(xs) => xs != []
    case DictV(m) => m != map[]
    case ObjV(_, _) => true
    case OpaqueV(_, _) => true
  }

  /** The truthiness of an optional string (`None` and `""` are false). */
  predicate Given(s: Option<string>) {
    s.Some? && s.value != ""
  }

  /**
   * `[f(x) for x in xs]` where a call may raise: the results in order, or
   * the exception of the first call that raises.
   */
  function MapResult<T, U>(f: T --> Result<U>, xs: seq<T>): (r: Result<seq<U>>)
    requires forall i :: 0 <= i < |xs| ==> f.requires(xs[i])
    ensures r.Success? <==> forall i :: 0 <= i < |xs| ==> f(xs[i]).Success?
    ensures r.Success? ==> |r.value| == |xs| && forall i :: 0 <= i < |xs| ==> r.value[i] == f(xs[i]).value
    ensures r.Failure? ==> exists i :: 0 <= i < |xs| && f(xs[i]) == Failure(r.error) && forall j :: 0 <= j < i ==> f(xs[j]).Success?
    decreases |xs|
  {
    if |xs| == 0 then Success([])
    else match f(xs[0])
      case Failure(e) => Failure(e)
      case Success(y) =>
        match MapResult(f, xs[1..])
        case Failure(e) =>
          assert forall j :: 1 <= j < |xs| ==> xs[1..][j - 1] == xs[j];
          Failure(e)
        case Success(ys) => Success([y] + ys)
  }

  // ---------------------------------------------------------------------------
  // Decimal digits

  /** The number of runs of ten decimal digits outside ASCII (Unicode category Nd, Unicode 15.0). */
  const OtherDigitRuns := 67

  /**
   * The code point of the digit zero of the `i`th run of ten decimal digits
   * outside ASCII, in ascending order. Every such run holds the digits zero
   * to nine in order.
   */
  function RunZero(i: nat): (z: int)
    requires i < OtherDigitRuns
    ensures RunClearOfSpaces(z)
  {
    match i
    case 0 => 0x660 case 1 => 0x6F0 case 2 => 0x7C0 case 3 => 0x966 case 4 => 0x9E6 case 5 => 0xA66
    case 6 => 0xAE6 case 7 => 0xB66 case 8 => 0xBE6 case 9 => 0xC66 case 10 => 0xCE6 case 11 => 0xD66
    case 12 => 0xDE6 case 13 => 0xE50 case 14 => 0xED0 case 15 => 0xF20 case 16 => 0x1040 case 17 => 0x1090
    case 18 => 0x17E0 case 19 => 0x1810 case 20 => 0x1946 case 21 => 0x19D0 case 22 => 0x1A80 case 23 => 0x1A90
    case 24 => 0x1B50 case 25 => 0x1BB0 case 26 => 0x1C40 case 27 => 0x1C50 case 28 => 0xA620 case 29 => 0xA8D0
    case 30 => 0xA900 case 31 => 0xA9D0 case 32 => 0xA9F0 case 33 => 0xAA50 case 34 => 0xABF0 case 35 => 0xFF10
    case 36 => 0x104A0 case 37 => 0x10D30 case 38 => 0x11066 case 39 => 0x110F0 case 40 => 0x11136 case 41 => 0x111D0
    case 42 => 0x112F0 case 43 => 0x11450 case 44 => 0x114D0 case 45 => 0x11650 case 46 => 0x116C0 case 47 => 0x11730
    case 48 => 0x118E0 case 49 => 0x11950 case 50 => 0x11C50 case 51 => 0x11D50 case 52 => 0x11DA0 case 53 => 0x11F50
    case 54 => 0x16A60 case 55 => 0x16AC0 case 56 => 0x16B50 case 57 => 0x1D7CE case 58 => 0x1D7D8 case 59 => 0x1D7E2
    case 60 => 0x1D7EC case 61 => 0x1D7F6 case 62 => 0x1E140 case 63 => 0x1E2F0 case 64 => 0x1E4F0 case 65 => 0x1E950
    case 66 => 0x1FBF0
    case _ => 0x1FBF0
  }

  /**
   * A run of ten code points from `z` lies above ASCII and Latin-1 and clear
   * of the whitespace at U+1680 and U+2000 to U+3000: no digit is whitespace.
   */
  predicate RunClearOfSpaces(z: int) {
    0x660 <= z && (z + 9 < 0x1680 || (0x1680 < z && z + 9 < 0x2000) || 0x3000 < z)
  }

  /** Code point `n` lies above Latin-1 and is none of the whitespace at U+1680 and U+2000 to U+3000. */
  predicate ClearOfSpaces(n: int) {
    0x660 <= n && (n < 0x1680 || (0x1680 < n < 0x2000) || 0x3000 < n)
  }

  /** Whether code point `n` lies in one of the runs from run `i` on. */
  predicate InRunFrom(n: int, i: nat)
    requires i <= OtherDigitRuns
    ensures InRunFrom(n, i) ==> ClearOfSpaces(n)
    decreases OtherDigitRuns - i
  {
    i < OtherDigitRuns && (RunZero(i) <= n <= RunZero(i) + 9 || InRunFrom(n, i + 1))
  }

  /** The position of code point `n` in the first run from run `i` on that holds it (0 when none does). */
  function RunPositionFrom(n: int, i: nat): (d: nat)
    requires i <= OtherDigitRuns
    ensures d < 10
    decreases OtherDigitRuns - i
  {
    if i == OtherDigitRuns then 0
    else if RunZero(i) <= n <= RunZero(i) + 9 then n - RunZero(i)
    else RunPositionFrom(n, i + 1)
  }

  /**
   * The characters Python's `\d` matches in a `str` pattern, which are also
   * the ones `int()` reads as digits: the ASCII digits and the other Unicode
   * decimal digits.
   */
  predicate IsDigit(c: char) {
    '0' <= c <= '9' || InRunFrom(c as int, 0)
  }

  predicate AllDigits(s: string) {
    forall i :: 0 <= i < |s| ==> IsDigit(s[i])
  }

  function DigitChar(d: nat): (c: char)
    requires d < 10
    ensures IsDigit(c) && c as int - '0' as int == d
  {
    ('0' as int + d) as char
  }

  /** `str(n)` for a non-negative integer: its decimal digits, most significant first. */
  function NatToDigits(n: nat): (s: string)
    ensures |s| > 0 && AllDigits(s)
    ensures n > 0 ==> s[0] != '0'
  {
    if n < 10 then [DigitChar(n)] else NatToDigits(n / 10) + [DigitChar(n % 10)]
  }

  /** The value of a decimal digit: its distance from the zero of its run (0 for any other character). */
  function DigitValue(c: char): (d: nat)
    ensures d < 10
    ensures '0' <= c <= '9' ==> d == c as int - '0' as int
  {
    if '0' <= c <= '9' then c as int - '0' as int
    else RunPositionFrom(c as int, 0)
  }

  /** `int(s)` for a string of decimal digits (leading zeros allowed). */
  function DigitsToNat(s: string): nat {
    if |s| == 0 then 0 else 10 * DigitsToNat(s[..|s| - 1]) + DigitValue(s[|s| - 1])
  }

  lemma {:induction false} DigitsRoundTrip(n: nat)
    ensures DigitsToNat(NatToDigits(n)) == n
  {
    if n >= 10 {
      var s := NatToDigits(n);
      assert s[..|s| - 1] == NatToDigits(n / 10);
      DigitsRoundTrip(n / 10);
    }
  }

  /** `str(i)` for any Python `int`. */
  function IntToString(i: int): (s: string)
    ensures |s| > 0
    ensures i >= 0 <==> IsDigit(s[0])
    ensures i >= 0 ==> s == NatToDigits(i)
  {
    if i >= 0 then NatToDigits(i) else "-" + NatToDigits(-i)
  }

  // ---------------------------------------------------------------------------
  // str() and repr()

  /**
   * `str(v)`. Scalars follow Python exactly; a list renders its elements'
   * reprs (strings quoted and escaped by `StrRepr`); dicts and objects (whose
   * rendering depends on insertion order or on a `__repr__` not modelled
   * here) render as a fixed placeholder.
   */
  function Str(v: Value): string
    decreases v, 0
  {
    match v
    case NoneV => "None"
    case BoolV(b) => if b then "True" else "False"
    case IntV(i) => IntToString(i)
    case FloatV(r) => r
    case StrV(s) => s
    case ListV(xs) => "[" + Join(seq(|xs|, k requires 0 <= k < |xs| => Repr(xs[k]))) + "]"
    case DictV(_) => "{...}"
    case ObjV(c, _) => c + "(...)"
    case OpaqueV(_, t) => t
  }

  /** `repr(v)`: as `Str`, except that strings are quoted and escaped. */
  function Repr(v: Value): string
    decreases v, 1
  {
    if v.StrV? then StrRepr(v.s) else Str(v)
  }

  /**
   * Whether `repr` of a string shows `c` as itself (when it is neither the
   * quote nor a backslash): printable ASCII, and every character above
   * U+00A0 except the soft hyphen U+00AD.
   */
  predicate PrintsAsItself(c: char) {
    (' ' <= c < '\U{7f}') || ('\U{a0}' < c && c != '\U{ad}')
  }

  /** A lower-case hexadecimal digit, as `'%02x'` prints it. */
  function HexDigit(d: nat): (c: char)
    requires d < 16
    ensures PrintsAsItself(c) && c != '\\' && c != '\'' && c != '"'
  {
    if d < 10 then ('0' as int + d) as char else ('a' as int + d - 10) as char
  }

  /** The value of a hexadecimal digit (0 for any other character). */
  function HexValue(c: char): (d: nat)
    ensures d < 16
  {
    if '0' <= c <= '9' then c as int - '0' as int
    else if 'a' <= c <= 'f' then c as int - 'a' as int + 10
    else if 'A' <= c <= 'F' then c as int - 'A' as int + 10
    else 0
  }

  /** The quote `repr` puts around `s`: `"` when `s` holds `'` but no `"`, else `'`. */
  function QuoteFor(s: string): (q: char)
    ensures q == '"' <==> '\'' in s && '"' !in s
    ensures q == '"' || q == '\''
  {
    if '\'' in s && '"' !in s then '"' else '\''
  }

  /**
   * How `repr` shows one character inside quotes `q`: a backslash before the
   * quote and before a backslash, `\t`, `\n` and `\r` for those controls,
   * the character itself when printable, and `\xhh` otherwise.
   */
  function EscapeChar(c: char, q: char): (e: string)
    requires q == '"' || q == '\''
    ensures e != [] && (|e| == 1 <==> e == [c])
    ensures forall i :: 0 <= i < |e| ==> PrintsAsItself(e[i])
    ensures e == [c] ==> c != q && c != '\\'
  {
    if c == q || c == '\\' then ['\\', c]
    else if c == '\t' then "\\t"
    else if c == '\n' then "\\n"
    else if c == '\r' then "\\r"
    else if PrintsAsItself(c) then [c]
    else ['\\', 'x', HexDigit(c as int / 16), HexDigit(c as int % 16)]
  }

  /** The characters of `s`, each shown as `EscapeChar` shows it. */
  function Escaped(s: string, q: char): (e: string)
    requires q == '"' || q == '\''
    ensures |e| >= |s|
    ensures forall i :: 0 <= i < |e| ==> PrintsAsItself(e[i])
  {
    if s == [] then [] else EscapeChar(s[0], q) + Escaped(s[1..], q)
  }

  /** `repr(s)` for a string: the chosen quote, the escaped characters, the quote again. */
  function StrRepr(s: string): (r: string)
    ensures |r| >= 2 && r[0] == QuoteFor(s) && r[|r| - 1] == QuoteFor(s)
    ensures r[1..|r| - 1] == Escaped(s, QuoteFor(s))
  {
    var q := QuoteFor(s);
    [q] + Escaped(s, q) + [q]
  }

  /** The character an escape `\x` stands for in a Python string literal, for the escapes `repr` writes. */
  function EscapeMeaning(x: char): char {
    if x == 't' then '\t' else if x == 'n' then '\n' else if x == 'r' then '\r' else x
  }

  /**
   * Reading the inside of a Python string literal: `\xhh` is one character,
   * a backslash and one other character is `EscapeMeaning` of it, anything
   * else stands for itself.
   */
  function Unescape(t: string): string
    decreases |t|
  {
    if t == [] then []
    else if t[0] == '\\' && |t| >= 4 && t[1] == 'x' then
      [(16 * HexValue(t[2]) + HexValue(t[3])) as char] + Unescape(t[4..])
    else if t[0] == '\\' && |t| >= 2 then [EscapeMeaning(t[1])] + Unescape(t[2..])
    else [t[0]] + Unescape(t[1..])
  }

  lemma UnescapeChar(c: char, q: char, rest: string)
    requires q == '"' || q == '\''
    ensures Unescape(EscapeChar(c, q) + rest) == [c] + Unescape(rest)
  {
    var e := EscapeChar(c, q);
    if c == q || c == '\\' || c == '\t' || c == '\n' || c == '\r' {
      assert (e + rest)[2..] == rest;
    } else if PrintsAsItself(c) {
      assert (e + rest)[1..] == rest;
    } else {
      assert (e + rest)[4..] == rest;
      assert 16 * HexValue(HexDigit(c as int / 16)) + HexValue(HexDigit(c as int % 16)) == c as int;
    }
  }

  /** Reading the escaped characters back gives the string: `eval(repr(s)) == s`. */
  lemma {:induction false} UnescapeEscaped(s: string, q: char)
    requires q == '"' || q == '\''
    ensures Unescape(Escaped(s, q)) == s
  {
    if s != [] {
      UnescapeChar(s[0], q, Escaped(s[1..], q));
      UnescapeEscaped(s[1..], q);
    }
  }

  /** `repr` of a string is a quoted literal that reads back as that string. */
  lemma StrReprRoundTrip(s: string)
    ensures var r := StrRepr(s);
            r[0] == r[|r| - 1] && Unescape(r[1..|r| - 1]) == s
  {
    UnescapeEscaped(s, QuoteFor(s));
  }

  /** `repr("it's")` is `"it's"` (double quotes around an apostrophe) and `repr("a\\b")` is `'a\\b'`. */
  lemma StrReprExamples()
    ensures StrRepr("it's") == "\"it's\""
    ensures StrRepr("a\\b") == "'a\\\\b'"
  {
    assert Escaped("s", '"') == "s";
    assert Escaped("'s", '"') == "'s";
    assert Escaped("t's", '"') == "t's";
    assert Escaped("it's", '"') == "it's";
    assert Escaped("b", '\'') == "b";
    assert Escaped("\\b", '\'') == "\\\\b";
    assert Escaped("a\\b", '\'') == "a\\\\b";
    assert "it's"[2] == '\'' && '"' !in "it's";
  }

  /** `", ".join(parts)`. */
  function Join(parts: seq<string>): string {
    if |parts| == 0 then ""
    else if |parts| == 1 then parts[0]
    else parts[0] + ", " + Join(parts[1..])
  }

  // ---------------------------------------------------------------------------
  // Strings

  predicate StartsWith(s: string, prefix: string) {
    |prefix| <= |s| && s[..|prefix|] == prefix
  }

  predicate EndsWith(s: string, suffix: string) {
    |suffix| <= |s| && s[|s| - |suffix|..] == suffix
  }

  /** Whether `needle` occurs in `s` (`needle in s`). */
  predicate Contains(s: string, needle: string) {
    exists i :: 0 <= i <= |s| && StartsWith(s[i..], needle)
  }

  /**
   * The characters Python's `\s` matches in a `str` pattern (the same set as
   * `str.isspace`).
   */
  predicate IsSpace(c: char) {
    var n := c as int;
    (0x09 <= n <= 0x0d) || (0x1c <= n <= 0x20) || n == 0x85 || n == 0xa0
    || n == 0x1680 || (0x2000 <= n <= 0x200a) || n == 0x2028 || n == 0x2029
    || n == 0x202f || n == 0x205f || n == 0x3000
  }

  /** The number of leading characters of `s` that `\s*` consumes. */
  function SpanSpaces(s: string): (n: nat)
    ensures n <= |s|
  {
    if |s| > 0 && IsSpace(s[0]) then 1 + SpanSpaces(s[1..]) else 0
  }

  /** The number of leading characters of `s` that `\d+` consumes. */
  function SpanDigits(s: string): (n: nat)
    ensures n <= |s|
  {
    if |s| > 0 && IsDigit(s[0]) then 1 + SpanDigits(s[1..]) else 0
  }
}
