/** The JavaScript values and string operations the bank's server and client
    rely on: request fields, truthiness, `Number(...)`, `trim()`,
    `toLowerCase()` and number-to-string conversion. */
module Js {

  datatype Option<+T> = None | Some(value: T) {
    function GetOr(default: T): T {
      match this
      case Some(v) => v
      case None => default
    }
  }

  /** A JSON request field that may hold a number: absent (or null), a number
      or a string. Numbers are integers; fractional amounts are not modelled. */
  datatype JsValue = Null | Num(n: int) | Text(s: string)

  /** JavaScript truthiness of a field: absent, 0 and "" are falsy. */
  predicate Truthy(v: JsValue) {
    match v
    case Null => false
    case Num(n) => n != 0
    case Text(s) => s != ""
  }

  /** `x || null` for a string field: the empty string becomes null. */
  function OrNull(s: string): Option<string> {
    if s == "" then None else Some(s)
  }

  // ---------------------------------------------------------------------
  // Whitespace, trim and lower case
  // ---------------------------------------------------------------------

  /** JavaScript's white space and line terminators: the class `\s` of a
      regular expression, and what `trim()` removes. */
  predicate IsWhitespace(c: char) {
    c == '\t' || c == '\n' || c == '\U{000B}' || c == '\U{000C}' || c == '\r' || c == ' ' ||
    c == '\U{00A0}' || c == '\U{1680}' || ('\U{2000}' <= c <= '\U{200A}') ||
    c == '\U{2028}' || c == '\U{2029}' || c == '\U{202F}' || c == '\U{205F}' ||
    c == '\U{3000}' || c == '\U{FEFF}'
  }

  predicate NoWhitespace(s: string) {
    forall i | 0 <= i < |s| :: !IsWhitespace(s[i])
  }

  function TrimStart(s: string): (r: string)
    ensures |r| <= |s| && r == s[|s| - |r|..]
    ensures r == [] || !IsWhitespace(r[0])
  {
    if s != [] && IsWhitespace(s[0]) then TrimStart(s[1..]) else s
  }

  function TrimEnd(s: string): (r: string)
    ensures |r| <= |s| && r == s[..|r|]
    ensures r == [] || !IsWhitespace(r[|r| - 1])
  {
    if s != [] && IsWhitespace(s[|s| - 1]) then TrimEnd(s[..|s| - 1]) else s
  }

  /** `s.trim()`. */
  function Trim(s: string): string {
    TrimEnd(TrimStart(s))
  }

  /** `toLowerCase()` on one character; only the ASCII letters are folded. */
  function LowerChar(c: char): char {
    if 'A' <= c <= 'Z' then (c as int + 32) as char else c
  }

  /** `s.toLowerCase()`, character by character. */
  function ToLower(s: string): (r: string)
    ensures |r| == |s|
    ensures forall i | 0 <= i < |s| :: r[i] == LowerChar(s[i])
  {
    seq(|s|, i requires 0 <= i < |s| => LowerChar(s[i]))
  }

  lemma LowerCharKeepsClass(c: char)
    ensures IsWhitespace(LowerChar(c)) == IsWhitespace(c)
    ensures (LowerChar(c) == '@') == (c == '@')
    ensures (LowerChar(c) == '.') == (c == '.')
    ensures LowerChar(LowerChar(c)) == LowerChar(c)
  {
  }

  lemma {:induction false} TrimStartOfLower(s: string)
    ensures TrimStart(ToLower(s)) == ToLower(TrimStart(s))
  {
    if s != [] {
      LowerCharKeepsClass(s[0]);
      assert ToLower(s)[1..] == ToLower(s[1..]);
      if IsWhitespace(s[0]) {
        TrimStartOfLower(s[1..]);
      }
    }
  }

  lemma {:induction false} TrimEndOfLower(s: string)
    ensures TrimEnd(ToLower(s)) == ToLower(TrimEnd(s))
  {
    if s != [] {
      LowerCharKeepsClass(s[|s| - 1]);
      assert ToLower(s)[..|s| - 1] == ToLower(s[..|s| - 1]);
      if IsWhitespace(s[|s| - 1]) {
        TrimEndOfLower(s[..|s| - 1]);
      }
    }
  }

  /** Trimming and lower-casing commute, so the server's `trim().toLowerCase()`
      and the client's `toLowerCase().trim()` give the same address. */
  lemma TrimLowerCommute(s: string)
    ensures Trim(ToLower(s)) == ToLower(Trim(s))
  {
    TrimStartOfLower(s);
    TrimEndOfLower(TrimStart(s));
  }

  lemma {:induction false} TrimEndKeepsStart(s: string)
    requires s == [] || !IsWhitespace(s[0])
    ensures TrimStart(TrimEnd(s)) == TrimEnd(s)
  {
  }

  /** Trimming twice is trimming once. */
  lemma TrimIdempotent(s: string)
    ensures Trim(Trim(s)) == Trim(s)
  {
    var t := TrimStart(s);
    TrimEndKeepsStart(t);
    var u := TrimEnd(t);
    assert TrimStart(u) == u;
    TrimEndFixed(u);
  }

  lemma TrimEndFixed(u: string)
    requires u == [] || !IsWhitespace(u[|u| - 1])
    ensures TrimEnd(u) == u
  {
  }

  lemma LowerIdempotent(s: string)
    ensures ToLower(ToLower(s)) == ToLower(s)
  {
    forall i | 0 <= i < |s| ensures ToLower(ToLower(s))[i] == ToLower(s)[i] {
      LowerCharKeepsClass(s[i]);
    }
  }

  /** A string without white space is its own trim. */
  lemma TrimNoWhitespace(s: string)
    requires NoWhitespace(s)
    ensures Trim(s) == s
  {
  }

  // ---------------------------------------------------------------------
  // Decimal numbers
  // ---------------------------------------------------------------------

  predicate IsDigit(c: char) {
    '0' <= c <= '9'
  }

  predicate AllDigits(s: string) {
    forall i | 0 <= i < |s| :: IsDigit(s[i])
  }

  function DigitValue(c: char): nat
    requires IsDigit(c)
  {
    c as int - '0' as int
  }

  function DigitChar(d: nat): (c: char)
    requires d < 10
    ensures IsDigit(c) && DigitValue(c) == d
  {
    ('0' as int + d) as char
  }

  /** The value of a string of decimal digits, most significant first. */
  function DigitsValue(s: string): nat
    requires AllDigits(s)
  {
    if s == [] then 0 else 10 * DigitsValue(s[..|s| - 1]) + DigitValue(s[|s| - 1])
  }

  /** The decimal digits of `n`, without leading zeros. */
  function NatToDigits(n: nat): (s: string)
    ensures AllDigits(s) && 0 < |s|
    ensures n >= 10 ==> s[0] != '0'
  {
    if n < 10 then [DigitChar(n)] else NatToDigits(n / 10) + [DigitChar(n % 10)]
  }

  lemma {:induction false} DigitsRoundTrip(n: nat)
    ensures DigitsValue(NatToDigits(n)) == n
  {
    if n >= 10 {
      var s := NatToDigits(n);
      assert s[..|s| - 1] == NatToDigits(n / 10);
      DigitsRoundTrip(n / 10);
    }
  }

  /** `String(n)` for an integer. */
  function IntToString(n: int): (s: string)
    ensures 0 < |s|
  {
    if n < 0 then "-" + NatToDigits(-n) else NatToDigits(n)
  }

  /** `Number(s)` restricted to integers: surrounding white space is ignored,
      the empty string is 0, an optional sign followed by decimal digits is
      its value, and anything else is NaN (None). */
  function ParseNumber(s: string): Option<int> {
    ParseTrimmed(Trim(s))
  }

  function ParseTrimmed(t: string): Option<int> {
    if t == "" then Some(0)
    else if (t[0] == '+' || t[0] == '-') && 1 < |t| && AllDigits(t[1..]) then
      var v: int := DigitsValue(t[1..]);
      Some(if t[0] == '-' then -v else v)
    else if AllDigits(t) then Some(DigitsValue(t))
    else None
  }

  /** `Number(v)`; None stands for NaN. An absent field is `undefined`, NaN. */
  function ToNumber(v: JsValue): Option<int> {
    match v
    case Null => None
    case Num(n) => Some(n)
    case Text(s) => ParseNumber(s)
  }

  /** Digits, with or without a leading minus sign, carry no white space. */
  lemma TrimNumeral(d: string, negative: bool)
    requires AllDigits(d)
    ensures var s := if negative then "-" + d else d; Trim(s) == s
  {
    var s := if negative then "-" + d else d;
    forall i | 0 <= i < |s| ensures !IsWhitespace(s[i]) {
      if negative && i == 0 {
      } else {
        var k := if negative then i - 1 else i;
        assert s[i] == d[k] && IsDigit(d[k]);
      }
    }
    TrimNoWhitespace(s);
  }

  lemma ParseDigits(d: string)
    requires AllDigits(d) && d != []
    ensures ParseNumber(d) == Some(DigitsValue(d))
  {
    TrimNumeral(d, false);
    assert d[0] != '+' && d[0] != '-' by { assert IsDigit(d[0]); }
  }

  lemma ParseNegativeDigits(d: string)
    requires AllDigits(d) && d != []
    ensures ParseNumber("-" + d) == Some(-(DigitsValue(d) as int))
  {
    TrimNumeral(d, true);
    ParseTrimmedNegative(d);
  }

  lemma ParseTrimmedNegative(d: string)
    requires AllDigits(d) && d != []
    ensures ParseTrimmed("-" + d) == Some(-(DigitsValue(d) as int))
  {
    var t := "-" + d;
    assert t[0] == '-' && t[1..] == d;
  }

  /** Reading back the decimal text of a number gives the number. */
  lemma NumberOfString(n: int)
    ensures ParseNumber(IntToString(n)) == Some(n)
  {
    if n < 0 {
      var d := NatToDigits(-n);
      DigitsRoundTrip(-n);
      ParseNegativeDigits(d);
      assert IntToString(n) == "-" + d;
      assert -(DigitsValue(d) as int) == n;
    } else {
      var d := NatToDigits(n);
      DigitsRoundTrip(n);
      ParseDigits(d);
      assert IntToString(n) == d;
    }
  }
}
