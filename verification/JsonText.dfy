/** Characters, numbers and string literals of the hand-written JSON (android-controller/runner/.../Json.kt). */
module JsonText {
  import opened Common

  /** A UTF-16 code unit, and a Kotlin String. */
  type Unit = u: int | 0 <= u < 0x1_0000
  type Text = seq<Unit>

  const QUOTE: Unit := '\"' as int
  const BACKSLASH: Unit := '\\' as int
  const COMMA: Unit := ',' as int
  const COLON: Unit := ':' as int
  const LEFT_BRACE: Unit := '{' as int
  const RIGHT_BRACE: Unit := '}' as int
  const LEFT_BRACKET: Unit := '[' as int
  const RIGHT_BRACKET: Unit := ']' as int
  const MINUS: Unit := '-' as int
  const PLUS: Unit := '+' as int
  const ZERO: Unit := '0' as int
  const NINE: Unit := '9' as int
  const LETTER_U: Unit := 'u' as int

  const TRUE: Text := ['t' as int, 'r' as int, 'u' as int, 'e' as int]
  const FALSE: Text := ['f' as int, 'a' as int, 'l' as int, 's' as int, 'e' as int]
  const NULL: Text := ['n' as int, 'u' as int, 'l' as int, 'l' as int]

  /** Char.isWhitespace on the JVM. */
  predicate IsWhitespace(u: Unit) {
    || 9 <= u <= 13 || 0x1C <= u <= 0x20 || u == 0xA0 || u == 0x1680 || 0x2000 <= u <= 0x200A
    || u == 0x2028 || u == 0x2029 || u == 0x202F || u == 0x205F || u == 0x3000
  }

  /** Where a number ends. */
  predicate IsDelimiter(u: Unit) {
    u == COMMA || u == RIGHT_BRACE || u == RIGHT_BRACKET || u == 0x20 || u == 9 || u == 13 || u == 10
  }

  /** What the JVM decides: the digit a character outside ASCII stands for, and which texts `toDouble` accepts. */
  datatype Platform = Platform(foreignDigit: Unit -> Option<nat>, isDouble: Text -> bool)

  /** Character.digit. */
  function Digit(pf: Platform, u: Unit, radix: nat): Option<nat> {
    var d :=
      if ZERO <= u <= NINE then Some(u - ZERO)
      else if 'a' as int <= u <= 'z' as int then Some(u - 'a' as int + 10)
      else if 'A' as int <= u <= 'Z' as int then Some(u - 'A' as int + 10)
      else if u < 128 then None
      else pf.foreignDigit(u);
    if d.Some? && d.value < radix then d else None
  }

  function DigitsValue(pf: Platform, text: Text, radix: nat): Option<nat> {
    if text == [] then Some(0)
    else
      var high, low := DigitsValue(pf, text[..|text| - 1], radix), Digit(pf, text[|text| - 1], radix);
      if high.Some? && low.Some? then Some(radix * high.value + low.value) else None
  }

  function Signed(isNegative: bool, n: nat): int {
    if isNegative then -(n as int) else n
  }

  /** An optional sign and at least one digit. */
  function ParseSigned(pf: Platform, text: Text, radix: nat): Option<int> {
    if text == [] then None
    else if text[0] == MINUS || text[0] == PLUS then
      var digits := DigitsValue(pf, text[1..], radix);
      if |text| == 1 || digits.None? then None else Some(Signed(text[0] == MINUS, digits.value))
    else
      var digits := DigitsValue(pf, text, radix);
      if digits.None? then None else Some(digits.value)
  }

  predicate IsLong(n: int) {
    -0x8000_0000_0000_0000 <= n < 0x8000_0000_0000_0000
  }

  /** String.toLongOrNull. */
  function ToLongOrNull(pf: Platform, text: Text): Option<int> {
    var n := ParseSigned(pf, text, 10);
    if n.Some? && IsLong(n.value) then n else None
  }

  function Digits(n: nat): (t: Text)
    ensures |t| > 0 && forall i :: 0 <= i < |t| ==> ZERO <= t[i] <= NINE
  {
    (if n < 10 then [] else Digits(n / 10)) + [ZERO + n % 10]
  }

  /** Int.toString and Long.toString. */
  function Decimal(n: int): Text {
    if n < 0 then [MINUS] + Digits(-n) else Digits(n)
  }

  lemma OneMoreDigit(pf: Platform, high: Text, n: nat, d: nat)
    requires DigitsValue(pf, high, 10) == Some(n) && d < 10
    ensures DigitsValue(pf, high + [ZERO + d], 10) == Some(10 * n + d)
  {
    var t := high + [ZERO + d];
    assert t[..|t| - 1] == high && Digit(pf, t[|t| - 1], 10) == Some(d);
  }

  lemma {:induction false} DigitsReadBack(pf: Platform, n: nat)
    ensures DigitsValue(pf, Digits(n), 10) == Some(n)
  {
    if n < 10 {
      OneMoreDigit(pf, [], 0, n);
    } else {
      DigitsReadBack(pf, n / 10);
      OneMoreDigit(pf, Digits(n / 10), n / 10, n % 10);
    }
  }

  predicate IsNumberText(t: Text) {
    |t| > 0 && forall i :: 0 <= i < |t| ==> t[i] == MINUS || ZERO <= t[i] <= NINE
  }

  lemma SignedReadsBack(pf: Platform, n: nat)
    ensures ParseSigned(pf, Digits(n), 10) == Some(n) && ParseSigned(pf, [MINUS] + Digits(n), 10) == Some(-(n as int))
  {
    DigitsReadBack(pf, n);
    assert ([MINUS] + Digits(n))[1..] == Digits(n);
    assert ZERO <= Digits(n)[0] <= NINE;
  }

  /** Printed numbers read back as the same 64-bit number. */
  lemma DecimalReadsBack(pf: Platform, n: int)
    requires IsLong(n)
    ensures ToLongOrNull(pf, Decimal(n)) == Some(n) && IsNumberText(Decimal(n))
  {
    SignedReadsBack(pf, if n < 0 then -n else n);
  }

  function HexDigit(d: nat): Unit
    requires d < 16
  {
    if d < 10 then ZERO + d else 'a' as int + d - 10
  }

  /** What `appendEscaped` appends: "\u00xy" for the control characters without a short form. */
  function Escaped(u: Unit): Text {
    if u == QUOTE then [BACKSLASH, QUOTE]
    else if u == BACKSLASH then [BACKSLASH, BACKSLASH]
    else if u == 10 then [BACKSLASH, 'n' as int]
    else if u == 13 then [BACKSLASH, 'r' as int]
    else if u == 9 then [BACKSLASH, 't' as int]
    else if u < 0x20 then [BACKSLASH, LETTER_U, ZERO, ZERO, HexDigit(u / 16), HexDigit(u % 16)]
    else [u]
  }

  function EscapeAll(s: Text): Text {
    if s == [] then [] else Escaped(s[0]) + EscapeAll(s[1..])
  }

  /** The two-character escapes of section 7 of RFC 8259, and the reader's table. */
  function ShortEscape(u: Unit): Option<Unit> {
    if u == QUOTE || u == BACKSLASH || u == '/' as int then Some(u)
    else if u == 'b' as int then Some(8)
    else if u == 'f' as int then Some(12)
    else if u == 'n' as int then Some(10)
    else if u == 'r' as int then Some(13)
    else if u == 't' as int then Some(9)
    else None
  }

  /** HEXDIG: ASCII only, either case. */
  function HexValue(u: Unit): Option<nat> {
    if ZERO <= u <= NINE then Some(u - ZERO)
    else if 'a' as int <= u <= 'f' as int then Some(u - 'a' as int + 10)
    else if 'A' as int <= u <= 'F' as int then Some(u - 'A' as int + 10)
    else None
  }

  function Hex4(t: Text): Option<Unit>
    requires |t| == 4
  {
    var a, b, c, d := HexValue(t[0]), HexValue(t[1]), HexValue(t[2]), HexValue(t[3]);
    if a.Some? && b.Some? && c.Some? && d.Some? && a.value < 16 && b.value < 16 && c.value < 16 && d.value < 16
    then Some(0x1000 * a.value + 0x100 * b.value + 0x10 * c.value + d.value)
    else None
  }

  /** One char of the grammar at the front of a string body: how long it is and which code unit it means. */
  function GrammarChar(body: Text): (r: Option<(nat, Unit)>)
    requires body != []
    ensures r.Some? ==> 0 < r.value.0 <= |body|
  {
    if body[0] == BACKSLASH then
      if |body| < 2 then None
      else if body[1] == LETTER_U then
        (if |body| < 6 || Hex4(body[2..6]).None? then None else Some((6, Hex4(body[2..6]).value)))
      else if ShortEscape(body[1]).None? then None
      else Some((2, ShortEscape(body[1]).value))
    else if body[0] == QUOTE || body[0] < 0x20 then None
    else Some((1, body[0]))
  }

  /** Section 7 of RFC 8259: the text a string body (between the quotation marks) stands for, None if it is not one. */
  function Meaning(body: Text): Option<Text>
    decreases |body|
  {
    if body == [] then Some([])
    else
      var first := GrammarChar(body);
      if first.None? then None
      else
        var later := Meaning(body[first.value.0..]);
        if later.None? then None else Some([first.value.1] + later.value)
  }

  lemma EscapedIsGrammar(u: Unit, later: Text)
    ensures GrammarChar(Escaped(u) + later) == Some((|Escaped(u)|, u))
  {
    var body := Escaped(u) + later;
    if u < 0x20 && u != 10 && u != 13 && u != 9 {
      assert body[2..6] == [ZERO, ZERO, HexDigit(u / 16), HexDigit(u % 16)];
      assert HexValue(HexDigit(u / 16)) == Some(u / 16) && HexValue(HexDigit(u % 16)) == Some(u % 16);
    }
  }

  /** The writer's strings are strings of the grammar and mean what was written, for every sequence of code units. */
  lemma {:induction false} WrittenStringsMeanThemselves(s: Text)
    ensures Meaning(EscapeAll(s)) == Some(s)
  {
    if s != [] {
      var later := EscapeAll(s[1..]);
      EscapedIsGrammar(s[0], later);
      assert EscapeAll(s)[|Escaped(s[0])|..] == later;
      assert EscapeAll(s) == Escaped(s[0]) + later && EscapeAll(s) != [];
      WrittenStringsMeanThemselves(s[1..]);
      assert [s[0]] + s[1..] == s;
    }
  }
}
