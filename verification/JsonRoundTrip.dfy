/** What the JSON reader makes of what the writer wrote (android-controller/runner/.../Json.kt). */
module JsonRoundTrip {
  import opened Common
  import opened JsonText
  import opened Json

  /** `t` stands at the positions from p to `end`. */
  predicate Spans(raw: Text, p: nat, end: nat, t: Text) {
    p <= end <= |raw| && raw[p..end] == t
  }

  lemma Split(raw: Text, p: nat, end: nat, a: Text, b: Text) returns (middle: nat)
    requires Spans(raw, p, end, a + b)
    ensures middle == p + |a| && Spans(raw, p, middle, a) && Spans(raw, middle, end, b)
  {
    middle := p + |a|;
    assert raw[p..end][..|a|] == a && raw[p..end][|a|..] == b;
  }

  lemma First(raw: Text, p: nat, end: nat, t: Text)
    requires Spans(raw, p, end, t) && t != []
    ensures p < end && raw[p] == t[0]
  {
    assert raw[p..end][0] == t[0];
  }

  lemma Inside(raw: Text, p: nat, end: nat, t: Text, i: nat, j: nat)
    requires Spans(raw, p, end, t) && i <= j <= |t|
    ensures raw[p + i..p + j] == t[i..j]
  {
    forall k | 0 <= k < j - i ensures raw[p + i..p + j][k] == t[i..j][k] {
      assert raw[p..end][i + k] == t[i + k];
    }
  }

  /** One round of `readString`: the char u is added and reading goes on at q. */
  predicate ReadsChar(pf: Platform, raw: Text, p: nat, q: nat, u: Unit) {
    && p < q <= |raw| && raw[p] != QUOTE
    && (if raw[p] != BACKSLASH then q == p + 1 && u == raw[p] else ReadEscape(pf, raw, p + 1) == Some((u, q)))
  }

  lemma OneRound(pf: Platform, raw: Text, p: nat, q: nat, u: Unit, built: Text)
    requires ReadsChar(pf, raw, p, q, u)
    ensures ReadChars(pf, raw, p, built) == ReadChars(pf, raw, q, built + [u])
  {
  }

  lemma HexReads(pf: Platform, t: Text)
    requires |t| == 4 && Hex4(t).Some?
    ensures ParseSigned(pf, t, 16) == Some(Hex4(t).value)
  {
    assert forall i :: 0 <= i < 4 ==> Digit(pf, t[i], 16) == HexValue(t[i]);
    assert t[..3][..2] == t[..2] && t[..2][..1] == t[..1] && t[..1][..0] == [];
    assert DigitsValue(pf, t[..1], 16) == HexValue(t[0]);
    assert DigitsValue(pf, t[..2], 16) == Some(16 * HexValue(t[0]).value + HexValue(t[1]).value);
    assert DigitsValue(pf, t[..3], 16).Some?;
  }

  lemma ReadsGrammarChar(pf: Platform, raw: Text, p: nat, end: nat, body: Text, n: nat, u: Unit)
    requires Spans(raw, p, end, body) && body != [] && GrammarChar(body) == Some((n, u))
    ensures ReadsChar(pf, raw, p, p + n, u)
  {
    First(raw, p, end, body);
    if body[0] == BACKSLASH {
      assert raw[p + 1] == raw[p..end][1];
      if body[1] == LETTER_U {
        Inside(raw, p, end, body, 2, 6);
        HexReads(pf, body[2..6]);
      }
    }
  }

  lemma NextChar(pf: Platform, raw: Text, p: nat, end: nat, meaning: Text) returns (q: nat, u: Unit, later: Text)
    requires p < end <= |raw| && Meaning(raw[p..end]) == Some(meaning)
    ensures p < q <= end && ReadsChar(pf, raw, p, q, u)
    ensures Meaning(raw[q..end]) == Some(later) && meaning == [u] + later
  {
    var body := raw[p..end];
    var n := GrammarChar(body).value.0;
    u := GrammarChar(body).value.1;
    q := p + n;
    later := Meaning(body[n..]).value;
    assert body[n..] == raw[q..end];
    ReadsGrammarChar(pf, raw, p, end, body, n, u);
  }

  /** The reader takes every string body of section 7 of RFC 8259 and gives what it means. */
  lemma {:induction false} ReadsGrammarChars(pf: Platform, raw: Text, p: nat, end: nat, meaning: Text, built: Text)
    requires p <= end < |raw| && raw[end] == QUOTE && Meaning(raw[p..end]) == Some(meaning)
    ensures ReadChars(pf, raw, p, built) == Some((built + meaning, end + 1))
    decreases end - p
  {
    if p == end {
      assert built + [] == built;
    } else {
      var q, u, later := NextChar(pf, raw, p, end, meaning);
      ReadsGrammarChars(pf, raw, q, end, later, built + [u]);
      assert built + [u] + later == built + meaning;
      OneRound(pf, raw, p, q, u, built);
    }
  }

  lemma ReadsGrammarString(pf: Platform, raw: Text, p: nat, body: nat, closing: nat, end: nat, meaning: Text)
    requires body == p + 1 <= closing && end == closing + 1 <= |raw| && raw[p] == QUOTE && raw[closing] == QUOTE
    requires Meaning(raw[body..closing]) == Some(meaning)
    ensures ReadString(pf, raw, p) == Some((meaning, end))
  {
    ReadsGrammarChars(pf, raw, body, closing, meaning, []);
    assert [] + meaning == meaning;
  }

  lemma ReadsQuoted(pf: Platform, raw: Text, p: nat, end: nat, s: Text)
    requires Spans(raw, p, end, Quoted(s))
    ensures ReadString(pf, raw, p) == Some((s, end)) && raw[p] == QUOTE
  {
    var body, closing := LayQuoted(raw, p, end, EscapeAll(s));
    WrittenStringsMeanThemselves(s);
    ReadsGrammarString(pf, raw, p, body, closing, end, s);
  }

  lemma LayQuoted(raw: Text, p: nat, end: nat, t: Text) returns (body: nat, closing: nat)
    requires Spans(raw, p, end, [QUOTE] + t + [QUOTE])
    ensures body == p + 1 <= closing && end == closing + 1 && raw[p] == QUOTE && raw[closing] == QUOTE
    ensures raw[body..closing] == t
  {
    closing := Split(raw, p, end, [QUOTE] + t, [QUOTE]);
    body := Split(raw, p, closing, [QUOTE], t);
    First(raw, closing, end, [QUOTE]);
    First(raw, p, body, [QUOTE]);
  }

  lemma {:induction false} NumberEndsAt(raw: Text, p: nat, end: nat)
    requires p <= end <= |raw| && (end < |raw| ==> IsDelimiter(raw[end]))
    requires forall i :: p <= i < end ==> !IsDelimiter(raw[i])
    ensures NumberEnd(raw, p) == end
    decreases end - p
  {
    if p < end { NumberEndsAt(raw, p + 1, end); }
  }

  lemma ReadsNumberText(pf: Platform, raw: Text, p: nat, end: nat, t: Text, n: int)
    requires Spans(raw, p, end, t) && IsNumberText(t) && ToLongOrNull(pf, t) == Some(n)
    requires end < |raw| ==> IsDelimiter(raw[end])
    ensures ReadNumber(pf, raw, p) == Some((Long(n), end)) && (raw[p] == MINUS || ZERO <= raw[p] <= NINE)
  {
    forall i | p <= i < end ensures raw[i] == MINUS || ZERO <= raw[i] <= NINE {
      assert raw[i] == raw[p..end][i - p];
    }
    NumberEndsAt(raw, p, end);
  }

  lemma NumberCase(pf: Platform, raw: Text, p: nat)
    requires p < |raw| && (raw[p] == MINUS || ZERO <= raw[p] <= NINE)
    ensures ReadValue(pf, raw, p) == ReadNumber(pf, raw, p)
  {
  }

  lemma ReadsDecimal(pf: Platform, raw: Text, p: nat, end: nat, n: int)
    requires IsLong(n) && Spans(raw, p, end, Decimal(n)) && (end < |raw| ==> IsDelimiter(raw[end]))
    ensures ReadValue(pf, raw, p) == Some((Long(n), end))
  {
    DecimalReadsBack(pf, n);
    ReadsNumberText(pf, raw, p, end, Decimal(n), n);
    NumberCase(pf, raw, p);
  }

  lemma ReadsLiteral(pf: Platform, raw: Text, p: nat, end: nat, literal: Text, v: Value)
    requires (literal, v) == (TRUE, Bool(true)) || (literal, v) == (FALSE, Bool(false)) || (literal, v) == (NULL, Null)
    requires Spans(raw, p, end, literal)
    ensures ReadValue(pf, raw, p) == Some((v, end))
  {
    First(raw, p, end, literal);
    assert end == p + |literal|;
  }

  /** Nested values of null, booleans, integers of their width, strings, lists and maps with distinct keys. */
  predicate IsPlain(v: Value)
    decreases v, 0
  {
    match v
    case Int(n) => -0x8000_0000 <= n < 0x8000_0000
    case Long(n) => IsLong(n)
    case List(items) => ArePlain(items)
    case Map(members) => ArePlainMembers(members)
    case _ => !v.Double? && !v.Other?
  }

  predicate ArePlain(items: seq<Value>)
    decreases items, 1
  {
    items != [] ==> IsPlain(items[0]) && ArePlain(items[1..])
  }

  predicate ArePlainMembers(members: seq<Member>)
    decreases members, 1
  {
    members != [] ==>
      && IsPlain(members[0].value) && ArePlainMembers(members[1..])
      && forall i :: 1 <= i < |members| ==> members[i].key != members[0].key
  }

  /** The value as the reader gives it: every integer is a Long. */
  function Normal(v: Value): Value
    decreases v, 0
  {
    match v
    case Int(n) => Long(n)
    case List(items) => List(NormalAll(items))
    case Map(members) => Map(NormalMembers(members))
    case _ => v
  }

  function NormalAll(items: seq<Value>): seq<Value>
    decreases items, 1
  {
    if items == [] then [] else [Normal(items[0])] + NormalAll(items[1..])
  }

  function NormalMembers(members: seq<Member>): seq<Member>
    decreases members, 1
  {
    if members == [] then [] else [Member(members[0].key, Normal(members[0].value))] + NormalMembers(members[1..])
  }

  /** Where a written value begins no whitespace is skipped and no closing bracket is seen. */
  predicate IsStart(u: Unit) {
    !IsWhitespace(u) && u != RIGHT_BRACKET && u != RIGHT_BRACE
  }

  lemma NothingToSkip(raw: Text, p: nat)
    requires p < |raw| && !IsWhitespace(raw[p])
    ensures SkipWhitespace(raw, p) == p
  {
  }

  lemma QuoteCase(pf: Platform, raw: Text, p: nat)
    requires p < |raw| && raw[p] == QUOTE
    ensures var r := ReadString(pf, raw, p);
            ReadValue(pf, raw, p) == if r.None? then None else Some((Str(r.value.0), r.value.1))
  {
  }
}
