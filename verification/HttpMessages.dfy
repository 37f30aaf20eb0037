/** What the request parser answers to every message that is written out: it is the inverse of writing a request, and refuses
    exactly the messages it has to. */
module HttpMessages {
  import opened Common
  import opened Bytes
  import opened HttpParser

  /** No separator begins inside the part, even when one follows it. */
  ghost predicate EndsCleanly(part: Latin1, separator: Latin1) {
    forall j :: 0 <= j < |part| ==> !StandsAt(part + separator, j, separator)
  }

  lemma CleanEndsCleanly(part: Latin1, separator: Latin1)
    requires separator == CRLF || separator == [SPACE]
    requires IsClean(part, separator)
    ensures EndsCleanly(part, separator)
  {
    forall j | 0 <= j < |part| ensures !StandsAt(part + separator, j, separator) {
      assert !StandsAt(part, j, separator);
      if j + |separator| <= |part| {
        assert part[j..j + |separator|] == (part + separator)[j..j + |separator|];
      } else if j + |separator| <= |part + separator| {
        assert (part + separator)[j..j + |separator|][1] == separator[0];
      }
    }
  }

  lemma {:induction false} IndexOfExactly(text: Latin1, pattern: Latin1, i: nat, k: nat)
    requires i <= k && StandsAt(text, k, pattern) && forall j :: i <= j < k ==> !StandsAt(text, j, pattern)
    ensures IndexOf(text, pattern, i) == Some(k)
    decreases k - i
  {
    if i < k { IndexOfExactly(text, pattern, i + 1, k); }
  }

  lemma SeparatorBehind(part: Latin1, separator: Latin1, later: Latin1)
    requires EndsCleanly(part, separator)
    ensures IndexOf(part + separator + later, separator, 0) == Some(|part|)
  {
    var text := part + separator + later;
    assert text[|part|..|part| + |separator|] == separator;
    forall j | 0 <= j < |part| ensures !StandsAt(text, j, separator) {
      if StandsAt(text, j, separator) {
        assert (part + separator)[j..j + |separator|] == text[j..j + |separator|];
        assert StandsAt(part + separator, j, separator);
      }
    }
    IndexOfExactly(text, separator, 0, |part|);
  }

  lemma {:induction false} NoSeparator(part: Latin1, separator: Latin1, i: nat)
    requires separator != [] && IsClean(part, separator)
    ensures IndexOf(part, separator, i).None?
    decreases |part| - i
  {
    if i <= |part| { assert !StandsAt(part, i, separator); }
    if i < |part| { NoSeparator(part, separator, i + 1); }
  }

  /** Splitting undoes joining. */
  lemma {:induction false} JoinedSplits(parts: seq<Latin1>, separator: Latin1)
    requires |parts| > 0 && (separator == CRLF || separator == [SPACE])
    requires forall part :: part in parts ==> IsClean(part, separator)
    ensures Split(Joined(parts, separator), separator) == parts
  {
    assert IsClean(parts[0], separator);
    if |parts| == 1 {
      NoSeparator(parts[0], separator, 0);
    } else {
      var later := Joined(parts[1..], separator);
      CleanEndsCleanly(parts[0], separator);
      SeparatorBehind(parts[0], separator, later);
      JoinedSplits(parts[1..], separator);
      var text := parts[0] + separator + later;
      assert text[..|parts[0]|] == parts[0] && text[|parts[0]| + |separator|..] == later;
    }
  }

  /** The head of a message and what is behind it. */
  function Raw(lines: seq<Latin1>, later: Latin1): Latin1
    requires |lines| > 0
  {
    Joined(lines, CRLF) + HEADER_TERMINATOR + later
  }

  lemma RawUnfolds(lines: seq<Latin1>, later: Latin1)
    requires |lines| > 0
    ensures Raw(lines, later) == lines[0] + CRLF + if |lines| == 1 then CRLF + later else Raw(lines[1..], later)
  {
    assert HEADER_TERMINATOR == CRLF + CRLF;
  }

  /** A line end begins at j. */
  predicate EndsAt(text: Latin1, j: nat) {
    j + 2 <= |text| && text[j] == 13 && text[j + 1] == 10
  }

  lemma EndsAtIs(text: Latin1, j: nat)
    ensures EndsAt(text, j) <==> StandsAt(text, j, CRLF)
    ensures StandsAt(text, j, HEADER_TERMINATOR) <==> EndsAt(text, j) && EndsAt(text, j + 2)
  {
    if j + 2 <= |text| { assert text[j..j + 2] == [text[j], text[j + 1]]; }
    if j + 4 <= |text| { assert text[j..j + 4] == [text[j], text[j + 1], text[j + 2], text[j + 3]]; }
  }

  /** In front of a line end a clean line holds none. */
  lemma LineHasNoEnd(line: Latin1, later: Latin1, j: nat)
    requires IsClean(line, CRLF) && j < |line|
    ensures !EndsAt(line + CRLF + later, j)
  {
    EndsAtIs(line, j);
  }

  /** The empty line is the first place where the head ends. */
  lemma {:induction false} HeadEnds(lines: seq<Latin1>, later: Latin1, j: nat)
    requires |lines| > 0 && (forall line :: line in lines ==> IsClean(line, CRLF)) && (forall line :: line in lines[1..] ==> line != [])
    requires j < |Joined(lines, CRLF)|
    ensures !(EndsAt(Raw(lines, later), j) && EndsAt(Raw(lines, later), j + 2))
  {
    hide Raw;
    var first, rest := lines[0], lines[1..];
    RawUnfolds(lines, later);
    if j < |first| {
      LineHasNoEnd(first, if |lines| == 1 then CRLF + later else Raw(rest, later), j);
    } else {
      var below := Raw(rest, later);
      assert forall k :: EndsAt(Raw(lines, later), |first| + 2 + k) ==> EndsAt(below, k);
      assert rest[0] in lines && rest[0] in lines[1..];
      if j == |first| {
        RawUnfolds(rest, later);
        LineHasNoEnd(rest[0], if |rest| == 1 then CRLF + later else Raw(rest[1..], later), 0);
      } else if j > |first| + 1 {
        assert forall line :: line in rest[1..] ==> line in rest;
        HeadEnds(rest, later, j - |first| - 2);
      }
    }
  }

  lemma HeadFound(lines: seq<Latin1>, later: Latin1)
    requires |lines| > 0 && (forall line :: line in lines ==> IsClean(line, CRLF)) && (forall line :: line in lines[1..] ==> line != [])
    ensures IndexOf(Raw(lines, later), HEADER_TERMINATOR, 0) == Some(|Joined(lines, CRLF)|)
    ensures Raw(lines, later)[..|Joined(lines, CRLF)|] == Joined(lines, CRLF)
    ensures Raw(lines, later)[|Joined(lines, CRLF)| + 4..] == later
  {
    var text, k := Raw(lines, later), |Joined(lines, CRLF)|;
    assert text[k..k + 4] == HEADER_TERMINATOR;
    forall j | 0 <= j < k ensures !StandsAt(text, j, HEADER_TERMINATOR) {
      HeadEnds(lines, later, j);
      EndsAtIs(text, j);
    }
    IndexOfExactly(text, HEADER_TERMINATOR, 0, k);
  }

  // Announced lengths

  /** The two signs that String.toInt takes; a negative zero is a zero. */
  ghost predicate IsSignFor(sign: Latin1, n: nat) {
    sign == [] || sign == [0x2B] || (sign == [0x2D] && n == 0)
  }

  function Zeros(k: nat): Latin1 {
    seq(k, i => 0x30)
  }

  /** t is n in decimal, with any leading zeros and perhaps a sign, as far as a 32-bit integer goes. */
  ghost predicate IsDecimal(t: Latin1, n: nat) {
    n < 0x8000_0000 && exists sign, k: nat :: IsSignFor(sign, n) && t == sign + Zeros(k) + Digits(n)
  }

  lemma {:induction false} ZerosInFront(k: nat, n: nat)
    ensures DigitsValue(Zeros(k) + Digits(n)) == Some(n)
    decreases n, k
  {
    hide Digits, DigitsValue;
    var t := Zeros(k) + Digits(n);
    LastDigit(n);
    if n >= 10 {
      ZerosInFront(k, n / 10);
      OneMoreDigit(Zeros(k) + Digits(n / 10), n / 10, n % 10);
      assert t == Zeros(k) + Digits(n / 10) + [0x30 + n % 10];
    } else if k == 0 {
      DigitsReadBack(n);
      assert t == Digits(n);
    } else {
      ZerosInFront(k - 1, 0);
      LastDigit(0);
      assert Zeros(k) == Zeros(k - 1) + Digits(0);
      OneMoreDigit(Zeros(k), 0, n);
      assert t == Zeros(k) + [0x30 + n];
    }
  }

  lemma LastDigit(n: nat)
    ensures Digits(n) == if n < 10 then [0x30 + n] else Digits(n / 10) + [0x30 + n % 10]
  {
  }

  /** Whatever is read as a number is that number in decimal behind zeros. */
  lemma {:induction false} ReadIsDecimal(t: Latin1) returns (k: nat)
    requires t != [] && DigitsValue(t).Some?
    ensures t == Zeros(k) + Digits(DigitsValue(t).value)
  {
    var high, d, n := t[..|t| - 1], t[|t| - 1] - 0x30, DigitsValue(t).value;
    assert t == high + [0x30 + d] && d < 10;
    LastDigit(n);
    hide Digits;
    if high == [] {
      assert DigitsValue(high) == Some(0);
      k := 0;
      assert t == Zeros(0) + Digits(n);
    } else {
      var m := DigitsValue(high).value;
      assert n == 10 * m + d && n / 10 == m && n % 10 == d;
      LastDigit(0);
      var j := ReadIsDecimal(high);
      if m == 0 {
        k := j + 1;
        assert Zeros(j) + Digits(0) == Zeros(k);
      } else {
        k := j;
        assert Digits(n) == Digits(m) + [0x30 + d];
      }
    }
  }

  /** Exactly the decimal numbers from 0 to the largest 32-bit integer are accepted as lengths, and as what they say. */
  lemma AcceptedLengths(headers: map<Latin1, Latin1>, n: nat)
    requires CONTENT_LENGTH in headers
    ensures ContentLength(headers) == Some(n) <==> IsDecimal(headers[CONTENT_LENGTH], n)
  {
    var t := headers[CONTENT_LENGTH];
    if ContentLength(headers) == Some(n) {
      var signed := t[0] == 0x2D || t[0] == 0x2B;
      var digits := if signed then t[1..] else t;
      var k := ReadIsDecimal(digits);
      var sign := if signed then t[..1] else [];
      assert t == sign + Zeros(k) + Digits(n) && IsSignFor(sign, n);
    }
    if IsDecimal(t, n) {
      var sign, k: nat :| IsSignFor(sign, n) && t == sign + Zeros(k) + Digits(n);
      SignedIsRead(sign, k, n);
    }
  }

  lemma SignedIsRead(sign: Latin1, k: nat, n: nat)
    requires IsSignFor(sign, n) && n < 0x8000_0000
    ensures ToIntOrNull(sign + Zeros(k) + Digits(n)) == Some(n)
  {
    hide DigitsValue, Digits, ToIntOrNull;
    ZerosInFront(k, n);
    DigitsReadBack(n);
    var digits := Zeros(k) + Digits(n);
    assert digits[0] == if k > 0 then 0x30 else Digits(n)[0];
    assert sign + Zeros(k) + Digits(n) == sign + digits;
    SignedDigits(sign, digits, n);
  }

  lemma SignedDigits(sign: Latin1, digits: Latin1, n: nat)
    requires IsSignFor(sign, n) && n < 0x8000_0000 && digits != [] && 0x30 <= digits[0] <= 0x39 && DigitsValue(digits) == Some(n)
    ensures ToIntOrNull(sign + digits) == Some(n)
  {
    hide DigitsValue;
    if sign == [] { assert sign + digits == digits; } else { assert (sign + digits)[1..] == digits; }
  }

  /** The header lines announce n bytes: the last content-length line says so, or there is none and n is 0. */
  ghost predicate Announce(lines: seq<Latin1>, n: nat) {
    if exists line :: line in lines && Names(line, CONTENT_LENGTH) then
      exists i :: 0 <= i < |lines| && Names(lines[i], CONTENT_LENGTH) && IsDecimal(ValueOf(lines[i]), n)
                  && forall j :: i < j < |lines| ==> !Names(lines[j], CONTENT_LENGTH)
    else n == 0
  }

  lemma {:induction false} LastNamed(lines: seq<Latin1>, name: Latin1) returns (i: nat)
    requires exists line :: line in lines && Names(line, name)
    ensures i < |lines| && Names(lines[i], name) && forall j :: i < j < |lines| ==> !Names(lines[j], name)
  {
    var last := |lines| - 1;
    if Names(lines[last], name) {
      i := last;
    } else {
      var line :| line in lines && Names(line, name);
      assert line in lines[..last];
      i := LastNamed(lines[..last], name);
    }
  }

  lemma AnnouncedLength(lines: seq<Latin1>, n: nat)
    ensures ContentLength(HeadersOf(lines)) == Some(n) <==> Announce(lines, n)
  {
    hide HeadersOf, Names, IsDecimal, ToIntOrNull;
    LastHeaderCounts(lines, CONTENT_LENGTH);
    if exists line :: line in lines && Names(line, CONTENT_LENGTH) {
      var i := LastNamed(lines, CONTENT_LENGTH);
      AcceptedLengths(HeadersOf(lines), n);
    } else {
      assert forall i :: 0 <= i < |lines| ==> lines[i] in lines;
    }
  }

  // Messages

  /** The parts of a request line, and header lines, that can be told apart again once written. */
  ghost predicate IsWritable(parts: seq<Latin1>, lines: seq<Latin1>) {
    && |parts| > 0
    && (forall part :: part in parts ==> IsClean(part, [SPACE]) && IsClean(part, CRLF))
    && (forall line :: line in lines ==> line != [] && IsClean(line, CRLF))
  }

  /** The message with this request line and these header lines, and what follows its empty line. */
  function Message(parts: seq<Latin1>, lines: seq<Latin1>, later: seq<Byte>): seq<Byte>
    requires |parts| > 0
  {
    Raw([Joined(parts, [SPACE])] + lines, later)
  }

  /** Spaces bring no line end into a line. */
  lemma {:induction false} SpacedIsClean(parts: seq<Latin1>)
    requires |parts| > 0 && forall part :: part in parts ==> IsClean(part, CRLF)
    ensures IsClean(Joined(parts, [SPACE]), CRLF)
  {
    if |parts| > 1 {
      var first, later := parts[0], Joined(parts[1..], [SPACE]);
      SpacedIsClean(parts[1..]);
      assert IsClean(first, CRLF);
      forall j | 0 <= j <= |first| + 1 + |later| ensures !StandsAt(first + [SPACE] + later, j, CRLF) {
        EndsAtIs(first + [SPACE] + later, j);
        EndsAtIs(first, j);
        if j > |first| { EndsAtIs(later, j - |first| - 1); }
      }
    }
  }

  lemma MessageSplits(parts: seq<Latin1>, lines: seq<Latin1>, later: seq<Byte>)
    requires IsWritable(parts, lines)
    ensures var raw, head := Message(parts, lines, later), Joined([Joined(parts, [SPACE])] + lines, CRLF);
            && IndexOf(raw, HEADER_TERMINATOR, 0) == Some(|head|) && raw[..|head|] == head && raw[|head| + 4..] == later
            && Split(head, CRLF) == [Joined(parts, [SPACE])] + lines && Split(Joined(parts, [SPACE]), [SPACE]) == parts
  {
    hide Split, IndexOf, Joined, Raw;
    var all := [Joined(parts, [SPACE])] + lines;
    SpacedIsClean(parts);
    assert forall line :: line in all ==> IsClean(line, CRLF);
    assert all[1..] == lines;
    HeadFound(all, later);
    JoinedSplits(all, CRLF);
    JoinedSplits(parts, [SPACE]);
  }

  /** The parser's answer to a message, case by case: 400 exactly for a request line without three parts or with another method than
      POST, 501 exactly if a header line names transfer-encoding, 400 exactly if the last content-length is no length, 413
      exactly if it announces more than a MiB; else the request with the announced body as soon as that is there. */
  lemma MessageIsAnswered(parts: seq<Latin1>, lines: seq<Latin1>, later: seq<Byte>, n: nat)
    requires IsWritable(parts, lines)
    ensures var answer := Parse(Message(parts, lines, later));
            && (answer == Bad(400, MalformedRequestLine) <==> |parts| != 3)
            && (answer == Bad(400, PostOnly) <==> |parts| == 3 && parts[0] != Ascii("POST"))
            && (|parts| == 3 && parts[0] == Ascii("POST") ==>
                  if exists line :: line in lines && Names(line, Ascii("transfer-encoding")) then answer == Bad(501, ChunkedNotSupported)
                  else
                    && (answer == Bad(400, BadContentLength) <==> forall m: nat :: !Announce(lines, m))
                    && (Announce(lines, n) ==>
                          answer == if n > 0x10_0000 then Bad(413, BodyTooLarge)
                                    else if |later| < n then NeedMore
                                    else Ok(Request(parts[1], HeadersOf(lines), later[..n]))))
  {
    hide Split, IndexOf, Joined, HeadersOf, Names, Announce, ContentLength, Message;
    MessageSplits(parts, lines, later);
    LastHeaderCounts(lines, TRANSFER_ENCODING);
    assert forall i :: 0 <= i < |lines| ==> lines[i] in lines;
    var length := ContentLength(HeadersOf(lines));
    AnnouncedLength(lines, n);
    forall m: nat ensures length == Some(m) <==> Announce(lines, m) { AnnouncedLength(lines, m); }
    var raw, headerEnd := Message(parts, lines, later), |Joined([Joined(parts, [SPACE])] + lines, CRLF)|;
    assert ([Joined(parts, [SPACE])] + lines)[1..] == lines;
    assert |later| >= n ==> raw[headerEnd + 4..headerEnd + 4 + n] == later[..n];
    assert Ascii("POST") == POST;
  }

  // Header lines

  /** Blanks, tabs and the other characters that are trimmed. */
  ghost predicate IsBlank(b: Byte) {
    9 <= b <= 13 || 28 <= b <= 32 || b == 160
  }

  ghost predicate IsPad(t: Latin1) {
    forall i :: 0 <= i < |t| ==> IsBlank(t[i])
  }

  /** Neither the first nor the last character would be trimmed. */
  ghost predicate IsTight(t: Latin1) {
    t != [] && !IsBlank(t[0]) && !IsBlank(t[|t| - 1])
  }

  lemma {:induction false} TrimsStart(pad: Latin1, t: Latin1)
    requires IsPad(pad) && (t != [] ==> !IsBlank(t[0]))
    ensures TrimStart(pad + t) == t
    decreases |pad|
  {
    if pad == [] {
      assert pad + t == t;
    } else {
      assert (pad + t)[1..] == pad[1..] + t;
      TrimsStart(pad[1..], t);
    }
  }

  lemma {:induction false} TrimsEnd(t: Latin1, pad: Latin1)
    requires IsPad(pad) && (t != [] ==> !IsBlank(t[|t| - 1]))
    ensures TrimEnd(t + pad) == t
    decreases |pad|
  {
    if pad == [] {
      assert t + pad == t;
    } else {
      assert (t + pad)[..|t + pad| - 1] == t + pad[..|pad| - 1];
      TrimsEnd(t, pad[..|pad| - 1]);
    }
  }

  lemma Trims(before: Latin1, t: Latin1, behind: Latin1)
    requires IsPad(before) && IsPad(behind) && IsTight(t)
    ensures Trim(before + t + behind) == t
  {
    assert before + t + behind == before + (t + behind);
    TrimsStart(before, t + behind);
    TrimsEnd(t, behind);
  }

  /** The same but for the case of ASCII letters; `name` is in lower case. */
  ghost predicate IsNameInAnyCase(key: Latin1, name: Latin1) {
    |key| == |name| && forall i :: 0 <= i < |key| ==> key[i] == name[i] || (0x41 <= key[i] <= 0x5A && key[i] + 32 == name[i])
  }

  ghost predicate IsAsciiLower(name: Latin1) {
    forall i :: 0 <= i < |name| ==> name[i] < 0x41 || 0x5A < name[i] < 0x80
  }

  /** A header line says what stands behind its first colon about what stands in front of it, in any case and between any blanks. */
  lemma LineSays(a: Latin1, key: Latin1, b: Latin1, c: Latin1, value: Latin1, d: Latin1, name: Latin1)
    requires IsPad(a) && IsPad(b) && IsPad(c) && IsPad(d) && IsTight(key) && IsTight(value) && COLON !in key && IsAsciiLower(name)
    ensures var line := (a + key + b) + [COLON] + (c + value + d);
            (Names(line, name) <==> IsNameInAnyCase(key, name)) && IndexOf(line, [COLON], 0).Some? && ValueOf(line) == value
  {
    var front, line := a + key + b, (a + key + b) + [COLON] + (c + value + d);
    forall j | 0 <= j < |front| ensures !StandsAt(line, j, [COLON]) {
      assert line[j] == front[j] != COLON;
    }
    assert line[|front|..|front| + 1] == [COLON];
    IndexOfExactly(line, [COLON], 0, |front|);
    assert line[..|front|] == front && line[|front| + 1..] == c + value + d;
    Trims(a, key, b);
    Trims(c, value, d);
    LowercaseIs(key, name);
  }

  lemma LowercaseIs(key: Latin1, name: Latin1)
    requires IsAsciiLower(name)
    ensures Lowercase(key) == name <==> IsNameInAnyCase(key, name)
  {
    if Lowercase(key) == name {
      forall i | 0 <= i < |key| ensures key[i] == name[i] || (0x41 <= key[i] <= 0x5A && key[i] + 32 == name[i]) {
        assert Lower(key[i]) == name[i];
      }
    }
  }

  /** So every POST request of at most a MiB is accepted as soon as it has arrived: any path, any version, any other header lines in
      front of the one that gives the length. */
  lemma RequestIsAccepted(path: Latin1, version: Latin1, lines: seq<Latin1>, key: Latin1, body: seq<Byte>, later: seq<Byte>)
    requires IsWritable([Ascii("POST"), path, version], lines) && IsNameInAnyCase(key, CONTENT_LENGTH)
    requires forall line :: line in lines ==> !Names(line, TRANSFER_ENCODING)
    requires |body| <= 0x10_0000
    ensures var all := lines + [key + [COLON, SPACE] + Digits(|body|)];
            Parse(Message([Ascii("POST"), path, version], all, body + later)) == Ok(Request(path, HeadersOf(all), body))
  {
    hide *;
    var line := key + [COLON, SPACE] + Digits(|body|);
    var all := lines + [line];
    LengthLine(key, |body|);
    OneMoreLine([Ascii("POST"), path, version], lines, line, |body|);
    MessageIsAnswered([Ascii("POST"), path, version], all, body + later, |body|);
    assert (body + later)[..|body|] == body;
  }

  lemma OneMoreLine(parts: seq<Latin1>, lines: seq<Latin1>, line: Latin1, n: nat)
    requires IsWritable(parts, lines) && line != [] && IsClean(line, CRLF)
    requires Names(line, CONTENT_LENGTH) && !Names(line, TRANSFER_ENCODING) && IsDecimal(ValueOf(line), n)
    requires forall x :: x in lines ==> !Names(x, TRANSFER_ENCODING)
    ensures IsWritable(parts, lines + [line]) && Announce(lines + [line], n)
    ensures !exists x :: x in lines + [line] && Names(x, Ascii("transfer-encoding"))
  {
    hide Names, IsDecimal, IsClean;
    var all := lines + [line];
    assert all[|lines|] == line && line in all;
  }

  lemma LengthLine(key: Latin1, n: nat)
    requires IsNameInAnyCase(key, CONTENT_LENGTH) && n <= 0x10_0000
    ensures var line := key + [COLON, SPACE] + Digits(n);
            && line != [] && IsClean(line, CRLF) && Names(line, CONTENT_LENGTH) && !Names(line, TRANSFER_ENCODING)
            && IsDecimal(ValueOf(line), n)
  {
    hide IndexOf, Names, ValueOf, Digits, Ascii, Trim;
    DigitsAre(n);
    KeyIsTight(key);
    NotTheOther(key);
    var line := key + [COLON, SPACE] + Digits(n);
    assert line == ([] + key + []) + [COLON] + ([SPACE] + Digits(n) + []);
    LineSays([], key, [], [SPACE], Digits(n), [], CONTENT_LENGTH);
    LineSays([], key, [], [SPACE], Digits(n), [], TRANSFER_ENCODING);
    PlainIsDecimal(n);
    NoReturn(line);
  }

  lemma NoReturn(line: Latin1)
    requires 13 !in line
    ensures IsClean(line, CRLF)
  {
    forall j | 0 <= j <= |line| ensures !StandsAt(line, j, CRLF) { EndsAtIs(line, j); }
  }

  lemma PlainIsDecimal(n: nat)
    requires n < 0x8000_0000
    ensures IsDecimal(Digits(n), n)
  {
    assert IsSignFor([], n) && Digits(n) == [] + Zeros(0) + Digits(n);
  }

  lemma NotTheOther(key: Latin1)
    requires |key| == 14
    ensures !IsNameInAnyCase(key, TRANSFER_ENCODING)
  {
    assert |TRANSFER_ENCODING| == 17;
  }

  lemma KeyIsTight(key: Latin1)
    requires IsNameInAnyCase(key, CONTENT_LENGTH)
    ensures IsTight(key) && COLON !in key && 13 !in key && |key| == 14 && |TRANSFER_ENCODING| == 17
    ensures IsAsciiLower(CONTENT_LENGTH) && IsAsciiLower(TRANSFER_ENCODING)
  {
    assert CONTENT_LENGTH[0] == 0x63 && CONTENT_LENGTH[13] == 0x68;
    assert forall i :: 0 <= i < 14 ==> CONTENT_LENGTH[i] == "content-length"[i] as int;
  }

  lemma {:induction false} DigitsAre(n: nat)
    ensures Digits(n) != [] && forall i :: 0 <= i < |Digits(n)| ==> 0x30 <= Digits(n)[i] <= 0x39
  {
    if n >= 10 { DigitsAre(n / 10); }
  }
}
