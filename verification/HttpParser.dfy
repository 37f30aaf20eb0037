/** Incremental HTTP/1.1 request parser (android-controller/runner/.../HttpParser.kt). */
module HttpParser {
  import opened Common
  import opened Bytes

  /** Text decoded as ISO-8859-1: one character a byte. */
  type Latin1 = seq<Byte>

  const MAX_BODY_BYTES := 0x10_0000
  const CRLF: Latin1 := [13, 10]
  const HEADER_TERMINATOR: Latin1 := [13, 10, 13, 10]
  const SPACE: Byte := 0x20
  const COLON: Byte := 0x3A
  const POST: Latin1 := [0x50, 0x4F, 0x53, 0x54]

  function Ascii(s: string): (r: Latin1)
    requires forall i :: 0 <= i < |s| ==> s[i] as int < 128
    ensures |r| == |s|
  {
    seq(|s|, i requires 0 <= i < |s| => s[i] as int)
  }

  const CONTENT_LENGTH: Latin1 := Ascii("content-length")
  const TRANSFER_ENCODING: Latin1 := Ascii("transfer-encoding")

  datatype Request = Request(path: Latin1, headers: map<Latin1, Latin1>, body: seq<Byte>)

  /** The reason of a refusal, standing for its text. */
  datatype Reason = MalformedRequestLine | PostOnly | ChunkedNotSupported | BadContentLength | BodyTooLarge

  datatype ParseResult = NeedMore | Bad(status: nat, reason: Reason) | Ok(request: Request)

  predicate StandsAt(text: Latin1, i: nat, pattern: Latin1) {
    i + |pattern| <= |text| && text[i..i + |pattern|] == pattern
  }

  /** indexOf: the first occurrence at or behind i. */
  function IndexOf(text: Latin1, pattern: Latin1, i: nat): (r: Option<nat>)
    ensures r.Some? ==> i <= r.value && StandsAt(text, r.value, pattern)
    decreases |text| - i
  {
    if StandsAt(text, i, pattern) then Some(i)
    else if i < |text| then IndexOf(text, pattern, i + 1)
    else None
  }

  function Split(text: Latin1, separator: Latin1): (r: seq<Latin1>)
    requires separator != []
    ensures |r| > 0
    decreases |text|
  {
    match IndexOf(text, separator, 0)
    case None => [text]
    case Some(i) => [text[..i]] + Split(text[i + |separator|..], separator)
  }

  /** Char.isWhitespace below 256. */
  predicate IsWhitespace(b: Byte) {
    9 <= b <= 13 || 0x1C <= b <= 0x20 || b == 0xA0
  }

  function TrimStart(t: Latin1): Latin1 {
    if t != [] && IsWhitespace(t[0]) then TrimStart(t[1..]) else t
  }

  function TrimEnd(t: Latin1): Latin1 {
    if t != [] && IsWhitespace(t[|t| - 1]) then TrimEnd(t[..|t| - 1]) else t
  }

  function Trim(t: Latin1): Latin1 {
    TrimEnd(TrimStart(t))
  }

  function Lower(b: Byte): Byte {
    if 0x41 <= b <= 0x5A || (0xC0 <= b <= 0xDE && b != 0xD7) then b + 32 else b
  }

  function Lowercase(t: Latin1): Latin1 {
    seq(|t|, i requires 0 <= i < |t| => Lower(t[i]))
  }

  /** A header line without a colon says nothing; a name repeated keeps its last value. */
  function HeadersOf(lines: seq<Latin1>): map<Latin1, Latin1> {
    if lines == [] then map[]
    else
      var before, line := HeadersOf(lines[..|lines| - 1]), lines[|lines| - 1];
      match IndexOf(line, [COLON], 0)
      case None => before
      case Some(i) => before[Lowercase(Trim(line[..i])) := Trim(line[i + 1..])]
  }

  function DigitsValue(t: Latin1): Option<nat> {
    if t == [] then Some(0)
    else
      var high, low := DigitsValue(t[..|t| - 1]), t[|t| - 1];
      if high.Some? && 0x30 <= low <= 0x39 then Some(10 * high.value + (low - 0x30)) else None
  }

  /** String.toIntOrNull: a sign is allowed, the value must be a 32-bit integer. */
  function ToIntOrNull(t: Latin1): Option<int> {
    var signed := t != [] && (t[0] == 0x2D || t[0] == 0x2B);
    var digits := if signed then t[1..] else t;
    var n := DigitsValue(digits);
    if digits == [] || n.None? then None
    else
      var value := if t[0] == 0x2D then -(n.value as int) else n.value;
      if -0x8000_0000 <= value < 0x8000_0000 then Some(value) else None
  }

  /** Missing means no body, anything but a number from 0 on is refused. */
  function ContentLength(headers: map<Latin1, Latin1>): Option<nat> {
    if CONTENT_LENGTH !in headers then Some(0)
    else
      var n := ToIntOrNull(headers[CONTENT_LENGTH]);
      if n.None? || n.value < 0 then None else Some(n.value)
  }

  function Parse(raw: seq<Byte>): ParseResult {
    match IndexOf(raw, HEADER_TERMINATOR, 0)
    case None => NeedMore
    case Some(headerEnd) => ParseBehind(raw, headerEnd)
  }

  function ParseBehind(raw: seq<Byte>, headerEnd: nat): ParseResult
    requires headerEnd + 4 <= |raw|
  {
    var lines := Split(raw[..headerEnd], CRLF);
    var parts := Split(lines[0], [SPACE]);
    if |parts| != 3 then Bad(400, MalformedRequestLine)
    else if parts[0] != POST then Bad(400, PostOnly)
    else
      var headers := HeadersOf(lines[1..]);
      if TRANSFER_ENCODING in headers then Bad(501, ChunkedNotSupported)
      else
        var length := ContentLength(headers);
        if length.None? then Bad(400, BadContentLength)
        else if length.value > MAX_BODY_BYTES then Bad(413, BodyTooLarge)
        else if |raw| < headerEnd + 4 + length.value then NeedMore
        else Ok(Request(parts[1], headers, raw[headerEnd + 4..headerEnd + 4 + length.value]))
  }

  /** The loop over the header lines. */
  method ParseHeaders(lines: seq<Latin1>) returns (headers: map<Latin1, Latin1>)
    ensures headers == HeadersOf(lines)
  {
    headers := map[];
    for k := 0 to |lines|
      invariant headers == HeadersOf(lines[..k])
    {
      assert lines[..k + 1][..k] == lines[..k];
      var separator := IndexOf(lines[k], [COLON], 0);
      if separator.None? { continue; }
      var key := Lowercase(Trim(lines[k][..separator.value]));
      headers := headers[key := Trim(lines[k][separator.value + 1..])];
    }
    assert lines[..|lines|] == lines;
  }

  /** An occurrence stays the first one when text is appended. */
  lemma {:induction false} IndexOfStays(a: Latin1, b: Latin1, pattern: Latin1, i: nat)
    requires IndexOf(a, pattern, i).Some?
    ensures IndexOf(a + b, pattern, i) == IndexOf(a, pattern, i)
    decreases |a| - i
  {
    var k := IndexOf(a, pattern, i).value;
    assert i + |pattern| <= |a|;
    assert (a + b)[i..i + |pattern|] == a[i..i + |pattern|];
    if !StandsAt(a, i, pattern) { IndexOfStays(a, b, pattern, i + 1); }
  }

  /** Once a prefix is answered, every extension is answered the same way. */
  lemma PrefixIsStable(a: seq<Byte>, b: seq<Byte>)
    requires !Parse(a).NeedMore?
    ensures Parse(a + b) == Parse(a)
  {
    IndexOfStays(a, b, HEADER_TERMINATOR, 0);
    var headerEnd := IndexOf(a, HEADER_TERMINATOR, 0).value;
    assert (a + b)[..headerEnd] == a[..headerEnd];
    if Parse(a).Ok? {
      var end := headerEnd + 4 + |Parse(a).request.body|;
      assert (a + b)[headerEnd + 4..end] == a[headerEnd + 4..end];
    }
  }

  /** IndexOf finds the first occurrence and misses none. */
  lemma {:induction false} IndexOfIsFirst(text: Latin1, pattern: Latin1, i: nat)
    requires i <= |text| && pattern != []
    ensures match IndexOf(text, pattern, i)
            case None => forall j :: i <= j ==> !StandsAt(text, j, pattern)
            case Some(k) => forall j :: i <= j < k ==> !StandsAt(text, j, pattern)
    decreases |text| - i
  {
    if !StandsAt(text, i, pattern) && i < |text| { IndexOfIsFirst(text, pattern, i + 1); }
  }

  function Joined(parts: seq<Latin1>, separator: Latin1): Latin1
    requires |parts| > 0
  {
    if |parts| == 1 then parts[0] else parts[0] + separator + Joined(parts[1..], separator)
  }

  predicate IsClean(part: Latin1, separator: Latin1) {
    forall j :: 0 <= j <= |part| ==> !StandsAt(part, j, separator)
  }

  lemma PrefixIsClean(text: Latin1, separator: Latin1, i: nat)
    requires separator != [] && i <= |text| && forall j :: 0 <= j < i ==> !StandsAt(text, j, separator)
    ensures IsClean(text[..i], separator)
  {
    forall j | 0 <= j <= i ensures !StandsAt(text[..i], j, separator) {
      if StandsAt(text[..i], j, separator) {
        assert text[..i][j..j + |separator|] == text[j..j + |separator|];
        assert StandsAt(text, j, separator);
      }
    }
  }

  /** Splitting loses nothing. */
  lemma {:induction false} SplitJoins(text: Latin1, separator: Latin1)
    requires separator != []
    ensures Joined(Split(text, separator), separator) == text
    decreases |text|
  {
    var i := IndexOf(text, separator, 0);
    if i.Some? {
      var later := text[i.value + |separator|..];
      SplitJoins(later, separator);
      assert text == text[..i.value] + text[i.value..i.value + |separator|] + later;
      assert ([text[..i.value]] + Split(later, separator))[1..] == Split(later, separator);
    }
  }

  /** No part holds a separator any more. */
  lemma {:induction false} PartsAreClean(text: Latin1, separator: Latin1)
    requires separator != []
    ensures forall part :: part in Split(text, separator) ==> IsClean(part, separator)
    decreases |text|
  {
    IndexOfIsFirst(text, separator, 0);
    var i := IndexOf(text, separator, 0);
    PrefixIsClean(text, separator, if i.Some? then i.value else |text|);
    if i.Some? {
      PartsAreClean(text[i.value + |separator|..], separator);
    } else {
      assert text[..|text|] == text;
    }
  }

  lemma {:induction false} IndexOfIs(text: Latin1, pattern: Latin1, i: nat, k: nat)
    requires i <= k && pattern != [] && StandsAt(text, k, pattern) && forall j :: i <= j < k ==> text[j] != pattern[0]
    ensures IndexOf(text, pattern, i) == Some(k)
    decreases k - i
  {
    if i < k {
      StartsElsewhere(text, i, pattern);
      IndexOfIs(text, pattern, i + 1, k);
    }
  }

  lemma StartsElsewhere(text: Latin1, i: nat, pattern: Latin1)
    requires i < |text| && pattern != [] && text[i] != pattern[0]
    ensures !StandsAt(text, i, pattern)
  {
    if i + |pattern| <= |text| { assert text[i..i + |pattern|][0] == text[i]; }
  }

  /** Section 6.3 of RFC 9112, Content-Length only: the body of an accepted request is exactly the announced number of bytes
      behind the first empty line, none if no length is announced, and never more than a MiB. */
  lemma BodyIsAsAnnounced(raw: seq<Byte>)
    requires Parse(raw).Ok?
    ensures var request := Parse(raw).request;
            && TRANSFER_ENCODING !in request.headers
            && exists headerEnd: nat ::
                 && StandsAt(raw, headerEnd, HEADER_TERMINATOR)
                 && (forall j :: 0 <= j < headerEnd ==> !StandsAt(raw, j, HEADER_TERMINATOR))
                 && headerEnd + 4 + |request.body| <= |raw|
                 && request.body == raw[headerEnd + 4..headerEnd + 4 + |request.body|]
                 && ContentLength(request.headers) == Some(|request.body|)
                 && |request.body| <= MAX_BODY_BYTES
  {
    IndexOfIsFirst(raw, HEADER_TERMINATOR, 0);
    var headerEnd := IndexOf(raw, HEADER_TERMINATOR, 0).value;
    assert StandsAt(raw, headerEnd, HEADER_TERMINATOR);
  }

  /** An accepted request begins with the line POST, path, version, separated by single spaces of which the path has none. */
  lemma AcceptedRequestLine(raw: seq<Byte>) returns (version: Latin1, later: seq<Byte>)
    requires Parse(raw).Ok?
    ensures BeginsWith(raw, Parse(raw).request.path, version, later) && IsClean(Parse(raw).request.path, [SPACE])
  {
    var headerEnd := IndexOf(raw, HEADER_TERMINATOR, 0).value;
    var line, end := FirstLine(raw, headerEnd);
    var parts := Split(line, [SPACE]);
    SplitJoins(line, [SPACE]);
    PartsAreClean(line, [SPACE]);
    assert parts[1] in parts;
    ThreeParts(parts);
    assert raw == line + raw[end..];
    version, later := parts[2], raw[end..];
  }

  lemma FirstLine(raw: seq<Byte>, headerEnd: nat) returns (line: Latin1, end: nat)
    requires StandsAt(raw, headerEnd, HEADER_TERMINATOR)
    ensures end <= |raw| && line == raw[..end] == Split(raw[..headerEnd], CRLF)[0] && CRLF <= raw[end..]
  {
    var head := raw[..headerEnd];
    var i := IndexOf(head, CRLF, 0);
    end := if i.Some? then i.value else headerEnd;
    line := head[..end];
    if i.Some? {
      assert raw[end..end + 2] == head[end..end + 2];
    } else {
      assert raw[end..end + 2] == raw[headerEnd..headerEnd + 4][..2];
    }
    assert raw[end..][..2] == raw[end..end + 2];
  }

  ghost predicate BeginsWith(raw: seq<Byte>, path: Latin1, version: Latin1, later: seq<Byte>) {
    raw == POST + [SPACE] + path + [SPACE] + version + later && CRLF <= later
  }

  lemma ThreeParts(parts: seq<Latin1>)
    requires |parts| == 3
    ensures Joined(parts, [SPACE]) == parts[0] + [SPACE] + parts[1] + [SPACE] + parts[2]
  {
    var tail := parts[1..];
    assert tail[1..] == [parts[2]];
    assert Joined(tail, [SPACE]) == parts[1] + [SPACE] + parts[2];
    assert parts[0] + [SPACE] + (parts[1] + [SPACE] + parts[2]) == parts[0] + [SPACE] + parts[1] + [SPACE] + parts[2];
  }

  function Digits(n: nat): Latin1 {
    (if n < 10 then [] else Digits(n / 10)) + [0x30 + n % 10]
  }

  lemma OneMoreDigit(high: Latin1, n: nat, d: nat)
    requires DigitsValue(high) == Some(n) && d < 10
    ensures DigitsValue(high + [0x30 + d]) == Some(10 * n + d)
  {
    var t := high + [0x30 + d];
    assert t[..|t| - 1] == high && t[|t| - 1] == 0x30 + d;
    assert 10 * n + (t[|t| - 1] - 0x30) == 10 * n + d;
  }

  lemma {:induction false} DigitsReadBack(n: nat)
    ensures DigitsValue(Digits(n)) == Some(n) && |Digits(n)| > 0 && 0x30 <= Digits(n)[0] <= 0x39
  {
    if n < 10 {
      OneMoreDigit([], 0, n);
    } else {
      DigitsReadBack(n / 10);
      OneMoreDigit(Digits(n / 10), n / 10, n % 10);
    }
  }

  /** A length written in decimal is read as itself, up to the largest 32-bit integer; from there on it is refused. */
  lemma LengthReadsBack(headers: map<Latin1, Latin1>, n: nat)
    requires CONTENT_LENGTH in headers && headers[CONTENT_LENGTH] == Digits(n)
    ensures ContentLength(headers) == if n < 0x8000_0000 then Some(n) else None
  {
    DigitsReadBack(n);
  }

  /** The line says something about `name`. */
  predicate Names(line: Latin1, name: Latin1) {
    IndexOf(line, [COLON], 0).Some? && Lowercase(Trim(line[..IndexOf(line, [COLON], 0).value])) == name
  }

  function ValueOf(line: Latin1): Latin1
    requires IndexOf(line, [COLON], 0).Some?
  {
    Trim(line[IndexOf(line, [COLON], 0).value + 1..])
  }

  /** A header is there exactly if a line names it, and then it has the value of the last line that does. */
  lemma {:induction false} LastHeaderCounts(lines: seq<Latin1>, name: Latin1)
    ensures name in HeadersOf(lines) <==> exists i :: 0 <= i < |lines| && Names(lines[i], name)
    ensures forall i :: (0 <= i < |lines| && Names(lines[i], name) && forall j :: i < j < |lines| ==> !Names(lines[j], name)) ==>
              name in HeadersOf(lines) && HeadersOf(lines)[name] == ValueOf(lines[i])
  {
    hide IndexOf, TrimStart, TrimEnd, Trim, Lowercase;
    if lines != [] {
      var before, line := lines[..|lines| - 1], lines[|lines| - 1];
      LastHeaderCounts(before, name);
      if !Names(line, name) {
        assert forall i :: 0 <= i < |before| ==> before[i] == lines[i];
        assert name in HeadersOf(lines) <==> name in HeadersOf(before);
      }
    }
  }
}
