/** The reading loop of the runner's HTTP server (android-controller/runner/.../HttpServer.kt). */
module HttpServer {
  import opened Common
  import opened Bytes
  import opened HttpParser

  const READ_BUFFER_BYTES := MAX_BODY_BYTES + 8 * 1024

  /** What becomes of a connection: a request handed to the router, a refusal, too few bytes, or a full buffer. */
  datatype Outcome = Routed(request: Request) | Refused(status: nat, reason: Reason) | Incomplete | TooLarge

  function Min(a: nat, b: nat): nat {
    if a < b then a else b
  }

  /** How full the buffer is at the start and after each read: more each time, until the stream ends or the buffer is full. */
  ghost predicate AreFills(stream: seq<Byte>, fills: seq<nat>) {
    && |fills| > 0 && fills[0] == 0 && fills[|fills| - 1] == Min(|stream|, READ_BUFFER_BYTES)
    && forall i, j :: 0 <= i < j < |fills| ==> fills[i] < fills[j]
  }

  /** The outcome of the loop from the i-th round on. */
  function Loop(stream: seq<Byte>, fills: seq<nat>, i: nat): Outcome
    requires i < |fills| && forall k :: 0 <= k < |fills| ==> fills[k] <= |stream|
    decreases |fills| - i
  {
    if fills[i] >= READ_BUFFER_BYTES then TooLarge
    else
      match Parse(stream[..fills[i]])
      case Ok(request) => Routed(request)
      case Bad(status, reason) => Refused(status, reason)
      case NeedMore => if i + 1 == |fills| then Incomplete else Loop(stream, fills, i + 1)
  }

  /** What the bytes say, however they arrive. */
  function Verdict(stream: seq<Byte>): Outcome {
    match Parse(stream)
    case Ok(request) => Routed(request)
    case Bad(status, reason) => Refused(status, reason)
    case NeedMore => Incomplete
  }

  /** The loop with its buffer; `fills` plays the part of the network. */
  method ReadAndRoute(stream: seq<Byte>, fills: seq<nat>) returns (r: Outcome)
    requires AreFills(stream, fills)
    ensures r == Loop(stream, fills, 0)
  {
    var buffer := new Byte[READ_BUFFER_BYTES];
    var length, round := 0, 0;
    while length < buffer.Length
      invariant round < |fills| && length == fills[round] <= Min(|stream|, buffer.Length) && buffer[..length] == stream[..length]
      invariant Loop(stream, fills, 0) == Loop(stream, fills, round)
      decreases |fills| - round
    {
      var result := Parse(buffer[..length]);
      if result.Ok? { return Routed(result.request); }
      if result.Bad? { return Refused(result.status, result.reason); }
      if round + 1 == |fills| { return Incomplete; }
      FillsFit(stream, fills, round + 1);
      PutAll(buffer, length, stream[length..fills[round + 1]]);
      round := round + 1;
      length := fills[round];
    }
    return TooLarge;
  }

  lemma FillsFit(stream: seq<Byte>, fills: seq<nat>, i: nat)
    requires AreFills(stream, fills) && 0 < i < |fills|
    ensures fills[i - 1] < fills[i] <= Min(|stream|, READ_BUFFER_BYTES)
  {
    assert i < |fills| - 1 ==> fills[i] < fills[|fills| - 1];
  }

  lemma StableUpTo(stream: seq<Byte>, n: nat, m: nat)
    requires n <= m <= |stream| && !Parse(stream[..n]).NeedMore?
    ensures Parse(stream[..m]) == Parse(stream[..n])
  {
    assert stream[..m] == stream[..n] + stream[n..m];
    PrefixIsStable(stream[..n], stream[n..m]);
  }

  /** A stream that fits: the loop ends with what the whole stream says. */
  lemma {:induction false} FittingStream(stream: seq<Byte>, fills: seq<nat>, i: nat)
    requires AreFills(stream, fills) && i < |fills| && |stream| < READ_BUFFER_BYTES
    requires forall k :: 0 <= k < |fills| ==> fills[k] <= |stream|
    ensures Loop(stream, fills, i) == Verdict(stream)
    decreases |fills| - i
  {
    assert stream[..|stream|] == stream;
    if !Parse(stream[..fills[i]]).NeedMore? {
      StableUpTo(stream, fills[i], |stream|);
    } else if i + 1 < |fills| {
      FittingStream(stream, fills, i + 1);
    }
  }

  /** A stream that fills the buffer while its first bytes say nothing yet is too large. */
  lemma {:induction false} SilentStream(stream: seq<Byte>, fills: seq<nat>, i: nat)
    requires AreFills(stream, fills) && i < |fills| && |stream| >= READ_BUFFER_BYTES
    requires forall k :: 0 <= k < |fills| ==> fills[k] <= |stream|
    requires Parse(stream[..READ_BUFFER_BYTES - 1]).NeedMore?
    ensures Loop(stream, fills, i) == TooLarge
    decreases |fills| - i
  {
    if fills[i] < READ_BUFFER_BYTES {
      if !Parse(stream[..fills[i]]).NeedMore? { StableUpTo(stream, fills[i], READ_BUFFER_BYTES - 1); }
      SilentStream(stream, fills, i + 1);
    }
  }

  lemma FillsAreWithin(stream: seq<Byte>, fills: seq<nat>)
    requires AreFills(stream, fills)
    ensures forall k :: 0 <= k < |fills| ==> fills[k] <= |stream|
  {
    forall k | 0 <= k < |fills| ensures fills[k] <= |stream| {
      if k > 0 { FillsFit(stream, fills, k); }
    }
  }

  /** The only outcome a stream can have if how it is cut makes no difference. */
  function Expected(stream: seq<Byte>): Outcome {
    if |stream| < READ_BUFFER_BYTES then Verdict(stream) else TooLarge
  }

  /** The outcome is the same for every segmentation exactly when the stream is shorter than the buffer, or nothing is
      decided before its last byte: a request that is complete earlier is served or refused as too large, depending on
      whether a read happens to end before the buffer is full. */
  lemma SegmentationDoesNotMatterIff(stream: seq<Byte>)
    ensures (forall fills, others :: AreFills(stream, fills) && AreFills(stream, others) ==> SameOutcome(stream, fills, others))
        <==> |stream| < 0x10_2000 || Parse(stream[..0x10_2000 - 1]).NeedMore?
  {
    if |stream| < READ_BUFFER_BYTES || Parse(stream[..READ_BUFFER_BYTES - 1]).NeedMore? {
      forall fills, others | AreFills(stream, fills) && AreFills(stream, others) ensures SameOutcome(stream, fills, others) {
        OutcomeIsExpected(stream, fills);
        OutcomeIsExpected(stream, others);
      }
    } else {
      CutsMatter(stream);
    }
  }

  ghost predicate SameOutcome(stream: seq<Byte>, fills: seq<nat>, others: seq<nat>)
    requires AreFills(stream, fills) && AreFills(stream, others)
  {
    FillsAreWithin(stream, fills);
    FillsAreWithin(stream, others);
    Loop(stream, fills, 0) == Loop(stream, others, 0)
  }

  lemma OutcomeIsExpected(stream: seq<Byte>, fills: seq<nat>)
    requires AreFills(stream, fills)
    requires |stream| < READ_BUFFER_BYTES || Parse(stream[..READ_BUFFER_BYTES - 1]).NeedMore?
    ensures forall k :: 0 <= k < |fills| ==> fills[k] <= |stream|
    ensures Loop(stream, fills, 0) == Expected(stream)
  {
    FillsAreWithin(stream, fills);
    if |stream| < READ_BUFFER_BYTES { FittingStream(stream, fills, 0); } else { SilentStream(stream, fills, 0); }
  }

  lemma NothingYet()
    ensures Parse([]).NeedMore?
  {
  }

  lemma CutsMatter(stream: seq<Byte>)
    requires |stream| >= READ_BUFFER_BYTES && !Parse(stream[..READ_BUFFER_BYTES - 1]).NeedMore?
    ensures exists fills, others :: AreFills(stream, fills) && AreFills(stream, others) && !SameOutcome(stream, fills, others)
  {
    var n := READ_BUFFER_BYTES;
    var one, two: seq<nat> := [0, n], [0, n - 1, n];
    NothingYet();
    assert stream[..0] == [];
    assert AreFills(stream, one) && AreFills(stream, two);
    assert Loop(stream, one, 0) == Loop(stream, one, 1) == TooLarge;
    assert Loop(stream, two, 0) == Loop(stream, two, 1) != TooLarge;
    assert !SameOutcome(stream, one, two);
  }

  /** "POST / H" and an empty line: a complete request without a body. */
  const SHORT_LINE: seq<Byte> := [0x50, 0x4F, 0x53, 0x54, 0x20, 0x2F, 0x20, 0x48]
  const SHORT_REQUEST: seq<Byte> := SHORT_LINE + HEADER_TERMINATOR

  lemma ShortLineHasThreeParts()
    ensures Split(SHORT_LINE, [SPACE]) == [POST, [0x2F], [0x48]] && Split(SHORT_LINE, CRLF) == [SHORT_LINE]
  {
    var one, two := SHORT_LINE[5..], SHORT_LINE[7..];
    IndexOfIs(SHORT_LINE, [SPACE], 0, 4);
    IndexOfIs(one, [SPACE], 0, 1);
    IndexOfIsFirst(two, [SPACE], 0);
    IndexOfIsFirst(SHORT_LINE, CRLF, 0);
    assert one == [0x2F, 0x20, 0x48] && two == [0x48] && one[2..] == two;
    assert Split(two, [SPACE]) == [two];
    assert Split(one, [SPACE]) == [one[..1]] + Split(two, [SPACE]);
    assert SHORT_LINE[..4] == POST && one[..1] == [0x2F];
  }

  lemma ShortRequestIsAccepted()
    ensures Parse(SHORT_REQUEST) == Ok(Request([0x2F], map[], []))
  {
    hide Split;
    ShortLineHasThreeParts();
    IndexOfIs(SHORT_REQUEST, HEADER_TERMINATOR, 0, 8);
    assert SHORT_REQUEST[..8] == SHORT_LINE;
  }

  /** The condition does fail: every stream of at least the buffer's size that begins with this request is served or refused
      as too large, depending on where reads end. */
  lemma SegmentationMatters(stream: seq<Byte>)
    requires |stream| >= READ_BUFFER_BYTES && SHORT_REQUEST <= stream
    ensures Loop(stream, [0, READ_BUFFER_BYTES - 1, READ_BUFFER_BYTES], 0) == Routed(Request([0x2F], map[], []))
    ensures Loop(stream, [0, READ_BUFFER_BYTES], 0) == TooLarge
    ensures exists fills, others :: AreFills(stream, fills) && AreFills(stream, others) && !SameOutcome(stream, fills, others)
  {
    hide Parse;
    ShortRequestIsAccepted();
    var n := READ_BUFFER_BYTES;
    assert stream[..|SHORT_REQUEST|] == SHORT_REQUEST && stream[..0] == [];
    StableUpTo(stream, |SHORT_REQUEST|, n - 1);
    NothingYet();
    var one, two: seq<nat> := [0, n], [0, n - 1, n];
    assert Loop(stream, one, 0) == Loop(stream, one, 1);
    assert Loop(stream, two, 0) == Loop(stream, two, 1);
    CutsMatter(stream);
  }
}
