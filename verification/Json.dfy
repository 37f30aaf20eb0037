/** The hand-written JSON writer and reader as functions (android-controller/runner/.../Json.kt). */
module Json {
  import opened Common
  import opened JsonText

  /** `Double` and `Other` carry what `toString` gives for them; a Map keeps its members in insertion order. */
  datatype Value =
    | Null
    | Bool(isTrue: bool)
    | Int(n: int)
    | Long(n: int)
    | Double(text: Text)
    | Str(text: Text)
    | List(items: seq<Value>)
    | Map(members: seq<Member>)
    | Other(text: Text)

  datatype Member = Member(key: Text, value: Value)

  function Quoted(s: Text): Text {
    [QUOTE] + EscapeAll(s) + [QUOTE]
  }

  function Serialize(v: Value): Text
    decreases v, 0
  {
    match v
    case Null => NULL
    case Bool(isTrue) => if isTrue then TRUE else FALSE
    case Int(n) => Decimal(n)
    case Long(n) => Decimal(n)
    case Double(text) => text
    case Str(text) => Quoted(text)
    case List(items) => [LEFT_BRACKET] + (if items == [] then [RIGHT_BRACKET] else Serialize(items[0]) + MoreItems(items[1..]))
    case Map(members) =>
      [LEFT_BRACE] + (if members == [] then [RIGHT_BRACE] else SerializeMember(members[0]) + MoreMembers(members[1..]))
    case Other(text) => Quoted(text)
  }

  /** The rest of a list after an item, up to the closing bracket. */
  function MoreItems(items: seq<Value>): Text
    decreases items, 1
  {
    if items == [] then [RIGHT_BRACKET] else [COMMA] + (Serialize(items[0]) + MoreItems(items[1..]))
  }

  function SerializeMember(m: Member): Text
    decreases m, 1
  {
    Quoted(m.key) + ([COLON] + Serialize(m.value))
  }

  function MoreMembers(members: seq<Member>): Text
    decreases members, 1
  {
    if members == [] then [RIGHT_BRACE] else [COMMA] + (SerializeMember(members[0]) + MoreMembers(members[1..]))
  }

  /** A value read and the position behind it; None stands for an exception. */
  type Outcome<T> = Option<(T, nat)>

  function SkipWhitespace(raw: Text, p: nat): (q: nat)
    requires p <= |raw|
    ensures p <= q <= |raw|
    decreases |raw| - p
  {
    if p < |raw| && IsWhitespace(raw[p]) then SkipWhitespace(raw, p + 1) else p
  }

  function Expect(raw: Text, p: nat, u: Unit): (r: Option<nat>)
    ensures r.Some? ==> r.value == p + 1 <= |raw|
  {
    if p < |raw| && raw[p] == u then Some(p + 1) else None
  }

  function ReadLiteral(raw: Text, p: nat, literal: Text, v: Value): (r: Outcome<Value>)
    ensures r.Some? ==> p <= r.value.1 <= |raw|
  {
    if p + |literal| <= |raw| && raw[p..p + |literal|] == literal then Some((v, p + |literal|)) else None
  }

  function NumberEnd(raw: Text, p: nat): (q: nat)
    requires p <= |raw|
    ensures p <= q <= |raw|
    decreases |raw| - p
  {
    if p < |raw| && !IsDelimiter(raw[p]) then NumberEnd(raw, p + 1) else p
  }

  function ReadNumber(pf: Platform, raw: Text, p: nat): (r: Outcome<Value>)
    requires p <= |raw|
    ensures r.Some? ==> p <= r.value.1 <= |raw|
  {
    var end := NumberEnd(raw, p);
    var text := raw[p..end];
    var n := ToLongOrNull(pf, text);
    if n.Some? then Some((Long(n.value), end))
    else if pf.isDouble(text) then Some((Double(text), end))
    else None
  }

  /** Behind a backslash; `hex.toInt(16).toChar()` takes a sign and keeps the low 16 bits. */
  function ReadEscape(pf: Platform, raw: Text, p: nat): (r: Outcome<Unit>)
    ensures r.Some? ==> p < r.value.1 <= |raw|
  {
    if p >= |raw| then None
    else if raw[p] == LETTER_U then
      if p + 5 > |raw| then None
      else
        var n := ParseSigned(pf, raw[p + 1..p + 5], 16);
        if n.None? then None else Some((n.value % 0x1_0000, p + 5))
    else
      var u := ShortEscape(raw[p]);
      if u.None? then None else Some((u.value, p + 1))
  }

  /** The loop of `readString`, with what the builder holds. */
  function ReadChars(pf: Platform, raw: Text, p: nat, built: Text): (r: Outcome<Text>)
    requires p <= |raw|
    ensures r.Some? ==> p < r.value.1 <= |raw|
    decreases |raw| - p
  {
    if p == |raw| then None
    else if raw[p] == QUOTE then Some((built, p + 1))
    else if raw[p] != BACKSLASH then ReadChars(pf, raw, p + 1, built + [raw[p]])
    else
      match ReadEscape(pf, raw, p + 1)
      case None => None
      case Some((u, q)) => ReadChars(pf, raw, q, built + [u])
  }

  function ReadString(pf: Platform, raw: Text, p: nat): (r: Outcome<Text>)
    ensures r.Some? ==> p < r.value.1 <= |raw|
  {
    match Expect(raw, p, QUOTE)
    case None => None
    case Some(q) => ReadChars(pf, raw, q, [])
  }

  function ReadValue(pf: Platform, raw: Text, start: nat): (r: Outcome<Value>)
    requires start <= |raw|
    ensures r.Some? ==> start <= r.value.1 <= |raw|
    decreases |raw| - start, 1
  {
    var p := SkipWhitespace(raw, start);
    if p == |raw| then None
    else if raw[p] == LEFT_BRACE then ReadObject(pf, raw, p)
    else if raw[p] == LEFT_BRACKET then ReadArray(pf, raw, p)
    else if raw[p] == QUOTE then
      match ReadString(pf, raw, p)
      case None => None
      case Some((text, end)) => Some((Str(text), end))
    else if raw[p] == TRUE[0] then ReadLiteral(raw, p, TRUE, Bool(true))
    else if raw[p] == FALSE[0] then ReadLiteral(raw, p, FALSE, Bool(false))
    else if raw[p] == NULL[0] then ReadLiteral(raw, p, NULL, Null)
    else ReadNumber(pf, raw, p)
  }

  function ReadArray(pf: Platform, raw: Text, p: nat): (r: Outcome<Value>)
    requires p < |raw|
    ensures r.Some? ==> p < r.value.1 <= |raw|
    decreases |raw| - p, 0
  {
    var q := SkipWhitespace(raw, p + 1);
    if q == |raw| then None
    else if raw[q] == RIGHT_BRACKET then Some((List([]), q + 1))
    else
      match ReadItems(pf, raw, q, [])
      case None => None
      case Some((items, end)) => Some((List(items), end))
  }

  function ReadObject(pf: Platform, raw: Text, p: nat): (r: Outcome<Value>)
    requires p < |raw|
    ensures r.Some? ==> p < r.value.1 <= |raw|
    decreases |raw| - p, 0
  {
    var q := SkipWhitespace(raw, p + 1);
    if q == |raw| then None
    else if raw[q] == RIGHT_BRACE then Some((Map([]), q + 1))
    else
      match ReadMembers(pf, raw, q, [])
      case None => None
      case Some((members, end)) => Some((Map(members), end))
  }

  /** The loop of `readArray`, with the items so far. */
  function ReadItems(pf: Platform, raw: Text, p: nat, items: seq<Value>): (r: Outcome<seq<Value>>)
    requires p <= |raw|
    ensures r.Some? ==> p < r.value.1 <= |raw|
    decreases |raw| - p, 2
  {
    match ReadValue(pf, raw, p)
    case None => None
    case Some((v, end)) =>
      var q := SkipWhitespace(raw, end);
      if q == |raw| then None
      else if raw[q] == COMMA then ReadItems(pf, raw, q + 1, items + [v])
      else if raw[q] == RIGHT_BRACKET then Some((items + [v], q + 1))
      else None
  }

  /** LinkedHashMap: a key written again keeps its place and gets the new value. */
  function Put(members: seq<Member>, key: Text, v: Value): seq<Member> {
    if members == [] then [Member(key, v)]
    else if members[0].key == key then [Member(key, v)] + members[1..]
    else [members[0]] + Put(members[1..], key, v)
  }

  /** The loop of `readObject`, with the members so far. */
  function ReadMembers(pf: Platform, raw: Text, p: nat, members: seq<Member>): (r: Outcome<seq<Member>>)
    requires p <= |raw|
    ensures r.Some? ==> p < r.value.1 <= |raw|
    decreases |raw| - p, 2
  {
    match ReadString(pf, raw, SkipWhitespace(raw, p))
    case None => None
    case Some((key, afterKey)) =>
      match Expect(raw, SkipWhitespace(raw, afterKey), COLON)
      case None => None
      case Some(afterColon) =>
        match ReadValue(pf, raw, afterColon)
        case None => None
        case Some((v, end)) =>
          var q := SkipWhitespace(raw, end);
          if q == |raw| then None
          else if raw[q] == COMMA then ReadMembers(pf, raw, q + 1, Put(members, key, v))
          else if raw[q] == RIGHT_BRACE then Some((Put(members, key, v), q + 1))
          else None
  }

  /** Anything but an object, and every error, gives the empty map; what follows the object is not looked at. */
  function ParseObject(pf: Platform, raw: Text): seq<Member> {
    match ReadValue(pf, raw, 0)
    case Some((Map(members), _)) => members
    case _ => []
  }
}
