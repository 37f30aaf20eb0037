/** What the JSON reader makes of any document: blanks between all tokens, strings with any escapes, repeated keys. */
module JsonDocuments {
  import opened Common
  import opened JsonText
  import opened Json
  import opened JsonRoundTrip

  /** A document of section 2 of RFC 8259 with its blanks; a number is an integer in decimal, a string its body in section 7. */
  datatype Doc =
    | Name(v: Value)
    | Number(n: int)
    | String(body: Text)
    | Array(gap: Text, items: seq<Item>)
    | Object(gap: Text, entries: seq<Entry>)

  datatype Item = Item(before: Text, doc: Doc, behind: Text)

  datatype Entry = Entry(before: Text, key: Text, behind: Text, item: Item)

  /** The four blanks of the standard. */
  predicate AreBlanks(t: Text) {
    forall i :: 0 <= i < |t| ==> t[i] == 0x20 || t[i] == 9 || t[i] == 10 || t[i] == 13
  }

  predicate IsDoc(doc: Doc)
    decreases doc, 0
  {
    match doc
    case Name(v) => v in {Null, Bool(true), Bool(false)}
    case Number(n) => IsLong(n)
    case String(body) => Meaning(body).Some?
    case Array(gap, items) => AreBlanks(gap) && AreItems(items)
    case Object(gap, entries) => AreBlanks(gap) && AreEntries(entries)
  }

  predicate AreItems(items: seq<Item>)
    decreases items, 1
  {
    items != [] ==>
      AreBlanks(items[0].before) && IsDoc(items[0].doc) && AreBlanks(items[0].behind) && AreItems(items[1..])
  }

  predicate AreEntries(entries: seq<Entry>)
    decreases entries, 1
  {
    entries != [] ==>
      && AreBlanks(entries[0].before) && Meaning(entries[0].key).Some? && AreBlanks(entries[0].behind)
      && AreBlanks(entries[0].item.before) && IsDoc(entries[0].item.doc) && AreBlanks(entries[0].item.behind)
      && AreEntries(entries[1..])
  }

  predicate IsItem(item: Item) {
    AreBlanks(item.before) && AreBlanks(item.behind) && IsDoc(item.doc)
  }

  predicate IsEntry(e: Entry) {
    AreBlanks(e.before) && AreBlanks(e.behind) && Meaning(e.key).Some? && IsItem(e.item)
  }

  /** The document as it is written, character by character of the standard. */
  function TextOf(doc: Doc): Text
    decreases doc, 0
  {
    match doc
    case Name(v) =>
      if v == Null then ['n' as int, 'u' as int, 'l' as int, 'l' as int]
      else if v == Bool(true) then ['t' as int, 'r' as int, 'u' as int, 'e' as int]
      else ['f' as int, 'a' as int, 'l' as int, 's' as int, 'e' as int]
    case Number(n) => Decimal(n)
    case String(body) => InQuotes(body)
    case Array(gap, items) => ['[' as int] + (if items == [] then gap + [']' as int] else ItemText(items[0]) + MoreItemText(items[1..]))
    case Object(gap, entries) => ['{' as int] + (if entries == [] then gap + ['}' as int] else EntryText(entries[0]) + MoreEntryText(entries[1..]))
  }

  function InQuotes(body: Text): Text {
    ['\"' as int] + body + ['\"' as int]
  }

  function ItemText(item: Item): Text
    decreases item, 1
  {
    item.before + (TextOf(item.doc) + item.behind)
  }

  function MoreItemText(items: seq<Item>): Text
    decreases items, 2
  {
    if items == [] then [']' as int] else [',' as int] + (ItemText(items[0]) + MoreItemText(items[1..]))
  }

  function EntryText(e: Entry): Text
    decreases e, 1
  {
    e.before + (InQuotes(e.key) + (e.behind + ([':' as int] + ItemText(e.item))))
  }

  function MoreEntryText(entries: seq<Entry>): Text
    decreases entries, 2
  {
    if entries == [] then ['}' as int] else [',' as int] + (EntryText(entries[0]) + MoreEntryText(entries[1..]))
  }

  /** Where a key stands among some members, or their number. */
  function KeyAt(members: seq<Member>, key: Text): (i: nat)
    ensures i <= |members| && (i < |members| ==> members[i].key == key) && forall j :: 0 <= j < i ==> members[j].key != key
  {
    if members == [] || members[0].key == key then 0 else 1 + KeyAt(members[1..], key)
  }

  /** A key keeps its first place and gets its last value. */
  function Enter(members: seq<Member>, key: Text, v: Value): seq<Member> {
    if KeyAt(members, key) < |members| then members[KeyAt(members, key) := Member(key, v)] else members + [Member(key, v)]
  }

  function ValueOf(doc: Doc): Value
    requires IsDoc(doc)
    decreases doc, 0
  {
    match doc
    case Name(v) => v
    case Number(n) => Long(n)
    case String(body) => Str(Meaning(body).value)
    case Array(_, items) => List(ValuesOf(items))
    case Object(_, entries) => Map(Entered([], entries))
  }

  function ValuesOf(items: seq<Item>): seq<Value>
    requires AreItems(items)
    decreases items, 2
  {
    if items == [] then [] else [ValueOf(items[0].doc)] + ValuesOf(items[1..])
  }

  function Entered(members: seq<Member>, entries: seq<Entry>): seq<Member>
    requires AreEntries(entries)
    decreases entries, 2
  {
    if entries == [] then members
    else Entered(Enter(members, Meaning(entries[0].key).value, ValueOf(entries[0].item.doc)), entries[1..])
  }

  lemma {:induction false} PutIsEnter(members: seq<Member>, key: Text, v: Value)
    ensures Put(members, key, v) == Enter(members, key, v)
  {
    if members != [] && members[0].key != key {
      PutIsEnter(members[1..], key, v);
      assert members == [members[0]] + members[1..];
    }
  }

  lemma {:induction false} Skips(raw: Text, p: nat, q: nat, gap: Text)
    requires Spans(raw, p, q, gap) && AreBlanks(gap) && (q < |raw| ==> !IsWhitespace(raw[q]))
    ensures SkipWhitespace(raw, p) == q
    decreases q - p
  {
    if p < q {
      assert raw[p] == raw[p..q][0];
      assert raw[p + 1..q] == gap[1..];
      Skips(raw, p + 1, q, gap[1..]);
    }
  }

  /** A document begins with no blank and no closing bracket. */
  lemma DocStarts(doc: Doc)
    requires IsDoc(doc)
    ensures TextOf(doc) != [] && IsStart(TextOf(doc)[0])
  {
    match doc
    case Number(n) => assert IsNumberText(Decimal(n));
    case _ =>
  }

  lemma FromGap(pf: Platform, raw: Text, p: nat, q: nat, gap: Text)
    requires Spans(raw, p, q, gap) && AreBlanks(gap) && q < |raw| && !IsWhitespace(raw[q])
    ensures ReadValue(pf, raw, p) == ReadValue(pf, raw, q)
  {
    Skips(raw, p, q, gap);
    NothingToSkip(raw, q);
  }

  /** Where an item's parts lie. */
  lemma LayItem(raw: Text, p: nat, end: nat, item: Item) returns (q: nat, r: nat)
    requires Spans(raw, p, end, ItemText(item)) && IsItem(item)
    ensures p <= q < r <= end && Spans(raw, p, q, item.before) && Spans(raw, q, r, TextOf(item.doc)) && Spans(raw, r, end, item.behind)
    ensures IsStart(raw[q])
  {
    q := Split(raw, p, end, item.before, TextOf(item.doc) + item.behind);
    r := Split(raw, q, end, TextOf(item.doc), item.behind);
    DocStarts(item.doc);
    First(raw, q, r, TextOf(item.doc));
  }

  /** Behind an item stands something that ends it: a comma or a closing bracket. */
  predicate IsCloser(u: Unit) {
    u == COMMA || u == RIGHT_BRACKET || u == RIGHT_BRACE
  }

  lemma BlankEnds(raw: Text, r: nat, end: nat, gap: Text)
    requires Spans(raw, r, end, gap) && AreBlanks(gap) && end < |raw| && IsCloser(raw[end])
    ensures IsDelimiter(raw[r]) && SkipWhitespace(raw, r) == end
  {
    Skips(raw, r, end, gap);
    if r < end { First(raw, r, end, gap); }
  }

  lemma {:induction false} ItemReads(pf: Platform, raw: Text, p: nat, end: nat, item: Item) returns (r: nat)
    requires Spans(raw, p, end, ItemText(item)) && IsItem(item) && end < |raw| && IsCloser(raw[end])
    ensures p < r <= end && ReadValue(pf, raw, p) == Some((ValueOf(item.doc), r)) && SkipWhitespace(raw, r) == end
    decreases item, 1
  {
    hide ReadValue, TextOf, ValueOf;
    var q;
    q, r := LayItem(raw, p, end, item);
    BlankEnds(raw, r, end, item.behind);
    DocReads(pf, raw, q, r, item.doc);
    FromGap(pf, raw, p, q, item.before);
  }

  lemma ReadsOneItem(pf: Platform, raw: Text, p: nat, r: nat, end: nat, v: Value, acc: seq<Value>)
    requires p <= r <= end < |raw| && ReadValue(pf, raw, p) == Some((v, r)) && SkipWhitespace(raw, r) == end
    ensures raw[end] == COMMA ==> ReadItems(pf, raw, p, acc) == ReadItems(pf, raw, end + 1, acc + [v])
    ensures raw[end] == RIGHT_BRACKET ==> ReadItems(pf, raw, p, acc) == Some((acc + [v], end + 1))
  {
    hide ReadValue, SkipWhitespace;
  }

  lemma LayMoreItems(raw: Text, p: nat, end: nat, items: seq<Item>) returns (q: nat)
    requires items != [] && Spans(raw, p, end, ItemText(items[0]) + MoreItemText(items[1..]))
    ensures p <= q < end && Spans(raw, p, q, ItemText(items[0]))
    ensures if |items| == 1 then raw[q] == RIGHT_BRACKET && q + 1 == end
            else raw[q] == COMMA && Spans(raw, q + 1, end, ItemText(items[1]) + MoreItemText(items[2..]))
  {
    hide ItemText;
    q := Split(raw, p, end, ItemText(items[0]), MoreItemText(items[1..]));
    First(raw, q, end, MoreItemText(items[1..]));
    if |items| > 1 {
      assert items[1..][1..] == items[2..];
      var next := Split(raw, q, end, [COMMA], ItemText(items[1]) + MoreItemText(items[2..]));
    }
  }

  lemma {:induction false} ItemsRead(pf: Platform, raw: Text, p: nat, end: nat, items: seq<Item>, acc: seq<Value>)
    requires items != [] && AreItems(items) && Spans(raw, p, end, ItemText(items[0]) + MoreItemText(items[1..]))
    ensures ReadItems(pf, raw, p, acc) == Some((acc + ValuesOf(items), end))
    decreases items, 2
  {
    hide ReadItems, ReadValue, ItemText, MoreItemText, ValueOf;
    var later := items[1..];
    var q := LayMoreItems(raw, p, end, items);
    var r := ItemReads(pf, raw, p, q, items[0]);
    ReadsOneItem(pf, raw, p, r, q, ValueOf(items[0].doc), acc);
    if later == [] {
      assert ValuesOf(items) == [ValueOf(items[0].doc)];
    } else {
      assert items[2..] == later[1..];
      ItemsRead(pf, raw, q + 1, end, later, acc + [ValueOf(items[0].doc)]);
      assert acc + [ValueOf(items[0].doc)] + ValuesOf(later) == acc + ValuesOf(items);
    }
  }

  lemma StringReads(pf: Platform, raw: Text, p: nat, end: nat, body: Text)
    requires Spans(raw, p, end, InQuotes(body)) && Meaning(body).Some?
    ensures ReadString(pf, raw, p) == Some((Meaning(body).value, end)) && raw[p] == QUOTE
  {
    hide ReadString, Meaning;
    var from, closing := LayQuoted(raw, p, end, body);
    ReadsGrammarString(pf, raw, p, from, closing, end, Meaning(body).value);
  }

  /** Where an entry's parts lie. */
  lemma LayEntry(raw: Text, p: nat, end: nat, e: Entry) returns (k: nat, b: nat, c: nat)
    requires Spans(raw, p, end, EntryText(e))
    ensures p <= k < b <= c < end && Spans(raw, p, k, e.before) && Spans(raw, k, b, InQuotes(e.key))
    ensures Spans(raw, b, c, e.behind) && raw[c] == COLON && Spans(raw, c + 1, end, ItemText(e.item))
  {
    hide ItemText;
    var quoted := InQuotes(e.key);
    k := Split(raw, p, end, e.before, quoted + (e.behind + ([COLON] + ItemText(e.item))));
    b := Split(raw, k, end, quoted, e.behind + ([COLON] + ItemText(e.item)));
    c := Split(raw, b, end, e.behind, [COLON] + ItemText(e.item));
    var i := Split(raw, c, end, [COLON], ItemText(e.item));
    First(raw, c, i, [COLON]);
  }

  lemma ReadsOneEntry(pf: Platform, raw: Text, p: nat, k: nat, b: nat, c: nat, r: nat, end: nat, key: Text, v: Value, acc: seq<Member>)
    requires p <= k < b <= c < r <= end < |raw| && SkipWhitespace(raw, p) == k && ReadString(pf, raw, k) == Some((key, b))
    requires SkipWhitespace(raw, b) == c && raw[c] == COLON && ReadValue(pf, raw, c + 1) == Some((v, r)) && SkipWhitespace(raw, r) == end
    ensures raw[end] == COMMA ==> ReadMembers(pf, raw, p, acc) == ReadMembers(pf, raw, end + 1, Put(acc, key, v))
    ensures raw[end] == RIGHT_BRACE ==> ReadMembers(pf, raw, p, acc) == Some((Put(acc, key, v), end + 1))
  {
    hide ReadValue, ReadString, SkipWhitespace, Put;
  }

  lemma LayMoreEntries(raw: Text, p: nat, end: nat, entries: seq<Entry>) returns (q: nat)
    requires entries != [] && Spans(raw, p, end, EntryText(entries[0]) + MoreEntryText(entries[1..]))
    ensures p <= q < end && Spans(raw, p, q, EntryText(entries[0]))
    ensures if |entries| == 1 then raw[q] == RIGHT_BRACE && q + 1 == end
            else raw[q] == COMMA && Spans(raw, q + 1, end, EntryText(entries[1]) + MoreEntryText(entries[2..]))
  {
    hide EntryText;
    q := Split(raw, p, end, EntryText(entries[0]), MoreEntryText(entries[1..]));
    First(raw, q, end, MoreEntryText(entries[1..]));
    if |entries| > 1 {
      assert entries[1..][1..] == entries[2..];
      var next := Split(raw, q, end, [COMMA], EntryText(entries[1]) + MoreEntryText(entries[2..]));
    }
  }

  /** What reading one entry does to the members so far. */
  function AfterEntry(acc: seq<Member>, e: Entry): seq<Member>
    requires IsEntry(e)
  {
    Enter(acc, Meaning(e.key).value, ValueOf(e.item.doc))
  }

  lemma {:induction false} EntryReads(pf: Platform, raw: Text, p: nat, end: nat, e: Entry, acc: seq<Member>)
    requires Spans(raw, p, end, EntryText(e)) && IsEntry(e) && end < |raw| && IsCloser(raw[end])
    ensures raw[end] == COMMA ==> ReadMembers(pf, raw, p, acc) == ReadMembers(pf, raw, end + 1, AfterEntry(acc, e))
    ensures raw[end] == RIGHT_BRACE ==> ReadMembers(pf, raw, p, acc) == Some((AfterEntry(acc, e), end + 1))
    decreases e, 1
  {
    hide ReadMembers, ReadValue, ReadString, ItemText, ValueOf, Put, Enter, Meaning;
    var k, b, c := LayEntry(raw, p, end, e);
    StringReads(pf, raw, k, b, e.key);
    Skips(raw, p, k, e.before);
    Skips(raw, b, c, e.behind);
    var r := ItemReads(pf, raw, c + 1, end, e.item);
    PutIsEnter(acc, Meaning(e.key).value, ValueOf(e.item.doc));
    ReadsOneEntry(pf, raw, p, k, b, c, r, end, Meaning(e.key).value, ValueOf(e.item.doc), acc);
  }

  lemma {:induction false} EntriesRead(pf: Platform, raw: Text, p: nat, end: nat, entries: seq<Entry>, acc: seq<Member>)
    requires entries != [] && AreEntries(entries) && Spans(raw, p, end, EntryText(entries[0]) + MoreEntryText(entries[1..]))
    ensures ReadMembers(pf, raw, p, acc) == Some((Entered(acc, entries), end))
    decreases entries, 2
  {
    hide ReadMembers, EntryText, MoreEntryText, ValueOf, Enter, Meaning;
    var later := entries[1..];
    var q := LayMoreEntries(raw, p, end, entries);
    EntryReads(pf, raw, p, q, entries[0], acc);
    if later == [] {
      assert Entered(acc, entries) == AfterEntry(acc, entries[0]);
    } else {
      assert entries[2..] == later[1..];
      EntriesRead(pf, raw, q + 1, end, later, AfterEntry(acc, entries[0]));
    }
  }

  lemma ArrayFromGap(pf: Platform, raw: Text, p: nat, q: nat, gap: Text)
    requires Spans(raw, p + 1, q, gap) && AreBlanks(gap) && q < |raw| && !IsWhitespace(raw[q]) && raw[p] == LEFT_BRACKET
    ensures ReadValue(pf, raw, p) ==
              if raw[q] == RIGHT_BRACKET then Some((List([]), q + 1))
              else match ReadItems(pf, raw, p + 1, [])
                   case None => None
                   case Some((items, end)) => Some((List(items), end))
  {
    hide ReadMembers, ReadString, ReadNumber, ReadItems, ReadValue;
    Skips(raw, p + 1, q, gap);
    BracketCase(pf, raw, p);
    FromGap(pf, raw, p + 1, q, gap);
    SameItems(pf, raw, p + 1, q);
  }

  lemma BracketCase(pf: Platform, raw: Text, p: nat)
    requires p < |raw|
    ensures raw[p] == LEFT_BRACKET ==> ReadValue(pf, raw, p) == ReadArray(pf, raw, p)
    ensures raw[p] == LEFT_BRACE ==> ReadValue(pf, raw, p) == ReadObject(pf, raw, p)
  {
    hide ReadArray, ReadObject;
  }

  lemma SameItems(pf: Platform, raw: Text, p: nat, q: nat)
    requires p <= q <= |raw| && ReadValue(pf, raw, p) == ReadValue(pf, raw, q)
    ensures ReadItems(pf, raw, p, []) == ReadItems(pf, raw, q, [])
  {
    hide ReadValue;
  }

  lemma SameMembers(pf: Platform, raw: Text, p: nat, q: nat)
    requires p <= q <= |raw| && SkipWhitespace(raw, p) == SkipWhitespace(raw, q)
    ensures ReadMembers(pf, raw, p, []) == ReadMembers(pf, raw, q, [])
  {
    hide ReadValue;
  }

  lemma ObjectFromGap(pf: Platform, raw: Text, p: nat, q: nat, gap: Text)
    requires Spans(raw, p + 1, q, gap) && AreBlanks(gap) && q < |raw| && !IsWhitespace(raw[q]) && raw[p] == LEFT_BRACE
    ensures ReadValue(pf, raw, p) ==
              if raw[q] == RIGHT_BRACE then Some((Map([]), q + 1))
              else match ReadMembers(pf, raw, p + 1, [])
                   case None => None
                   case Some((members, end)) => Some((Map(members), end))
  {
    hide ReadMembers, ReadString, ReadNumber, ReadItems, ReadValue;
    Skips(raw, p + 1, q, gap);
    BracketCase(pf, raw, p);
    NothingToSkip(raw, q);
    SameMembers(pf, raw, p + 1, q);
  }

  lemma {:induction false} ArrayReads(pf: Platform, raw: Text, p: nat, end: nat, gap: Text, items: seq<Item>)
    requires AreBlanks(gap) && AreItems(items) && Spans(raw, p, end, TextOf(Array(gap, items)))
    ensures ReadValue(pf, raw, p) == Some((List(ValuesOf(items)), end))
    decreases items, 3
  {
    hide ReadValue, ReadItems, ItemText, MoreItemText, ValueOf;
    if items == [] {
      var q := Split(raw, p, end, [LEFT_BRACKET], gap + [RIGHT_BRACKET]);
      var r := Split(raw, q, end, gap, [RIGHT_BRACKET]);
      First(raw, p, q, [LEFT_BRACKET]);
      First(raw, r, end, [RIGHT_BRACKET]);
      ArrayFromGap(pf, raw, p, r, gap);
    } else {
      var body := ItemText(items[0]) + MoreItemText(items[1..]);
      var q := Split(raw, p, end, [LEFT_BRACKET], body);
      First(raw, p, q, [LEFT_BRACKET]);
      var itemEnd := LayMoreItems(raw, q, end, items);
      var start, r := LayItem(raw, q, itemEnd, items[0]);
      ArrayFromGap(pf, raw, p, start, items[0].before);
      ItemsRead(pf, raw, q, end, items, []);
      assert [] + ValuesOf(items) == ValuesOf(items);
    }
  }

  lemma {:induction false} ObjectReads(pf: Platform, raw: Text, p: nat, end: nat, gap: Text, entries: seq<Entry>)
    requires AreBlanks(gap) && AreEntries(entries) && Spans(raw, p, end, TextOf(Object(gap, entries)))
    ensures ReadValue(pf, raw, p) == Some((Map(Entered([], entries)), end))
    decreases entries, 3
  {
    hide ReadValue, ReadMembers, EntryText, MoreEntryText, Entered;
    if entries == [] {
      var q := Split(raw, p, end, [LEFT_BRACE], gap + [RIGHT_BRACE]);
      var r := Split(raw, q, end, gap, [RIGHT_BRACE]);
      First(raw, p, q, [LEFT_BRACE]);
      First(raw, r, end, [RIGHT_BRACE]);
      ObjectFromGap(pf, raw, p, r, gap);
      NothingEntered([]);
    } else {
      var body := EntryText(entries[0]) + MoreEntryText(entries[1..]);
      var q := Split(raw, p, end, [LEFT_BRACE], body);
      First(raw, p, q, [LEFT_BRACE]);
      var entryEnd := LayMoreEntries(raw, q, end, entries);
      var k, b, c := LayEntry(raw, q, entryEnd, entries[0]);
      First(raw, k, b, InQuotes(entries[0].key));
      ObjectFromGap(pf, raw, p, k, entries[0].before);
      EntriesRead(pf, raw, q, end, entries, []);
    }
  }

  lemma NothingEntered(members: seq<Member>)
    ensures Entered(members, []) == members
  {
  }

  /** The reader reads every document as what it says, wherever it stands; behind a number something must end it. */
  lemma {:induction false} DocReads(pf: Platform, raw: Text, p: nat, end: nat, doc: Doc)
    requires IsDoc(doc) && Spans(raw, p, end, TextOf(doc))
    requires doc.Number? && end < |raw| ==> IsDelimiter(raw[end])
    ensures ReadValue(pf, raw, p) == Some((ValueOf(doc), end))
    decreases doc, 0
  {
    match doc
    case Name(v) => ReadsLiteral(pf, raw, p, end, TextOf(doc), v);
    case Number(n) => ReadsDecimal(pf, raw, p, end, n);
    case String(body) =>
      StringReads(pf, raw, p, end, body);
      QuoteCase(pf, raw, p);
    case Array(gap, items) => ArrayReads(pf, raw, p, end, gap, items);
    case Object(gap, entries) => ObjectReads(pf, raw, p, end, gap, entries);
  }

  /** A request body that is an object gives its members: every key once, where it came first, with what it was given last. */
  lemma ObjectsAreRead(pf: Platform, gap: Text, doc: Doc, trailing: Text)
    requires AreBlanks(gap) && IsDoc(doc) && doc.Object?
    ensures ParseObject(pf, gap + TextOf(doc) + trailing) == Entered([], doc.entries)
  {
    var text := gap + TextOf(doc) + trailing;
    var q, end := |gap|, |gap| + |TextOf(doc)|;
    assert text[0..q] == gap && text[q..end] == TextOf(doc);
    First(text, q, end, TextOf(doc));
    FromGap(pf, text, 0, q, gap);
    DocReads(pf, text, q, end, doc);
  }

  /** Entering keeps keys apart; the key entered has the value, the others what they had, in the places they had. */
  lemma EnteredOne(members: seq<Member>, key: Text, v: Value)
    requires forall i, j :: 0 <= i < j < |members| ==> members[i].key != members[j].key
    ensures var after := Enter(members, key, v);
            && (forall i, j :: 0 <= i < j < |after| ==> after[i].key != after[j].key)
            && Member(key, v) in after && |members| <= |after|
            && (forall i :: 0 <= i < |members| ==> after[i] == if members[i].key == key then Member(key, v) else members[i])
            && (forall i :: |members| <= i < |after| ==> after[i] == Member(key, v))
  {
    var after := Enter(members, key, v);
    assert after[KeyAt(members, key)] == Member(key, v);
  }

  // The writer

  /** A value as a document without blanks. */
  function DocOf(v: Value): Doc
    requires IsPlain(v)
    decreases v, 0
  {
    match v
    case Null => Name(v)
    case Bool(_) => Name(v)
    case Int(n) => Number(n)
    case Long(n) => Number(n)
    case Str(text) => String(EscapeAll(text))
    case List(items) => Array([], ItemsOf(items))
    case Map(members) => Object([], EntriesOf(members))
  }

  function ItemsOf(items: seq<Value>): seq<Item>
    requires ArePlain(items)
    decreases items, 1
  {
    if items == [] then [] else [Item([], DocOf(items[0]), [])] + ItemsOf(items[1..])
  }

  function EntriesOf(members: seq<Member>): seq<Entry>
    requires ArePlainMembers(members)
    decreases members, 1
  {
    if members == [] then []
    else [Entry([], EscapeAll(members[0].key), [], Item([], DocOf(members[0].value), []))] + EntriesOf(members[1..])
  }

  /** The writer writes documents of the standard, and they say what was written, every integer as a Long. */
  lemma {:induction false} WritesDocuments(v: Value)
    requires IsPlain(v)
    ensures IsDoc(DocOf(v)) && TextOf(DocOf(v)) == Serialize(v) && ValueOf(DocOf(v)) == Normal(v)
    decreases v, 0
  {
    hide EscapeAll, Meaning, Decimal;
    match v
    case Str(text) => WrittenStringsMeanThemselves(text);
    case List(items) => WritesList(v, items);
    case Map(members) => WritesMap(v, members);
    case _ =>
  }

  lemma {:induction false} WritesList(v: Value, items: seq<Value>)
    requires v == List(items) && IsPlain(v)
    ensures IsDoc(DocOf(v)) && TextOf(DocOf(v)) == Serialize(v) && ValueOf(DocOf(v)) == Normal(v)
    decreases items, 2
  {
    hide ItemText, MoreItemText, MoreItems;
    WritesItems(items);
    if items != [] { WritesItems(items[1..]); }
  }

  lemma {:induction false} WritesMap(v: Value, members: seq<Member>)
    requires v == Map(members) && IsPlain(v)
    ensures IsDoc(DocOf(v)) && TextOf(DocOf(v)) == Serialize(v) && ValueOf(DocOf(v)) == Normal(v)
    decreases members, 3
  {
    hide TextOf, EntryText, MoreEntryText, Serialize, MoreMembers, SerializeMember, Entered, Meaning, EntriesOf;
    WritesMembers(members);
    EntersMembers(members, []);
    assert [] + NormalMembers(members) == NormalMembers(members);
    ObjectText(EntriesOf(members));
    MapText(members);
    SameLength(members);
    if members != [] { WritesMembers(members[1..]); }
  }

  lemma ObjectText(entries: seq<Entry>)
    ensures TextOf(Object([], entries)) ==
              ['{' as int] + (if entries == [] then ['}' as int] else EntryText(entries[0]) + MoreEntryText(entries[1..]))
  {
    hide EntryText, MoreEntryText;
    assert [] + ['}' as int] == ['}' as int];
  }

  lemma MapText(members: seq<Member>)
    ensures Serialize(Map(members)) ==
              ['{' as int] + (if members == [] then ['}' as int] else SerializeMember(members[0]) + MoreMembers(members[1..]))
  {
    hide SerializeMember, MoreMembers;
  }

  lemma SameLength(members: seq<Member>)
    requires ArePlainMembers(members)
    ensures EntriesOf(members) == [] <==> members == []
  {
  }

  lemma {:induction false} WritesItems(items: seq<Value>)
    requires ArePlain(items)
    ensures AreItems(ItemsOf(items)) && ValuesOf(ItemsOf(items)) == NormalAll(items)
    ensures MoreItemText(ItemsOf(items)) == MoreItems(items)
    ensures items != [] ==> ItemText(ItemsOf(items)[0]) == Serialize(items[0]) && ItemsOf(items)[1..] == ItemsOf(items[1..])
    decreases items, 1
  {
    if items != [] {
      WritesDocuments(items[0]);
      WritesItems(items[1..]);
      NoBlanks(TextOf(DocOf(items[0])));
    }
  }

  lemma NoBlanks(t: Text)
    ensures [] + (t + []) == t && [] + t == t
  {
  }

  /** A key that is not there yet goes to the end. */
  lemma NewKey(members: seq<Member>, key: Text, v: Value)
    requires forall m :: m in members ==> m.key != key
    ensures Enter(members, key, v) == members + [Member(key, v)]
  {
  }

  lemma {:induction false} WritesMembers(members: seq<Member>)
    requires ArePlainMembers(members)
    ensures AreEntries(EntriesOf(members)) && MoreEntryText(EntriesOf(members)) == MoreMembers(members)
    ensures members != [] ==> EntryText(EntriesOf(members)[0]) == SerializeMember(members[0]) && EntriesOf(members)[1..] == EntriesOf(members[1..])
    decreases members, 1
  {
    hide Meaning, EscapeAll, ValueOf, TextOf, Serialize;
    if members != [] {
      WritesDocuments(members[0].value);
      WrittenStringsMeanThemselves(members[0].key);
      WritesMembers(members[1..]);
      NoBlanks(TextOf(DocOf(members[0].value)));
      NoBlanks(InQuotes(EscapeAll(members[0].key)));
      var entries := EntriesOf(members);
      assert entries[1..] == EntriesOf(members[1..]);
      assert EntryText(entries[0]) == SerializeMember(members[0]);
      assert MoreEntryText(entries) == [',' as int] + (EntryText(entries[0]) + MoreEntryText(entries[1..]));
    }
  }

  lemma {:induction false} EntersMembers(members: seq<Member>, acc: seq<Member>)
    requires ArePlainMembers(members) && forall m, i :: m in acc && 0 <= i < |members| ==> m.key != members[i].key
    requires AreEntries(EntriesOf(members))
    ensures Entered(acc, EntriesOf(members)) == acc + NormalMembers(members)
    decreases members, 2
  {
    hide Enter, Meaning, EscapeAll, ValueOf, TextOf;
    if members == [] {
      assert acc + [] == acc;
    } else {
      var m := Member(members[0].key, Normal(members[0].value));
      WritesDocuments(members[0].value);
      WrittenStringsMeanThemselves(members[0].key);
      NewKey(acc, m.key, m.value);
      assert EntriesOf(members)[1..] == EntriesOf(members[1..]);
      EntersMembers(members[1..], acc + [m]);
      assert acc + [m] + NormalMembers(members[1..]) == acc + NormalMembers(members);
    }
  }

  /** Every plain value reads back as itself, integers as Long, wherever it stands; behind a number something must end it. */
  lemma ReadsBack(pf: Platform, raw: Text, p: nat, end: nat, v: Value)
    requires IsPlain(v) && Spans(raw, p, end, Serialize(v))
    requires (v.Int? || v.Long?) && end < |raw| ==> IsDelimiter(raw[end])
    ensures ReadValue(pf, raw, p) == Some((Normal(v), end))
  {
    WritesDocuments(v);
    DocReads(pf, raw, p, end, DocOf(v));
  }

  /** parseObject(serialize(m)) is m with Long for Int, whatever text follows. */
  lemma ObjectsRoundTrip(pf: Platform, members: seq<Member>, trailing: Text)
    requires ArePlainMembers(members)
    ensures ParseObject(pf, Serialize(Map(members)) + trailing) == NormalMembers(members)
  {
    WritesDocuments(Map(members));
    ObjectsAreRead(pf, [], DocOf(Map(members)), trailing);
    assert [] + TextOf(DocOf(Map(members))) == Serialize(Map(members));
  }

  // What goes beyond the standard

  /** An escape "\u" may hold a sign in front of three digits; a negative one gives the code unit below 0x10000. */
  lemma SignedEscapeReads(pf: Platform, raw: Text, p: nat, a: nat, b: nat, c: nat)
    requires p + 5 <= |raw| && raw[p] == 'u' as int && raw[p + 1] in {'+' as int, '-' as int}
    requires HexValue(raw[p + 2]) == Some(a) && HexValue(raw[p + 3]) == Some(b) && HexValue(raw[p + 4]) == Some(c)
    ensures var n := 0x100 * a + 0x10 * b + c;
            ReadEscape(pf, raw, p) == Some((if raw[p + 1] == '+' as int || n == 0 then n else 0x1_0000 - n, p + 5))
  {
    hide DigitsValue;
    var t := raw[p + 1..p + 5];
    var digits := t[1..];
    assert digits[0] == raw[p + 2] && digits[1] == raw[p + 3] && digits[2] == raw[p + 4] && |digits| == 3;
    ThreeDigits(pf, digits, a, b, c);
  }

  lemma ThreeDigits(pf: Platform, digits: Text, a: nat, b: nat, c: nat)
    requires |digits| == 3 && HexValue(digits[0]) == Some(a) && HexValue(digits[1]) == Some(b) && HexValue(digits[2]) == Some(c)
    ensures DigitsValue(pf, digits, 16) == Some(0x100 * a + 0x10 * b + c) && a < 16 && b < 16 && c < 16
  {
    assert digits[..2][..1] == digits[..1] && digits[..1][..0] == [];
    assert DigitsValue(pf, digits[..1], 16) == Some(a);
    assert DigitsValue(pf, digits[..2], 16) == Some(16 * a + b);
  }
}
