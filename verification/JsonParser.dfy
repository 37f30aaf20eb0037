/** The JSON writer and reader as they run: appending to a builder, advancing a position
    (android-controller/runner/.../Json.kt). */
module JsonParser {
  import opened Common
  import opened JsonText
  import opened Json

  class StringBuilder {
    var text: Text

    constructor ()
      ensures text == []
    {
      text := [];
    }
  }

  /** The writer produces the serialized text of every value. */
  method SerializeValue(v: Value) returns (text: Text)
    ensures text == Serialize(v)
  {
    var builder := new StringBuilder();
    WriteValue(builder, v);
    text := builder.text;
  }

  method WriteValue(builder: StringBuilder, v: Value)
    modifies builder
    ensures builder.text == old(builder.text) + Serialize(v)
    decreases v, 1
  {
    match v
    case Null => builder.text := builder.text + NULL;
    case Str(text) => WriteString(builder, text);
    case Bool(isTrue) => builder.text := builder.text + if isTrue then TRUE else FALSE;
    case Int(n) => builder.text := builder.text + Decimal(n);
    case Long(n) => builder.text := builder.text + Decimal(n);
    case Double(text) => builder.text := builder.text + text;
    case Map(members) => WriteObject(builder, v);
    case List(items) => WriteList(builder, v);
    case Other(text) => WriteString(builder, text);
  }

  /** What is still to be written of a list from item i on. */
  function ItemsFrom(items: seq<Value>, i: nat): Text
    requires i <= |items|
  {
    if i == 0 && items != [] then Serialize(items[0]) + MoreItems(items[1..]) else MoreItems(items[i..])
  }

  lemma NextItem(items: seq<Value>, i: nat, written: Text)
    requires i < |items|
    ensures written + ItemsFrom(items, i)
         == (if i > 0 then written + [COMMA] else written) + Serialize(items[i]) + ItemsFrom(items, i + 1)
  {
    assert items[i..][1..] == items[i + 1..];
  }

  method WriteList(builder: StringBuilder, v: Value)
    requires v.List?
    modifies builder
    ensures builder.text == old(builder.text) + Serialize(v)
    decreases v, 0
  {
    builder.text := builder.text + [LEFT_BRACKET];
    assert builder.text + ItemsFrom(v.items, 0) == old(builder.text) + Serialize(v);
    for i := 0 to |v.items|
      invariant builder.text + ItemsFrom(v.items, i) == old(builder.text) + Serialize(v)
    {
      NextItem(v.items, i, builder.text);
      if i > 0 { builder.text := builder.text + [COMMA]; }
      WriteValue(builder, v.items[i]);
    }
    builder.text := builder.text + [RIGHT_BRACKET];
  }

  function MembersFrom(members: seq<Member>, i: nat): Text
    requires i <= |members|
  {
    if i == 0 && members != [] then SerializeMember(members[0]) + MoreMembers(members[1..]) else MoreMembers(members[i..])
  }

  lemma NextMember(members: seq<Member>, i: nat, written: Text)
    requires i < |members|
    ensures written + MembersFrom(members, i)
         == (if i > 0 then written + [COMMA] else written) + SerializeMember(members[i]) + MembersFrom(members, i + 1)
  {
    assert members[i..][1..] == members[i + 1..];
  }

  method WriteObject(builder: StringBuilder, v: Value)
    requires v.Map?
    modifies builder
    ensures builder.text == old(builder.text) + Serialize(v)
    decreases v, 0
  {
    builder.text := builder.text + [LEFT_BRACE];
    assert builder.text + MembersFrom(v.members, 0) == old(builder.text) + Serialize(v);
    for i := 0 to |v.members|
      invariant builder.text + MembersFrom(v.members, i) == old(builder.text) + Serialize(v)
    {
      NextMember(v.members, i, builder.text);
      if i > 0 { builder.text := builder.text + [COMMA]; }
      WriteMember(builder, v.members[i]);
    }
    builder.text := builder.text + [RIGHT_BRACE];
  }

  method WriteMember(builder: StringBuilder, m: Member)
    modifies builder
    ensures builder.text == old(builder.text) + SerializeMember(m)
    decreases m, 0
  {
    WriteString(builder, m.key);
    builder.text := builder.text + [COLON];
    WriteValue(builder, m.value);
  }

  method WriteString(builder: StringBuilder, s: Text)
    modifies builder
    ensures builder.text == old(builder.text) + Quoted(s)
  {
    hide Escaped;
    builder.text := builder.text + [QUOTE];
    ghost var before := builder.text;
    assert s[0..] == s;
    for i := 0 to |s|
      invariant builder.text + EscapeAll(s[i..]) == before + EscapeAll(s)
    {
      assert s[i..][1..] == s[i + 1..];
      builder.text := builder.text + Escaped(s[i]);
    }
    assert builder.text + EscapeAll([]) == before + EscapeAll(s);
    builder.text := builder.text + [QUOTE];
    assert builder.text == old(builder.text) + [QUOTE] + EscapeAll(s) + [QUOTE];
  }

  /** Every method returns None where reading fails; the position is then of no use any more. */
  class Parser {
    const pf: Platform
    const raw: Text
    var position: nat

    predicate Valid()
      reads this`position
    {
      position <= |raw|
    }

    constructor (pf: Platform, raw: Text)
      ensures Valid() && this.pf == pf && this.raw == raw && position == 0
    {
      this.pf, this.raw, position := pf, raw, 0;
    }

    method Skip()
      requires Valid()
      modifies this`position
      ensures Valid() && position == SkipWhitespace(raw, old(position))
    {
      while position < |raw| && IsWhitespace(raw[position])
        invariant Valid() && old(position) <= position && SkipWhitespace(raw, position) == SkipWhitespace(raw, old(position))
        decreases |raw| - position
      {
        position := position + 1;
      }
    }

    method ExpectUnit(u: Unit) returns (isThere: bool)
      requires Valid()
      modifies this`position
      ensures Valid() && isThere == Expect(raw, old(position), u).Some?
      ensures position == if isThere then old(position) + 1 else old(position)
    {
      if position >= |raw| || raw[position] != u { return false; }
      position := position + 1;
      return true;
    }

    method Value() returns (r: Option<Value>)
      requires Valid()
      modifies this`position
      ensures Valid() && old(position) <= position
      ensures var outcome := ReadValue(pf, raw, old(position));
              r.Some? == outcome.Some? && (r.Some? ==> (r.value, position) == outcome.value)
      decreases |raw| - position, 1
    {
      Skip();
      if position >= |raw| { return None; }
      var head := raw[position];
      if head == LEFT_BRACE { r := Object(); return; }
      if head == LEFT_BRACKET { r := Array(); return; }
      if head == QUOTE {
        var text := String();
        return if text.None? then None else Some(Str(text.value));
      }
      if head == TRUE[0] { r := Literal(TRUE, Bool(true)); return; }
      if head == FALSE[0] { r := Literal(FALSE, Bool(false)); return; }
      if head == NULL[0] { r := Literal(NULL, Null); return; }
      r := Number();
    }

    method Object() returns (r: Option<Value>)
      requires Valid() && position < |raw| && raw[position] == LEFT_BRACE
      modifies this`position
      ensures Valid() && old(position) <= position
      ensures var outcome := ReadObject(pf, raw, old(position));
              r.Some? == outcome.Some? && (r.Some? ==> (r.value, position) == outcome.value)
      decreases |raw| - position, 0
    {
      position := position + 1;
      Skip();
      if position >= |raw| { return None; }
      if raw[position] == RIGHT_BRACE {
        position := position + 1;
        return Some(Map([]));
      }
      var members := Members();
      return if members.None? then None else Some(Map(members.value));
    }

    /** The key of a member and the colon behind it. */
    method Key() returns (r: Option<Text>)
      requires Valid()
      modifies this`position
      ensures Valid() && old(position) <= position
      ensures match ReadString(pf, raw, SkipWhitespace(raw, old(position)))
              case None => r.None?
              case Some((key, afterKey)) =>
                var afterColon := Expect(raw, SkipWhitespace(raw, afterKey), COLON);
                r.Some? == afterColon.Some? && (r.Some? ==> r.value == key && position == afterColon.value)
    {
      hide ReadString, SkipWhitespace;
      Skip();
      r := String();
      if r.None? { return; }
      Skip();
      var isThere := ExpectUnit(COLON);
      if !isThere { r := None; }
    }

    method Members() returns (r: Option<seq<Member>>)
      requires Valid()
      modifies this`position
      ensures Valid() && old(position) <= position
      ensures var outcome := ReadMembers(pf, raw, old(position), []);
              r.Some? == outcome.Some? && (r.Some? ==> (r.value, position) == outcome.value)
      decreases |raw| - position, 2
    {
      hide ReadValue, ReadString, SkipWhitespace, Put;
      ghost var start, outcome := position, ReadMembers(pf, raw, position, []);
      var members := [];
      while true
        invariant Valid() && start <= position && outcome == ReadMembers(pf, raw, position, members)
        decreases |raw| - position
      {
        var key := Key();
        if key.None? { return None; }
        var v := Value();
        if v.None? { return None; }
        members := Put(members, key.value, v.value);
        Skip();
        if position >= |raw| { return None; }
        if raw[position] == COMMA {
          position := position + 1;
          continue;
        }
        var isThere := ExpectUnit(RIGHT_BRACE);
        return if isThere then Some(members) else None;
      }
    }

    method Array() returns (r: Option<Value>)
      requires Valid() && position < |raw| && raw[position] == LEFT_BRACKET
      modifies this`position
      ensures Valid() && old(position) <= position
      ensures var outcome := ReadArray(pf, raw, old(position));
              r.Some? == outcome.Some? && (r.Some? ==> (r.value, position) == outcome.value)
      decreases |raw| - position, 0
    {
      position := position + 1;
      Skip();
      if position >= |raw| { return None; }
      if raw[position] == RIGHT_BRACKET {
        position := position + 1;
        return Some(List([]));
      }
      var items := Items();
      return if items.None? then None else Some(List(items.value));
    }

    method Items() returns (r: Option<seq<Value>>)
      requires Valid()
      modifies this`position
      ensures Valid() && old(position) <= position
      ensures var outcome := ReadItems(pf, raw, old(position), []);
              r.Some? == outcome.Some? && (r.Some? ==> (r.value, position) == outcome.value)
      decreases |raw| - position, 2
    {
      hide ReadValue, SkipWhitespace;
      ghost var start, outcome := position, ReadItems(pf, raw, position, []);
      var items := [];
      while true
        invariant Valid() && start <= position && outcome == ReadItems(pf, raw, position, items)
        decreases |raw| - position
      {
        var v := Value();
        if v.None? { return None; }
        items := items + [v.value];
        Skip();
        if position >= |raw| { return None; }
        if raw[position] == COMMA {
          position := position + 1;
          continue;
        }
        var isThere := ExpectUnit(RIGHT_BRACKET);
        return if isThere then Some(items) else None;
      }
    }

    method String() returns (r: Option<Text>)
      requires Valid()
      modifies this`position
      ensures Valid() && old(position) <= position
      ensures var outcome := ReadString(pf, raw, old(position));
              r.Some? == outcome.Some? && (r.Some? ==> (r.value, position) == outcome.value)
    {
      ghost var start := position;
      var isThere := ExpectUnit(QUOTE);
      if !isThere { return None; }
      var built := [];
      while true
        invariant Valid() && start < position
        invariant ReadString(pf, raw, start) == ReadChars(pf, raw, position, built)
        decreases |raw| - position
      {
        if position >= |raw| { return None; }
        var u := raw[position];
        position := position + 1;
        if u == QUOTE { return Some(built); }
        if u != BACKSLASH {
          built := built + [u];
          continue;
        }
        var escape := Escape();
        if escape.None? { return None; }
        built := built + [escape.value];
      }
    }

    method Escape() returns (r: Option<Unit>)
      requires Valid()
      modifies this`position
      ensures Valid() && old(position) <= position
      ensures var outcome := ReadEscape(pf, raw, old(position));
              r.Some? == outcome.Some? && (r.Some? ==> (r.value, position) == outcome.value)
    {
      if position >= |raw| { return None; }
      var u := raw[position];
      position := position + 1;
      if u == LETTER_U {
        if position + 4 > |raw| { return None; }
        var hex := raw[position..position + 4];
        position := position + 4;
        var n := ParseSigned(pf, hex, 16);
        return if n.None? then None else Some(n.value % 0x1_0000);
      }
      r := ShortEscape(u);
    }

    method Number() returns (r: Option<Value>)
      requires Valid()
      modifies this`position
      ensures Valid() && old(position) <= position
      ensures var outcome := ReadNumber(pf, raw, old(position));
              r.Some? == outcome.Some? && (r.Some? ==> (r.value, position) == outcome.value)
    {
      var start := position;
      while position < |raw| && !IsDelimiter(raw[position])
        invariant Valid() && start <= position && NumberEnd(raw, position) == NumberEnd(raw, start)
        decreases |raw| - position
      {
        position := position + 1;
      }
      var text := raw[start..position];
      var asLong := ToLongOrNull(pf, text);
      if asLong.Some? { return Some(Long(asLong.value)); }
      return if pf.isDouble(text) then Some(Double(text)) else None;
    }

    method Literal(literal: Text, v: Value) returns (r: Option<Value>)
      requires Valid()
      modifies this`position
      ensures Valid() && old(position) <= position
      ensures var outcome := ReadLiteral(raw, old(position), literal, v);
              r.Some? == outcome.Some? && (r.Some? ==> (r.value, position) == outcome.value)
    {
      if position + |literal| > |raw| || raw[position..position + |literal|] != literal { return None; }
      position := position + |literal|;
      return Some(v);
    }
  }

  lemma {:induction false} SkipTwice(raw: Text, p: nat)
    requires p <= |raw|
    ensures SkipWhitespace(raw, SkipWhitespace(raw, p)) == SkipWhitespace(raw, p)
    decreases |raw| - p
  {
    if p < |raw| && IsWhitespace(raw[p]) { SkipTwice(raw, p + 1); }
  }

  /** Returns for every text: reading always ends, and every error gives the empty map. */
  method ParseText(pf: Platform, raw: Text) returns (members: seq<Member>)
    ensures members == ParseObject(pf, raw)
  {
    var parser := new Parser(pf, raw);
    parser.Skip();
    SkipTwice(raw, 0);
    var v := parser.Value();
    return if v.Some? && v.value.Map? then v.value.members else [];
  }
}
