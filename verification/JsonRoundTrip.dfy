/** What canonical texts determine: decoding gives back the normal form, and member order does not matter. */
module JsonRoundTrip {
  import opened Wrappers
  import opened Json
  import opened Sequences

  // ---------------------------------------------------------------------------------------------
  // The canonical text is the plain text of the normal form
  // ---------------------------------------------------------------------------------------------

  /** A value in which nothing is left to drop or to read as null. */
  predicate Plain(v: Value)
    decreases v, 0
  {
    match v
    case Undefined => false
    case Arr(items) => PlainItems(items)
    case Obj(members) => PlainMembers(members)
    case _ => true
  }

  predicate PlainItems(items: seq<Value>)
    decreases items, 0
  {
    items == [] || (Plain(items[0]) && PlainItems(items[1..]))
  }

  predicate PlainMembers(members: seq<Entry<Value>>)
    decreases members, 0
  {
    members == [] || (Plain(members[0].val) && PlainMembers(members[1..]))
  }

  /** JSON text with members in the order they stand. */
  function Write(v: Value): string
    decreases v, 0
  {
    match v
    case Arr(items) => "[" + Join(WriteItems(items)) + "]"
    case Obj(members) => "{" + Join(MemberTexts(WriteMembers(members))) + "}"
    case Undefined => ""
    case Null => "null"
    case Bool(b) => if b then "true" else "false"
    case Num(n) => Number(n)
    case Str(s) => Quote(s)
  }

  function WriteItems(items: seq<Value>): seq<string>
    decreases items, 0
  {
    if items == [] then [] else [Write(items[0])] + WriteItems(items[1..])
  }

  function WriteMembers(members: seq<Entry<Value>>): seq<Entry<string>>
    decreases members, 0
  {
    if members == [] then [] else [Entry(members[0].key, Write(members[0].val))] + WriteMembers(members[1..])
  }

  lemma {:induction false} WriteMembersAppend(a: seq<Entry<Value>>, b: seq<Entry<Value>>)
    ensures WriteMembers(a + b) == WriteMembers(a) + WriteMembers(b)
  {
    if a == [] {
      assert a + b == b;
    } else {
      assert (a + b)[1..] == a[1..] + b;
      WriteMembersAppend(a[1..], b);
    }
  }

  lemma {:induction false} InsertCommutes(e: Entry<Value>, sorted: seq<Entry<Value>>)
    ensures Insert(Entry(e.key, Write(e.val)), WriteMembers(sorted)) == WriteMembers(Insert(e, sorted))
  {
    if sorted == [] || !KeyLess(sorted[0].key, e.key) {
      assert ([e] + sorted)[1..] == sorted;
    } else {
      InsertCommutes(e, sorted[1..]);
      assert WriteMembers(sorted)[1..] == WriteMembers(sorted[1..]);
      assert Insert(e, sorted)[1..] == Insert(e, sorted[1..]);
    }
  }

  /** Sorting looks at keys only, so it commutes with writing the values. */
  lemma {:induction false} SortCommutes(members: seq<Entry<Value>>)
    ensures SortByKey(WriteMembers(members)) == WriteMembers(SortByKey(members))
  {
    if members != [] {
      SortCommutes(members[1..]);
      InsertCommutes(members[0], SortByKey(members[1..]));
      assert WriteMembers(members)[1..] == WriteMembers(members[1..]);
    }
  }

  lemma {:induction false} TextOfNormal(v: Value)
    ensures Text(v) == Write(Normal(v))
    decreases v, 0
  {
    match v
    case Arr(items) => ItemTextsOfNormal(items);
    case Obj(members) =>
      DefinedTextsOfNormal(members);
      SortCommutes(NormalMembers(members));
    case _ =>
  }

  lemma {:induction false} ItemTextsOfNormal(items: seq<Value>)
    ensures ItemTexts(items) == WriteItems(NormalItems(items))
    decreases items, 0
  {
    if items != [] {
      TextOfNormal(items[0]);
      ItemTextsOfNormal(items[1..]);
    }
  }

  lemma {:induction false} DefinedTextsOfNormal(members: seq<Entry<Value>>)
    ensures DefinedTexts(members) == WriteMembers(NormalMembers(members))
    decreases members, 0
  {
    if members != [] {
      TextOfNormal(members[0].val);
      DefinedTextsOfNormal(members[1..]);
      if members[0].val != Undefined {
        assert NormalMembers(members)[1..] == NormalMembers(members[1..]);
      }
    }
  }

  // ---------------------------------------------------------------------------------------------
  // Normal forms are plain
  // ---------------------------------------------------------------------------------------------

  lemma {:induction false} InsertPlain(e: Entry<Value>, sorted: seq<Entry<Value>>)
    requires Plain(e.val) && PlainMembers(sorted)
    ensures PlainMembers(Insert(e, sorted))
  {
    if sorted == [] || !KeyLess(sorted[0].key, e.key) {
      assert ([e] + sorted)[1..] == sorted;
    } else {
      InsertPlain(e, sorted[1..]);
      assert Insert(e, sorted)[1..] == Insert(e, sorted[1..]);
    }
  }

  lemma {:induction false} SortPlain(members: seq<Entry<Value>>)
    requires PlainMembers(members)
    ensures PlainMembers(SortByKey(members))
  {
    if members != [] {
      SortPlain(members[1..]);
      InsertPlain(members[0], SortByKey(members[1..]));
    }
  }

  lemma {:induction false} NormalIsPlain(v: Value)
    requires v != Undefined
    ensures Plain(Normal(v))
    decreases v, 0
  {
    match v
    case Arr(items) => NormalItemsPlain(items);
    case Obj(members) =>
      NormalMembersPlain(members);
      SortPlain(NormalMembers(members));
    case _ =>
  }

  lemma {:induction false} NormalItemsPlain(items: seq<Value>)
    ensures PlainItems(NormalItems(items))
    decreases items, 0
  {
    if items != [] {
      if items[0] != Undefined { NormalIsPlain(items[0]); }
      NormalItemsPlain(items[1..]);
    }
  }

  lemma {:induction false} NormalMembersPlain(members: seq<Entry<Value>>)
    ensures PlainMembers(NormalMembers(members))
    decreases members, 0
  {
    if members != [] {
      NormalMembersPlain(members[1..]);
      if members[0].val != Undefined {
        NormalIsPlain(members[0].val);
        assert NormalMembers(members)[1..] == NormalMembers(members[1..]);
      }
    }
  }

  // ---------------------------------------------------------------------------------------------
  // Reading back what was written
  // ---------------------------------------------------------------------------------------------

  lemma HexReads(d: nat)
    requires d < 16
    ensures HexValue(Hex(d)) == Some(d)
  {
  }

  lemma ReadShort(c: char, e: char, more: string)
    requires ShortEscape(e) == Some(c)
    ensures ReadString(['\\', e] + more) == Cons(c, ReadString(more))
  {
    assert (['\\', e] + more)[2..] == more;
  }

  lemma ReadControl(c: char, more: string)
    requires c as int < 32
    ensures ReadString("\\u00" + [Hex(c as int / 16), Hex(c as int % 16)] + more) == Cons(c, ReadString(more))
  {
    var hi, lo := c as int / 16, c as int % 16;
    var s := "\\u00" + [Hex(hi), Hex(lo)] + more;
    HexReads(hi);
    HexReads(lo);
    assert s[1..4] == "u00" && s[4] == Hex(hi) && s[5] == Hex(lo) && s[6..] == more;
    assert s[1] == 'u' && ShortEscape('u').None?;
  }

  lemma ReadPlain(c: char, more: string)
    requires c != '"' && c != '\\'
    ensures ReadString([c] + more) == Cons(c, ReadString(more))
  {
    assert ([c] + more)[1..] == more;
  }

  lemma ReadEscapedChar(c: char, more: string)
    ensures ReadString(EscapeChar(c) + more) == Cons(c, ReadString(more))
  {
    var e := EscapeChar(c);
    if |e| == 1 {
      ReadPlain(c, more);
    } else if |e| == 2 {
      assert e == ['\\', e[1]];
      ReadShort(c, e[1], more);
    } else {
      ReadControl(c, more);
    }
  }

  lemma {:induction false} ReadEscaped(t: string, rest: string)
    ensures ReadString(Escape(t) + "\"" + rest) == Some((t, rest))
  {
    if t == "" {
      assert Escape(t) + "\"" + rest == "\"" + rest;
    } else {
      var more := Escape(t[1..]) + "\"" + rest;
      assert Escape(t) + "\"" + rest == EscapeChar(t[0]) + more;
      ReadEscapedChar(t[0], more);
      ReadEscaped(t[1..], rest);
      assert [t[0]] + t[1..] == t;
    }
  }

  /** A number ends here. */
  predicate EndsNumber(rest: string) { rest == "" || !IsDigit(rest[0]) }

  lemma {:induction false} ReadDecimal(n: nat, rest: string)
    ensures ReadDigits(Decimal(n) + rest, 0) == ReadDigits(rest, n)
    decreases n
  {
    if n < 10 {
      assert (Decimal(n) + rest)[1..] == rest;
    } else {
      var last := [Digit(n % 10)];
      assert Decimal(n) + rest == Decimal(n / 10) + (last + rest);
      ReadDecimal(n / 10, last + rest);
      assert (last + rest)[1..] == rest;
    }
  }

  lemma ReadNatural(n: nat, rest: string)
    requires EndsNumber(rest)
    ensures ReadValue(Decimal(n) + rest) == Some((Num(n), rest))
  {
    var s := Decimal(n) + rest;
    assert IsDigit(s[0]);
    ReadDecimal(n, rest);
    assert ReadDigits(s, 0) == ReadDigits(s[1..], s[0] as int - '0' as int);
  }

  lemma ReadNegative(n: nat, rest: string)
    requires EndsNumber(rest)
    ensures ReadValue("-" + Decimal(n) + rest) == Some((Num(0 - n), rest))
  {
    var s := "-" + Decimal(n) + rest;
    assert s[1..] == Decimal(n) + rest;
    ReadDecimal(n, rest);
  }

  lemma ReadNumber(n: int, rest: string)
    requires EndsNumber(rest)
    ensures ReadValue(Number(n) + rest) == Some((Num(n), rest))
  {
    if n < 0 { ReadNegative(-n, rest); } else { ReadNatural(n, rest); }
  }

  lemma ReadLiteral(v: Value, rest: string)
    requires v == Null || v.Bool?
    ensures ReadValue(Write(v) + rest) == Some((v, rest))
  {
    var t := Write(v);
    assert (t + rest)[|t|..] == rest;
    assert t <= t + rest;
  }

  lemma ReadQuoted(t: string, rest: string)
    ensures ReadValue(Quote(t) + rest) == Some((Str(t), rest))
  {
    var content := Escape(t) + "\"" + rest;
    ReadEscaped(t, rest);
    assert Quote(t) + rest == "\"" + content;
    assert ("\"" + content)[1..] == content;
  }

  lemma JoinCons(t: string, ts: seq<string>)
    ensures Join([t]) == t
    ensures ts != [] ==> Join([t] + ts) == t + "," + Join(ts)
  {
    if ts != [] { assert ([t] + ts)[1..] == ts; }
  }

  lemma {:induction false} ReadWritten(v: Value, rest: string)
    requires Plain(v) && EndsNumber(rest)
    ensures ReadValue(Write(v) + rest) == Some((v, rest))
    decreases v, 0
  {
    match v
    case Null => ReadLiteral(v, rest);
    case Bool(_) => ReadLiteral(v, rest);
    case Num(n) => ReadNumber(n, rest);
    case Str(t) => ReadQuoted(t, rest);
    case Arr(items) =>
      if items != [] { ReadWrittenItems(items, rest); }
      ReadArray(Join(WriteItems(items)), items, rest);
      Bracketed("[", Join(WriteItems(items)), "]", rest);
    case Obj(members) =>
      if members != [] { ReadWrittenMembers(members, rest); }
      ReadObject(Join(MemberTexts(WriteMembers(members))), members, rest);
      Bracketed("{", Join(MemberTexts(WriteMembers(members))), "}", rest);
  }

  lemma Bracketed(open: string, text: string, close: string, rest: string)
    ensures open + text + close + rest == open + (text + (close + rest))
  {
  }

  /** No value starts with a closing bracket. */
  lemma WrittenStart(v: Value)
    requires Plain(v)
    ensures Write(v) != "" && Write(v)[0] != ']'
  {
  }

  lemma ReadArray(text: string, items: seq<Value>, rest: string)
    requires if items == [] then text == "" else
      text != "" && text[0] != ']' && ReadItems(text + ("]" + rest)) == Some((items, rest))
    ensures ReadValue("[" + (text + ("]" + rest))) == Some((Arr(items), rest))
  {
    var body := text + ("]" + rest);
    assert ("[" + body)[1..] == body;
    if items == [] { assert ("[" + body)[2..] == rest; }
  }

  lemma ReadObject(text: string, members: seq<Entry<Value>>, rest: string)
    requires if members == [] then text == "" else
      text != "" && text[0] == '"' && ReadMembers(text + ("}" + rest)) == Some((members, rest))
    ensures ReadValue("{" + (text + ("}" + rest))) == Some((Obj(members), rest))
  {
    var body := text + ("}" + rest);
    assert ("{" + body)[1..] == body;
    if members == [] { assert ("{" + body)[2..] == rest; }
  }

  lemma ReadItemsStep(s: string, v: Value, more: string, vs: seq<Value>, rest: string)
    ensures ReadValue(s) == Some((v, "]" + rest)) ==> ReadItems(s) == Some(([v], rest))
    ensures ReadValue(s) == Some((v, "," + more)) && ReadItems(more) == Some((vs, rest)) ==> ReadItems(s) == Some(([v] + vs, rest))
  {
    assert ("]" + rest)[1..] == rest && ("," + more)[1..] == more;
  }

  lemma ReadMembersStep(s: string, e: Entry<Value>, more: string, es: seq<Entry<Value>>, rest: string)
    ensures ReadMember(s) == Some((e, "}" + rest)) ==> ReadMembers(s) == Some(([e], rest))
    ensures ReadMember(s) == Some((e, "," + more)) && ReadMembers(more) == Some((es, rest)) ==> ReadMembers(s) == Some(([e] + es, rest))
  {
    assert ("}" + rest)[1..] == rest && ("," + more)[1..] == more;
  }

  lemma MemberWritten(key: string, t: string, rest: string)
    ensures MemberText(Entry(key, t)) + rest == "\"" + (Escape(key) + "\"" + (":" + (t + rest)))
  {
    var q := "\"" + Escape(key);
    Assoc(q + "\"" + ":", t, rest);
    Assoc(q + "\"", ":", t + rest);
    Assoc("\"", Escape(key), "\"");
    Assoc("\"", Escape(key) + "\"", ":" + (t + rest));
  }

  /** A member is read from its quote on. */
  lemma ReadQuotedMember(content: string, key: string, after: string, v: Value, rest: string)
    requires ReadString(content) == Some((key, after)) && after != "" && after[0] == ':'
    requires ReadValue(after[1..]) == Some((v, rest))
    ensures ReadMember("\"" + content) == Some((Entry(key, v), rest))
  {
    assert ("\"" + content)[1..] == content;
  }

  lemma ReadMemberStep(key: string, t: string, v: Value, rest: string)
    requires ReadValue(t + rest) == Some((v, rest))
    ensures ReadMember(MemberText(Entry(key, t)) + rest) == Some((Entry(key, v), rest))
  {
    var after := ":" + (t + rest);
    ReadEscaped(key, after);
    assert after[1..] == t + rest;
    ReadQuotedMember(Escape(key) + "\"" + after, key, after, v, rest);
    MemberWritten(key, t, rest);
  }

  /** The text of a list of parts: its first part, then the closing mark or a comma and the other parts. */
  lemma JoinedText(t: string, ts: seq<string>, end: string)
    ensures Join([t] + ts) + end == t + (if ts == [] then end else "," + (Join(ts) + end))
  {
    JoinCons(t, ts);
    if ts == [] {
      assert [t] + ts == [t];
    } else {
      assert t + "," + Join(ts) + end == t + ("," + (Join(ts) + end));
    }
  }

  lemma {:induction false} ReadWrittenItems(items: seq<Value>, rest: string)
    requires items != [] && PlainItems(items)
    ensures ReadItems(Join(WriteItems(items)) + ("]" + rest)) == Some((items, rest))
    ensures Join(WriteItems(items)) != "" && Join(WriteItems(items))[0] != ']'
    decreases items, 1
  {
    var v, others := items[0], items[1..];
    var t, ts := Write(v), WriteItems(others);
    assert items == [v] + others && WriteItems(items) == [t] + ts;
    JoinedText(t, ts, "]" + rest);
    JoinStart(t, ts);
    WrittenStart(v);
    if others == [] {
      assert items == [v];
      ReadWritten(v, "]" + rest);
      ReadItemsStep(t + ("]" + rest), v, "", [], rest);
    } else {
      var more := Join(ts) + ("]" + rest);
      ReadWritten(v, "," + more);
      ReadWrittenItems(others, rest);
      ReadItemsStep(t + ("," + more), v, more, others, rest);
    }
  }

  lemma JoinStart(t: string, ts: seq<string>)
    requires t != ""
    ensures Join([t] + ts) != "" && Join([t] + ts)[0] == t[0]
  {
    JoinCons(t, ts);
    if ts == [] { assert [t] + ts == [t]; }
  }

  lemma {:induction false} ReadWrittenMembers(members: seq<Entry<Value>>, rest: string)
    requires members != [] && PlainMembers(members)
    ensures ReadMembers(Join(MemberTexts(WriteMembers(members))) + ("}" + rest)) == Some((members, rest))
    ensures Join(MemberTexts(WriteMembers(members))) != "" && Join(MemberTexts(WriteMembers(members)))[0] == '"'
    decreases members, 1
  {
    var e, others := members[0], members[1..];
    var t, ts := MemberText(Entry(e.key, Write(e.val))), MemberTexts(WriteMembers(others));
    assert members == [e] + others;
    MembersTexts(members);
    JoinedText(t, ts, "}" + rest);
    JoinStart(t, ts);
    if others == [] {
      assert members == [e];
      ReadWritten(e.val, "}" + rest);
      ReadMemberStep(e.key, Write(e.val), e.val, "}" + rest);
      ReadMembersStep(t + ("}" + rest), e, "", [], rest);
    } else {
      var more := Join(ts) + ("}" + rest);
      ReadWritten(e.val, "," + more);
      ReadMemberStep(e.key, Write(e.val), e.val, "," + more);
      ReadWrittenMembers(others, rest);
      ReadMembersStep(t + ("," + more), e, more, others, rest);
    }
  }

  lemma MembersTexts(members: seq<Entry<Value>>)
    requires members != []
    ensures MemberTexts(WriteMembers(members))
      == [MemberText(Entry(members[0].key, Write(members[0].val)))] + MemberTexts(WriteMembers(members[1..]))
  {
    assert WriteMembers(members)[1..] == WriteMembers(members[1..]);
  }

  // ---------------------------------------------------------------------------------------------
  // Main results
  // ---------------------------------------------------------------------------------------------

  /** Decoding a canonical text gives back the value up to normalisation; only a bare `Undefined` has no text. */
  lemma RoundTrip(v: Value)
    ensures Canonicalize(v).None? <==> v == Undefined
    ensures Canonicalize(v).Some? ==> Decode(Canonicalize(v).value) == Some(Normal(v))
  {
    if v != Undefined {
      TextOfNormal(v);
      NormalIsPlain(v);
      ReadWritten(Normal(v), "");
      assert Write(Normal(v)) + "" == Text(v);
    }
  }

  /** Two values share a canonical text exactly when they agree up to normalisation. */
  lemma SameTextIffSameNormal(v: Value, w: Value)
    requires v != Undefined && w != Undefined
    ensures Text(v) == Text(w) <==> Normal(v) == Normal(w)
  {
    RoundTrip(v);
    RoundTrip(w);
    TextOfNormal(v);
    TextOfNormal(w);
  }
}
