/** The member order of canonical texts: ascending by UTF-16 code units, whatever order the members were inserted in. */
module JsonOrder {
  import opened Json
  import JsonRoundTrip

  // ---------------------------------------------------------------------------------------------
  // Comparing keys by code units is a strict total order
  // ---------------------------------------------------------------------------------------------

  lemma {:induction false} UnitsIrreflexive(a: seq<nat>)
    ensures !UnitsLess(a, a)
  {
    if a != [] { UnitsIrreflexive(a[1..]); }
  }

  lemma {:induction false} UnitsTransitive(a: seq<nat>, b: seq<nat>, c: seq<nat>)
    requires UnitsLess(a, b) && UnitsLess(b, c)
    ensures UnitsLess(a, c)
  {
    if a != [] && a[0] == b[0] == c[0] { UnitsTransitive(a[1..], b[1..], c[1..]); }
  }

  lemma {:induction false} UnitsTotal(a: seq<nat>, b: seq<nat>)
    ensures a == b || UnitsLess(a, b) || UnitsLess(b, a)
  {
    if a != [] && b != [] && a[0] == b[0] {
      UnitsTotal(a[1..], b[1..]);
      assert a == [a[0]] + a[1..] && b == [b[0]] + b[1..];
    }
  }

  /** The units of a character tell it apart, also as the start of a longer text. */
  lemma UnitsDetermine(c: char, d: char, s: seq<nat>, t: seq<nat>)
    requires Units(c) + s == Units(d) + t
    ensures c == d && s == t
  {
    var u, v := Units(c) + s, Units(d) + t;
    assert u[0] == v[0] && u[0] == Units(c)[0] && v[0] == Units(d)[0];
    if |Units(c)| == 2 && |Units(d)| == 2 {
      assert u[1] == v[1] && u[1] == Units(c)[1] && v[1] == Units(d)[1];
      PairDetermines(c as int - 0x1_0000, d as int - 0x1_0000);
    }
    assert s == u[|Units(c)|..] && t == v[|Units(d)|..];
  }

  lemma PairDetermines(x: nat, y: nat)
    requires x / 0x400 == y / 0x400 && x % 0x400 == y % 0x400
    ensures x == y
  {
  }

  lemma {:induction false} Utf16Injective(a: string, b: string)
    requires Utf16(a) == Utf16(b)
    ensures a == b
  {
    if a != "" && b != "" {
      UnitsDetermine(a[0], b[0], Utf16(a[1..]), Utf16(b[1..]));
      Utf16Injective(a[1..], b[1..]);
      assert a == [a[0]] + a[1..] && b == [b[0]] + b[1..];
    }
  }

  lemma KeysCompare(a: string, b: string)
    ensures !KeyLess(a, a)
    ensures a != b ==> KeyLess(a, b) || KeyLess(b, a)
  {
    UnitsIrreflexive(Utf16(a));
    UnitsTotal(Utf16(a), Utf16(b));
    if Utf16(a) == Utf16(b) { Utf16Injective(a, b); }
  }

  /** Where two lists of code units part: one ends there, or has the smaller number there. */
  predicate PartAt(a: seq<nat>, b: seq<nat>, n: nat) {
    && n <= |a| && n <= |b| && a[..n] == b[..n]
    && ((n == |a| && n < |b|) || (n < |a| && n < |b| && a[n] < b[n]))
  }

  /** The one key is a proper prefix of the other, or has the smaller code unit where they first differ. */
  ghost predicate Precedes(k: string, l: string) { exists n: nat :: PartAt(Utf16(k), Utf16(l), n) }

  lemma {:induction false} LessIsParting(a: seq<nat>, b: seq<nat>) returns (n: nat)
    requires UnitsLess(a, b)
    ensures PartAt(a, b, n)
  {
    if a == [] || a[0] != b[0] { return 0; }
    var m := LessIsParting(a[1..], b[1..]);
    assert a == [a[0]] + a[1..] && b == [b[0]] + b[1..];
    assert a[..m + 1] == [a[0]] + a[1..][..m] && b[..m + 1] == [b[0]] + b[1..][..m];
    return m + 1;
  }

  /** A character below U+10000 is its own code unit; any other is a high and a low surrogate, from which it can be
      computed. A text is the units of its characters in order. */
  lemma {:induction false} Utf16Is(c: char, rest: string)
    ensures Utf16([c] + rest) == Utf16([c]) + Utf16(rest)
    ensures c as int < 0x1_0000 ==> Utf16([c]) == [c as int]
    ensures c as int >= 0x1_0000 ==>
      && |Utf16([c])| == 2 && 0xD800 <= Utf16([c])[0] < 0xDC00 && 0xDC00 <= Utf16([c])[1] < 0xE000
      && c as int == 0x1_0000 + (Utf16([c])[0] - 0xD800) * 0x400 + (Utf16([c])[1] - 0xDC00)
  {
    assert ([c] + rest)[1..] == rest && [c][1..] == "";
    assert Utf16([c]) == Units(c);
    if c as int >= 0x1_0000 { SurrogatesCompute(c as int - 0x1_0000); }
  }

  lemma SurrogatesCompute(v: nat)
    requires v < 0x10_0000
    ensures v / 0x400 < 0x400 && v == (v / 0x400) * 0x400 + v % 0x400
  {
  }

  // ---------------------------------------------------------------------------------------------
  // Sorting
  // ---------------------------------------------------------------------------------------------

  ghost predicate DistinctKeys<T>(es: seq<Entry<T>>) {
    forall i, j :: 0 <= i < j < |es| ==> es[i].key != es[j].key
  }

  /** Keys strictly ascend. */
  ghost predicate Ascending<T>(es: seq<Entry<T>>) {
    forall i, j :: 0 <= i < j < |es| ==> KeyLess(es[i].key, es[j].key)
  }

  lemma {:induction false} InsertMembers<T>(e: Entry<T>, sorted: seq<Entry<T>>, x: Entry<T>)
    ensures x in Insert(e, sorted) <==> x == e || x in sorted
  {
    if sorted != [] && KeyLess(sorted[0].key, e.key) { InsertMembers(e, sorted[1..], x); }
  }

  lemma {:induction false} InsertAscending<T>(e: Entry<T>, sorted: seq<Entry<T>>)
    requires Ascending(sorted) && forall i :: 0 <= i < |sorted| ==> sorted[i].key != e.key
    ensures Ascending(Insert(e, sorted))
  {
    var r := Insert(e, sorted);
    if sorted == [] {
    } else if KeyLess(sorted[0].key, e.key) {
      InsertAscending(e, sorted[1..]);
      forall j | 0 < j < |r| ensures KeyLess(r[0].key, r[j].key) {
        InsertMembers(e, sorted[1..], r[j]);
        assert r[j] == r[1..][j - 1];
      }
      assert forall i, j :: 0 < i < j < |r| ==> r[i] == r[1..][i - 1] && r[j] == r[1..][j - 1];
    } else {
      KeysCompare(e.key, sorted[0].key);
      forall j | 0 <= j < |sorted| ensures KeyLess(e.key, sorted[j].key) {
        if j > 0 { UnitsTransitive(Utf16(e.key), Utf16(sorted[0].key), Utf16(sorted[j].key)); }
      }
    }
  }

  lemma {:induction false} SortMembers<T>(es: seq<Entry<T>>, x: Entry<T>)
    ensures x in SortByKey(es) <==> x in es
  {
    if es != [] {
      SortMembers(es[1..], x);
      InsertMembers(es[0], SortByKey(es[1..]), x);
    }
  }

  lemma {:induction false} SortAscending<T>(es: seq<Entry<T>>)
    requires DistinctKeys(es)
    ensures Ascending(SortByKey(es))
  {
    if es != [] {
      var rest := SortByKey(es[1..]);
      SortAscending(es[1..]);
      forall i | 0 <= i < |rest| ensures rest[i].key != es[0].key {
        SortMembers(es[1..], rest[i]);
        assert rest[i] in es[1..];
      }
      InsertAscending(es[0], rest);
    }
  }

  lemma HeadIsLeast<T>(a: seq<Entry<T>>, b: seq<Entry<T>>)
    requires a != [] && b != [] && Ascending(a) && Ascending(b) && a[0] in b && b[0] in a
    ensures a[0] == b[0]
  {
    if a[0] != b[0] {
      UnitsTransitive(Utf16(a[0].key), Utf16(b[0].key), Utf16(a[0].key));
      UnitsIrreflexive(Utf16(a[0].key));
      assert false;
    }
  }

  /** A set of entries has only one ascending listing. */
  lemma {:induction false} AscendingUnique<T>(a: seq<Entry<T>>, b: seq<Entry<T>>)
    requires Ascending(a) && Ascending(b) && forall x :: x in a <==> x in b
    ensures a == b
  {
    if a == [] {
      assert forall i :: 0 <= i < |b| ==> b[i] in b;
    } else {
      assert a[0] in b;
      assert b[0] in a;
      HeadIsLeast(a, b);
      forall x ensures x in a[1..] <==> x in b[1..] {
        TailMembers(a, x);
        TailMembers(b, x);
      }
      AscendingUnique(a[1..], b[1..]);
    }
  }

  lemma TailMembers<T>(a: seq<Entry<T>>, x: Entry<T>)
    requires a != [] && Ascending(a)
    ensures x in a[1..] <==> x in a && x != a[0]
  {
    UnitsIrreflexive(Utf16(a[0].key));
  }

  // ---------------------------------------------------------------------------------------------
  // Main results
  // ---------------------------------------------------------------------------------------------

  lemma {:induction false} NormalMembersAre(members: seq<Entry<Value>>, x: Entry<Value>)
    ensures x in NormalMembers(members)
      <==> exists e :: e in members && e.val != Undefined && x == Entry(e.key, Normal(e.val))
    decreases |members|
  {
    if members != [] {
      NormalMembersAre(members[1..], x);
      assert forall e :: e in members <==> e == members[0] || e in members[1..];
    }
  }

  lemma {:induction false} NormalMembersDistinct(members: seq<Entry<Value>>)
    requires DistinctKeys(members)
    ensures DistinctKeys(NormalMembers(members))
    decreases |members|
  {
    if members != [] {
      NormalMembersDistinct(members[1..]);
      var rest := NormalMembers(members[1..]);
      forall i | 0 <= i < |rest| ensures rest[i].key != members[0].key {
        NormalMembersAre(members[1..], rest[i]);
      }
    }
  }

  /** In a canonical text (it is that of the normal form) exactly the defined members stand, and of any two the one whose
      key is a proper prefix, or has the smaller UTF-16 code unit where the two keys first differ, stands first. */
  lemma CanonicalOrder(members: seq<Entry<Value>>)
    requires DistinctKeys(members)
    ensures Text(Obj(members)) == JsonRoundTrip.Write(Normal(Obj(members)))
    ensures var sorted := Normal(Obj(members)).members;
      && (forall x :: x in sorted <==> exists e :: e in members && e.val != Undefined && x == Entry(e.key, Normal(e.val)))
      && forall i, j :: 0 <= i < j < |sorted| ==> Precedes(sorted[i].key, sorted[j].key)
  {
    var sorted := Normal(Obj(members)).members;
    JsonRoundTrip.TextOfNormal(Obj(members));
    SortedMembers(members);
    forall x ensures x in sorted <==> exists e :: e in members && e.val != Undefined && x == Entry(e.key, Normal(e.val)) {
      SortMembers(NormalMembers(members), x);
      NormalMembersAre(members, x);
    }
    forall i, j | 0 <= i < j < |sorted| ensures Precedes(sorted[i].key, sorted[j].key) {
      var n := LessIsParting(Utf16(sorted[i].key), Utf16(sorted[j].key));
    }
  }

  lemma SortedMembers(members: seq<Entry<Value>>)
    requires DistinctKeys(members)
    ensures Ascending(SortByKey(NormalMembers(members)))
  {
    NormalMembersDistinct(members);
    SortAscending(NormalMembers(members));
  }

  /** Objects with the same defined members have the same canonical text, in whatever order these were inserted. */
  lemma InsertionOrderIrrelevant(a: seq<Entry<Value>>, b: seq<Entry<Value>>)
    requires DistinctKeys(a) && DistinctKeys(b)
    requires forall e: Entry<Value> :: e.val != Undefined ==> (e in a <==> e in b)
    ensures Text(Obj(a)) == Text(Obj(b))
  {
    var na, nb := NormalMembers(a), NormalMembers(b);
    JsonRoundTrip.TextOfNormal(Obj(a));
    JsonRoundTrip.TextOfNormal(Obj(b));
    SortedMembers(a);
    SortedMembers(b);
    forall x ensures x in SortByKey(na) <==> x in SortByKey(nb) {
      SortMembers(na, x);
      SortMembers(nb, x);
      NormalMembersAre(a, x);
      NormalMembersAre(b, x);
    }
    AscendingUnique(SortByKey(na), SortByKey(nb));
  }

  // ---------------------------------------------------------------------------------------------
  // Examples of RFC 8785
  // ---------------------------------------------------------------------------------------------

  lemma OneChar(c: char)
    ensures Utf16([c]) == Units(c)
  {
    assert [c][1..] == "";
  }

  lemma FirstUnits(c: char, d: char)
    requires Units(c)[0] < Units(d)[0]
    ensures KeyLess([c], [d]) && !KeyLess([d], [c])
  {
    OneChar(c);
    OneChar(d);
  }

  /** The keys of the example in section 3.2.3 of RFC 8785: the emoji, whose first code unit is a surrogate, stands before the
      Hebrew letter, although its code point is the larger one. */
  lemma SampleKeys<T>(a: T, b: T, c: T, d: T, e: T)
    ensures SortByKey([Entry("\U{20ac}", a), Entry("\r", b), Entry("\U{fb33}", c), Entry("1", d), Entry("\U{1f600}", e)])
      == [Entry("\r", b), Entry("1", d), Entry("\U{20ac}", a), Entry("\U{1f600}", e), Entry("\U{fb33}", c)]
  {
    var ea, eb, ec, ed, ee := Entry("\U{20ac}", a), Entry("\r", b), Entry("\U{fb33}", c), Entry("1", d), Entry("\U{1f600}", e);
    FirstUnits('\r', '1');
    FirstUnits('\r', '\U{20ac}');
    FirstUnits('1', '\U{20ac}');
    FirstUnits('1', '\U{1f600}');
    FirstUnits('1', '\U{fb33}');
    FirstUnits('\r', '\U{fb33}');
    FirstUnits('\U{20ac}', '\U{1f600}');
    FirstUnits('\U{1f600}', '\U{fb33}');
    assert SortByKey([ee]) == [ee];
    assert SortByKey([ed, ee]) == [ed, ee];
    assert [ec, ed, ee][1..] == [ed, ee];
    assert Insert(ec, [ed, ee]) == [ed, ee, ec] by {
      assert [ed, ee][1..] == [ee];
      assert Insert(ec, [ee]) == [ee, ec];
    }
    assert SortByKey([ec, ed, ee]) == [ed, ee, ec];
    assert [eb, ec, ed, ee][1..] == [ec, ed, ee];
    assert SortByKey([eb, ec, ed, ee]) == [eb, ed, ee, ec];
    assert [ea, eb, ec, ed, ee][1..] == [eb, ec, ed, ee];
    assert Insert(ea, [eb, ed, ee, ec]) == [eb, ed, ea, ee, ec] by {
      assert [eb, ed, ee, ec][1..] == [ed, ee, ec];
      assert [ed, ee, ec][1..] == [ee, ec];
      assert Insert(ea, [ee, ec]) == [ea, ee, ec];
      assert Insert(ea, [ed, ee, ec]) == [ed, ea, ee, ec];
    }
    assert SortByKey([ea, eb, ec, ed, ee]) == [eb, ed, ea, ee, ec];
  }

  lemma EscapeOne(c: char, rest: string)
    ensures Escape([c]) == EscapeChar(c) && Escape([c] + rest) == Escape([c]) + Escape(rest)
  {
    assert ([c] + rest)[1..] == rest && [c][1..] == "";
  }

  /** The escapes of section 3.2.2.2 of RFC 8785: short forms where there is one, lower case hexadecimal for the other control
      characters, and everything else as it is. */
  lemma StringsAreEscaped(c: char, rest: string)
    ensures Escape([c] + rest) == Escape([c]) + Escape(rest)
    ensures Escape([c]) ==
      match c as int
      case 8 => "\\b"
      case 9 => "\\t"
      case 10 => "\\n"
      case 12 => "\\f"
      case 13 => "\\r"
      case 34 => "\\\""
      case 92 => "\\\\"
      case n =>
        if n >= 32 then [c]
        else "\\u00" + [if n < 16 then '0' else '1', if n % 16 < 10 then '0' + (n % 16) as char else 'a' + (n % 16 - 10) as char]
  {
    EscapeOne(c, rest);
  }

  lemma {:induction false} NoLeadingZero(n: nat)
    ensures Decimal(n)[0] == '0' ==> n == 0
    ensures |Decimal(n)| > 1 ==> n >= 10
  {
    if n >= 10 { NoLeadingZero(n / 10); }
  }

  /** Scalars as section 3.2.2 of RFC 8785 writes them: no superfluous zeros, and a minus sign in front of negative numbers
      only. */
  lemma ScalarsAreWritten(n: nat, k: string)
    ensures Text(Null) == "null" && Text(Bool(true)) == "true" && Text(Bool(false)) == "false"
    ensures Text(Num(0)) == "0" && Text(Str(k)) == "\"" + Escape(k) + "\""
    ensures n > 0 ==> Text(Num(n))[0] != '0' && Text(Num(0 - n)) == "-" + Text(Num(n))
    ensures forall i :: 0 <= i < |Text(Num(n))| ==> '0' <= Text(Num(n))[i] <= '9'
  {
    NoLeadingZero(n);
  }

  lemma ItemsAre(a: Value, more: seq<Value>)
    ensures ItemTexts([a] + more) == [if a == Undefined then "null" else Text(a)] + ItemTexts(more)
  {
    assert ([a] + more)[1..] == more;
  }

  lemma JoinIs(t: string, more: seq<string>)
    ensures Join([t]) == t && (more != [] ==> Join([t] + more) == t + "," + Join(more))
  {
    assert ([t] + more)[1..] == more;
  }

  /** Lists without blanks; what is undefined reads null. */
  lemma ListsAreWritten(a: Value, more: seq<Value>)
    ensures Text(Arr([])) == "[]"
    ensures Text(Arr([a] + more)) == "[" + Join([if a == Undefined then "null" else Text(a)] + ItemTexts(more)) + "]"
  {
    ItemsAre(a, more);
  }

  /** A member without blanks; one that is undefined is left out. */
  lemma MembersAreWritten(k: string, a: Value)
    ensures Text(Obj([])) == "{}" && Text(Obj([Entry(k, Undefined)])) == "{}"
    ensures a != Undefined ==> Text(Obj([Entry(k, a)])) == "{" + (Text(Str(k)) + ":" + Text(a)) + "}"
  {
    var t := Entry(k, Text(a));
    assert [Entry(k, a)][1..] == [] && [Entry(k, Undefined)][1..] == [] && [t][1..] == [];
    assert DefinedTexts([Entry(k, Undefined)]) == [];
    if a != Undefined {
      assert DefinedTexts([Entry(k, a)]) == [t];
      assert SortByKey([t]) == [t];
      assert MemberTexts([t]) == [MemberText(t)];
      JoinIs(MemberText(t), []);
    }
  }
}
