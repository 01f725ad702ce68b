/** Exactly which texts of a body the scanners see (packages/dlp/src/index.ts). */
module DlpCoverage {
  import opened Wrappers
  import opened Json
  import opened Policy
  import opened Dlp

  // ---------------------------------------------------------------------------------------------
  // The strings of a value
  // ---------------------------------------------------------------------------------------------

  /** The value is that string, or an object with that key. */
  predicate HasText(v: Value, s: string) { v == Str(s) || (v.Obj? && exists m :: m in v.members && m.key == s) }

  /** At most eight steps down, counted from `depth`. */
  predicate ReachesText(v: Value, path: seq<nat>, depth: nat, s: string) {
    IsPath(v, path) && depth + |path| <= 8 && HasText(Below(v, path), s)
  }

  ghost predicate SomeReaches(v: Value, depth: nat, s: string) { exists path :: ReachesText(v, path, depth, s) }

  lemma {:induction false} ItemStringsAre(items: seq<Value>, depth: nat, s: string)
    ensures s in ItemStrings(items, depth) <==> exists i :: 0 <= i < |items| && s in Strings(items[i], depth)
    decreases |items|
  {
    if items != [] {
      ItemStringsAre(items[1..], depth, s);
      if i :| 0 <= i < |items| && s in Strings(items[i], depth) { assert i > 0 ==> items[1..][i - 1] == items[i]; }
      if i :| 0 <= i < |items[1..]| && s in Strings(items[1..][i], depth) { assert items[i + 1] == items[1..][i]; }
    }
  }

  lemma {:induction false} MemberStringsAre(members: seq<Entry<Value>>, depth: nat, s: string)
    ensures s in MemberStrings(members, depth) <==>
      exists i :: 0 <= i < |members| && (members[i].key == s || s in Strings(members[i].val, depth))
    decreases |members|
  {
    if members != [] {
      MemberStringsAre(members[1..], depth, s);
      if i :| 0 <= i < |members| && (members[i].key == s || s in Strings(members[i].val, depth)) {
        assert i > 0 ==> members[1..][i - 1] == members[i];
      }
      if i :| 0 <= i < |members[1..]| && (members[1..][i].key == s || s in Strings(members[1..][i].val, depth)) {
        assert members[i + 1] == members[1..][i];
      }
    }
  }

  /** In the value itself, or in one of its children. */
  lemma StringsOf(v: Value, depth: nat, s: string)
    requires depth <= 8
    ensures s in Strings(v, depth) <==> HasText(v, s) || exists i :: 0 <= i < |Children(v)| && s in Strings(Children(v)[i], depth + 1)
  {
    match v
    case Arr(items) => ArrayStringsOf(v, depth, s);
    case Obj(members) => ObjectStringsOf(v, depth, s);
    case _ =>
  }

  lemma ArrayStringsOf(v: Value, depth: nat, s: string)
    requires v.Arr? && depth <= 8
    ensures s in Strings(v, depth) <==> HasText(v, s) || exists i :: 0 <= i < |Children(v)| && s in Strings(Children(v)[i], depth + 1)
  {
    ItemStringsAre(v.items, depth + 1, s);
    assert Children(v) == v.items && Strings(v, depth) == ItemStrings(v.items, depth + 1);
  }

  lemma ObjectStringsOf(v: Value, depth: nat, s: string)
    requires v.Obj? && depth <= 8
    ensures s in Strings(v, depth) <==> HasText(v, s) || exists i :: 0 <= i < |Children(v)| && s in Strings(Children(v)[i], depth + 1)
  {
    MemberStringsAre(v.members, depth + 1, s);
    assert forall i :: 0 <= i < |v.members| ==> Children(v)[i] == v.members[i].val && v.members[i] in v.members;
    if m :| m in v.members && m.key == s {
      var i :| 0 <= i < |v.members| && v.members[i] == m;
    }
    if i :| 0 <= i < |v.members| && s in Strings(v.members[i].val, depth + 1) { assert s in Strings(Children(v)[i], depth + 1); }
    if i :| 0 <= i < |Children(v)| && s in Strings(Children(v)[i], depth + 1) { assert s in Strings(v.members[i].val, depth + 1); }
  }

  lemma ReachesOf(v: Value, depth: nat, s: string)
    requires depth <= 8
    ensures SomeReaches(v, depth, s) <==>
      HasText(v, s) || exists i :: 0 <= i < |Children(v)| && SomeReaches(Children(v)[i], depth + 1, s)
  {
    if path :| ReachesText(v, path, depth, s) {
      if path != [] { assert ReachesText(Children(v)[path[0]], path[1..], depth + 1, s); }
    }
    if HasText(v, s) { assert ReachesText(v, [], depth, s); }
    if i: nat :| i < |Children(v)| && SomeReaches(Children(v)[i], depth + 1, s) {
      var path :| ReachesText(Children(v)[i], path, depth + 1, s);
      assert ([i] + path)[1..] == path;
      assert ReachesText(v, [i] + path, depth, s);
    }
  }

  /** The scanned strings are exactly those that stand, as a string or a key, up to eight levels deep. */
  lemma {:induction false} StringsAreThose(v: Value, depth: nat, s: string)
    ensures s in Strings(v, depth) <==> SomeReaches(v, depth, s)
    decreases 9 - depth
  {
    if depth <= 8 {
      StringsOf(v, depth, s);
      ReachesOf(v, depth, s);
      forall i | 0 <= i < |Children(v)| ensures s in Strings(Children(v)[i], depth + 1) <==> SomeReaches(Children(v)[i], depth + 1, s) {
        StringsAreThose(Children(v)[i], depth + 1, s);
      }
    }
  }

  /** Each of them stands in the text that the detectors get. */
  lemma {:induction false} TextHolds(parts: seq<string>, i: nat) returns (before: string, after: string)
    requires i < |parts|
    ensures JoinLines(parts) == before + parts[i] + after
    ensures (before == "" || before[|before| - 1] == '\n') && (after == "" || after[0] == '\n')
  {
    if i == 0 {
      before, after := "", if |parts| == 1 then "" else "\n" + JoinLines(parts[1..]);
    } else {
      before, after := TextHolds(parts[1..], i - 1);
      var head := parts[0] + "\n";
      assert JoinLines(parts) == head + JoinLines(parts[1..]);
      assert head + (before + parts[i] + after) == (head + before) + parts[i] + after;
      before := head + before;
    }
  }

  /** A secret in that text is denied by every policy, whatever was declared. */
  lemma SecretInTextIsDenied(
    d: Detectors, v: Value, declared: Option<Classification>,
    state: RoomState, t: EventType, action: Option<string>, policy: ParticipantPolicy, contract: Contract)
    requires d.secrets(JoinLines(Strings(v, 0))) != []
    ensures Decide(InputFor(state, t, action, Scan(d, v, declared)), policy, contract) == Deny(SecretDisclosure)
  {
    var found := d.secrets(JoinLines(Strings(v, 0)));
    DedupedAre(found + ScanAll(d, Candidates(v, 0)), found[0]);
    assert found[0] in SecretFindings(d, v);
  }

  // ---------------------------------------------------------------------------------------------
  // The rejoined texts of a value
  // ---------------------------------------------------------------------------------------------

  ghost predicate ReachesRejoined(v: Value, path: seq<nat>, depth: nat, text: string) {
    && IsPath(v, path) && depth + |path| <= 8
    && (Below(v, path).Arr? || Below(v, path).Obj?) && IsRejoined(StringsAmong(Children(Below(v, path))), text)
  }

  ghost predicate SomeRejoins(v: Value, depth: nat, text: string) { exists path :: ReachesRejoined(v, path, depth, text) }

  lemma {:induction false} RunsAtAre(parts: seq<string>, start: nat, len: nat, text: string)
    requires len >= 2 && text in RunsAt(parts, start, len)
    ensures exists l: nat :: IsRun(parts, start, l, text)
    decreases 5 - len
  {
    if text == Concat(parts[start..start + len]) { assert IsRun(parts, start, len, text); } else { RunsAtAre(parts, start, len + 1, text); }
  }

  lemma {:induction false} RunsFromAre(parts: seq<string>, start: nat, text: string)
    requires text in RunsFrom(parts, start)
    ensures exists s: nat, l: nat :: IsRun(parts, s, l, text)
    decreases |parts| - start
  {
    if text in RunsAt(parts, start, 2) { RunsAtAre(parts, start, 2, text); } else { RunsFromAre(parts, start + 1, text); }
  }

  lemma OwnAreRejoined(v: Value, text: string)
    requires text in OwnCandidates(StringsAmong(Children(v)))
    ensures IsRejoined(StringsAmong(Children(v)), text)
  {
    var parts := StringsAmong(Children(v));
    if text in RunsFrom(parts, 0) { RunsFromAre(parts, 0, text); }
  }

  lemma {:induction false} ItemCandidatesAre(items: seq<Value>, depth: nat, text: string)
    requires text in ItemCandidates(items, depth)
    ensures exists i :: 0 <= i < |items| && text in Candidates(items[i], depth)
    decreases |items|
  {
    if text !in Candidates(items[0], depth) {
      ItemCandidatesAre(items[1..], depth, text);
      var i :| 0 <= i < |items[1..]| && text in Candidates(items[1..][i], depth);
      assert items[i + 1] == items[1..][i];
    }
  }

  lemma {:induction false} MemberCandidatesAre(members: seq<Entry<Value>>, depth: nat, text: string)
    requires text in MemberCandidates(members, depth)
    ensures exists i :: 0 <= i < |members| && text in Candidates(members[i].val, depth)
    decreases |members|
  {
    if text !in Candidates(members[0].val, depth) {
      MemberCandidatesAre(members[1..], depth, text);
      var i :| 0 <= i < |members[1..]| && text in Candidates(members[1..][i].val, depth);
      assert members[i + 1] == members[1..][i];
    }
  }

  /** A rejoined text is one of the value's own, or one of its `i`-th child. */
  lemma CandidatesOf(v: Value, depth: nat, text: string) returns (i: Option<nat>)
    requires text in Candidates(v, depth)
    ensures depth <= 8 && (v.Arr? || v.Obj?)
    ensures i.None? ==> IsRejoined(StringsAmong(Children(v)), text)
    ensures i.Some? ==> i.value < |Children(v)| && text in Candidates(Children(v)[i.value], depth + 1)
  {
    if text in OwnCandidates(StringsAmong(Children(v))) {
      OwnAreRejoined(v, text);
      return None;
    } else if v.Arr? {
      ItemCandidatesAre(v.items, depth + 1, text);
      var n: nat :| n < |v.items| && text in Candidates(v.items[n], depth + 1);
      return Some(n);
    } else {
      MemberCandidatesAre(v.members, depth + 1, text);
      var n: nat :| n < |v.members| && text in Candidates(v.members[n].val, depth + 1);
      assert Children(v)[n] == v.members[n].val;
      return Some(n);
    }
  }

  lemma ChildRejoins(v: Value, i: nat, depth: nat, text: string)
    requires i < |Children(v)| && SomeRejoins(Children(v)[i], depth + 1, text)
    ensures SomeRejoins(v, depth, text)
  {
    var path :| ReachesRejoined(Children(v)[i], path, depth + 1, text);
    var longer := [i] + path;
    assert longer[1..] == path && longer[0] == i;
    assert IsPath(v, longer) && Below(v, longer) == Below(Children(v)[i], path);
    assert ReachesRejoined(v, longer, depth, text);
  }

  lemma {:induction false} CandidatesRejoin(v: Value, depth: nat, text: string)
    requires text in Candidates(v, depth)
    ensures SomeRejoins(v, depth, text)
    decreases 9 - depth
  {
    var i := CandidatesOf(v, depth, text);
    if i.None? {
      assert ReachesRejoined(v, [], depth, text);
    } else {
      CandidatesRejoin(Children(v)[i.value], depth + 1, text);
      ChildRejoins(v, i.value, depth, text);
    }
  }

  /** The rejoined texts are exactly, of every container up to eight levels deep, two to four neighbouring strings joined and
      all strings joined when there are more than four. */
  lemma CandidatesAreThose(v: Value, text: string)
    ensures text in Candidates(v, 0) <==> SomeRejoins(v, 0, text)
  {
    if text in Candidates(v, 0) { CandidatesRejoin(v, 0, text); }
    if path :| ReachesRejoined(v, path, 0, text) {
      RejoinedIsOwn(Below(v, path), text, |path|);
      NestedCandidates(v, path, 0, text);
    }
  }

  /** The parts of a container are its own strings in order, and rejoining them puts them one after the other. */
  lemma {:induction false} PartsAre(vs: seq<Value>, v: Value, parts: seq<string>, more: seq<string>)
    ensures StringsAmong([v] + vs) == if v.Str? then [v.s] + StringsAmong(vs) else StringsAmong(vs)
    ensures StringsAmong([]) == [] && Concat([]) == ""
    ensures Concat(parts + more) == Concat(parts) + Concat(more)
    ensures forall s :: Concat([s]) == s
    decreases |parts|
  {
    assert ([v] + vs)[1..] == vs;
    if parts == [] {
      assert parts + more == more;
    } else {
      assert (parts + more)[1..] == parts[1..] + more;
      PartsAre(vs, v, parts[1..], more);
    }
  }

  // ---------------------------------------------------------------------------------------------
  // What is found
  // ---------------------------------------------------------------------------------------------

  lemma {:induction false} ScanAllAre(d: Detectors, texts: seq<string>, f: Finding)
    ensures f in ScanAll(d, texts) <==> exists i :: 0 <= i < |texts| && f in d.secrets(texts[i])
    decreases |texts|
  {
    if texts != [] {
      ScanAllAre(d, texts[1..], f);
      if i :| 0 <= i < |texts| && f in d.secrets(texts[i]) { assert i > 0 ==> texts[1..][i - 1] == texts[i]; }
      if i :| 0 <= i < |texts[1..]| && f in d.secrets(texts[1..][i]) { assert texts[i + 1] == texts[1..][i]; }
    }
  }

  predicate SecretIn(d: Detectors, text: string, f: Finding) { f in d.secrets(text) }

  /** A secret finding is one of the whole text or of some rejoined text, each once; a personal-data finding one of the whole
      text. */
  lemma FindingsAre(d: Detectors, v: Value, f: Finding)
    ensures f in SecretFindings(d, v) <==>
      SecretIn(d, JoinLines(Strings(v, 0)), f) || exists text :: SomeRejoins(v, 0, text) && SecretIn(d, text, f)
    ensures f in PiiFindings(d, v) <==> f in d.pii(JoinLines(Strings(v, 0)))
  {
    var texts := Candidates(v, 0);
    DedupedAre(d.secrets(JoinLines(Strings(v, 0))) + ScanAll(d, texts), f);
    ScanAllAre(d, texts, f);
    if i :| 0 <= i < |texts| && f in d.secrets(texts[i]) {
      CandidatesAreThose(v, texts[i]);
      assert SecretIn(d, texts[i], f);
    }
    if text :| SomeRejoins(v, 0, text) && SecretIn(d, text, f) {
      CandidatesAreThose(v, text);
      var i :| 0 <= i < |texts| && texts[i] == text;
    }
  }
}
