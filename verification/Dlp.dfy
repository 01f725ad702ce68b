/** The data-loss-prevention pass of packages/dlp/src/index.ts. The detectors (regular expressions in the program)
    are a parameter: any functions from text to findings. */
module Dlp {
  import opened Wrappers
  import opened Json
  import opened Policy
  import opened Sequences

  datatype Finding = Finding(detector: string, category: Category)

  datatype Detectors = Detectors(secrets: string -> seq<Finding>, pii: string -> seq<Finding>)

  datatype Report = Report(secretFindings: seq<Finding>, piiFindings: seq<Finding>, classification: Classification)

  const MAX_DEPTH := 8
  const MAX_RUN := 4

  // ---------------------------------------------------------------------------------------------
  // The texts that are scanned
  // ---------------------------------------------------------------------------------------------

  /** Every string of a value down to the depth limit, keys included, in order. */
  function Strings(v: Value, depth: nat): seq<string>
    decreases v, 0
  {
    if depth > MAX_DEPTH then []
    else match v
      case Str(s) => [s]
      case Arr(items) => ItemStrings(items, depth + 1)
      case Obj(members) => MemberStrings(members, depth + 1)
      case _ => []
  }

  function ItemStrings(items: seq<Value>, depth: nat): seq<string>
    decreases items, 0
  {
    if items == [] then [] else Strings(items[0], depth) + ItemStrings(items[1..], depth)
  }

  function MemberStrings(members: seq<Entry<Value>>, depth: nat): seq<string>
    decreases members, 0
  {
    if members == [] then [] else [members[0].key] + Strings(members[0].val, depth) + MemberStrings(members[1..], depth)
  }

  method ExtractItems(items: seq<Value>, out: seq<string>, depth: nat) returns (out': seq<string>)
    ensures out' == out + ItemStrings(items, depth)
    decreases items, 0
  {
    out' := out;
    for i := 0 to |items|
      invariant out' + ItemStrings(items[i..], depth) == out + ItemStrings(items, depth)
    {
      assert items[i..][1..] == items[i + 1..];
      Assoc(out', Strings(items[i], depth), ItemStrings(items[i + 1..], depth));
      out' := ExtractStrings(items[i], out', depth);
    }
  }

  method ExtractMembers(members: seq<Entry<Value>>, out: seq<string>, depth: nat) returns (out': seq<string>)
    ensures out' == out + MemberStrings(members, depth)
    decreases members, 0
  {
    out' := out;
    for i := 0 to |members|
      invariant out' + MemberStrings(members[i..], depth) == out + MemberStrings(members, depth)
    {
      var m := members[i];
      assert members[i..][1..] == members[i + 1..];
      Assoc(out', [m.key] + Strings(m.val, depth), MemberStrings(members[i + 1..], depth));
      Assoc(out', [m.key], Strings(m.val, depth));
      out' := ExtractStrings(m.val, out' + [m.key], depth);
    }
  }

  method ExtractStrings(v: Value, out: seq<string>, depth: nat) returns (out': seq<string>)
    ensures out' == out + Strings(v, depth)
    decreases v, 0
  {
    out' := out;
    if depth > MAX_DEPTH { return; }
    match v {
      case Str(s) => out' := out + [s];
      case Arr(items) => out' := ExtractItems(items, out, depth + 1);
      case Obj(members) => out' := ExtractMembers(members, out, depth + 1);
      case _ =>
    }
  }

  function JoinLines(parts: seq<string>): string {
    if parts == [] then "" else if |parts| == 1 then parts[0] else parts[0] + "\n" + JoinLines(parts[1..])
  }

  function Concat(parts: seq<string>): string {
    if parts == [] then "" else parts[0] + Concat(parts[1..])
  }

  /** The values directly inside a container. */
  function Children(v: Value): seq<Value> {
    match v
    case Arr(items) => items
    case Obj(members) => Values(members)
    case _ => []
  }

  function Values(members: seq<Entry<Value>>): (c: seq<Value>)
    ensures |c| == |members| && forall i :: 0 <= i < |c| ==> c[i] == members[i].val
  {
    if members == [] then [] else [members[0].val] + Values(members[1..])
  }

  function StringsAmong(vs: seq<Value>): seq<string> {
    if vs == [] then [] else (if vs[0].Str? then [vs[0].s] else []) + StringsAmong(vs[1..])
  }

  /** Joined runs of neighbouring strings that begin at `start` and have `len` to four parts. */
  function RunsAt(parts: seq<string>, start: nat, len: nat): seq<string>
    decreases MAX_RUN + 1 - len
  {
    if len > MAX_RUN || start + len > |parts| then []
    else [Concat(parts[start..start + len])] + RunsAt(parts, start, len + 1)
  }

  function RunsFrom(parts: seq<string>, start: nat): seq<string>
    decreases |parts| - start
  {
    if start >= |parts| then [] else RunsAt(parts, start, 2) + RunsFrom(parts, start + 1)
  }

  /** Joined neighbours of one container, and all its strings joined when there are more than four. */
  function OwnCandidates(parts: seq<string>): seq<string> {
    RunsFrom(parts, 0) + (if |parts| > MAX_RUN then [Concat(parts)] else [])
  }

  /** Texts a secret may have been cut into pieces of: the joined neighbours of every container. */
  function Candidates(v: Value, depth: nat): seq<string>
    decreases v, 0
  {
    if depth > MAX_DEPTH then []
    else match v
      case Arr(items) => OwnCandidates(StringsAmong(Children(v))) + ItemCandidates(items, depth + 1)
      case Obj(members) => OwnCandidates(StringsAmong(Children(v))) + MemberCandidates(members, depth + 1)
      case _ => []
  }

  function ItemCandidates(items: seq<Value>, depth: nat): seq<string>
    decreases items, 0
  {
    if items == [] then [] else Candidates(items[0], depth) + ItemCandidates(items[1..], depth)
  }

  function MemberCandidates(members: seq<Entry<Value>>, depth: nat): seq<string>
    decreases members, 0
  {
    if members == [] then [] else Candidates(members[0].val, depth) + MemberCandidates(members[1..], depth)
  }

  method JoinRuns(parts: seq<string>, start: nat, out: seq<string>) returns (out': seq<string>)
    ensures out' == out + RunsAt(parts, start, 2)
  {
    out' := out;
    var len := 2;
    while len <= MAX_RUN && start + len <= |parts|
      invariant 2 <= len
      invariant out' + RunsAt(parts, start, len) == out + RunsAt(parts, start, 2)
    {
      var run := Concat(parts[start..start + len]);
      Assoc(out', [run], RunsAt(parts, start, len + 1));
      out' := out' + [run];
      len := len + 1;
    }
  }

  method JoinNeighbours(parts: seq<string>, out: seq<string>) returns (out': seq<string>)
    ensures out' == out + OwnCandidates(parts)
  {
    out' := out;
    for start := 0 to |parts|
      invariant out' + RunsFrom(parts, start) == out + RunsFrom(parts, 0)
    {
      Assoc(out', RunsAt(parts, start, 2), RunsFrom(parts, start + 1));
      out' := JoinRuns(parts, start, out');
    }
    assert out' == out + RunsFrom(parts, 0);
    if |parts| > MAX_RUN {
      Assoc(out, RunsFrom(parts, 0), [Concat(parts)]);
      out' := out' + [Concat(parts)];
    }
  }

  method ReassembleItems(items: seq<Value>, out: seq<string>, depth: nat) returns (out': seq<string>)
    ensures out' == out + ItemCandidates(items, depth)
    decreases items, 0
  {
    out' := out;
    for i := 0 to |items|
      invariant out' + ItemCandidates(items[i..], depth) == out + ItemCandidates(items, depth)
    {
      assert items[i..][1..] == items[i + 1..];
      Assoc(out', Candidates(items[i], depth), ItemCandidates(items[i + 1..], depth));
      out' := ReassemblyCandidates(items[i], out', depth);
    }
  }

  method ReassembleMembers(members: seq<Entry<Value>>, out: seq<string>, depth: nat) returns (out': seq<string>)
    ensures out' == out + MemberCandidates(members, depth)
    decreases members, 0
  {
    out' := out;
    for i := 0 to |members|
      invariant out' + MemberCandidates(members[i..], depth) == out + MemberCandidates(members, depth)
    {
      assert members[i..][1..] == members[i + 1..];
      Assoc(out', Candidates(members[i].val, depth), MemberCandidates(members[i + 1..], depth));
      out' := ReassemblyCandidates(members[i].val, out', depth);
    }
  }

  method ReassemblyCandidates(v: Value, out: seq<string>, depth: nat) returns (out': seq<string>)
    ensures out' == out + Candidates(v, depth)
    decreases v, 0
  {
    out' := out;
    if depth > MAX_DEPTH || !(v.Arr? || v.Obj?) { return; }
    var own := StringsAmong(Children(v));
    out' := JoinNeighbours(own, out');
    if v.Arr? {
      Assoc(out, OwnCandidates(own), ItemCandidates(v.items, depth + 1));
      out' := ReassembleItems(v.items, out', depth + 1);
    } else {
      Assoc(out, OwnCandidates(own), MemberCandidates(v.members, depth + 1));
      out' := ReassembleMembers(v.members, out', depth + 1);
    }
  }

  // ---------------------------------------------------------------------------------------------
  // The report
  // ---------------------------------------------------------------------------------------------

  function ScanAll(d: Detectors, texts: seq<string>): seq<Finding> {
    if texts == [] then [] else d.secrets(texts[0]) + ScanAll(d, texts[1..])
  }

  /** First finding of each detector and category. */
  function Deduped(fs: seq<Finding>): seq<Finding> {
    if fs == [] then []
    else
      var init := Deduped(fs[..|fs| - 1]);
      if fs[|fs| - 1] in init then init else init + [fs[|fs| - 1]]
  }

  function SecretFindings(d: Detectors, v: Value): seq<Finding> {
    Deduped(d.secrets(JoinLines(Strings(v, 0))) + ScanAll(d, Candidates(v, 0)))
  }

  function PiiFindings(d: Detectors, v: Value): seq<Finding> { d.pii(JoinLines(Strings(v, 0))) }

  /** Adding to an insertion-ordered set. */
  function Added(cats: seq<Category>, c: Category): seq<Category> { if c in cats then cats else cats + [c] }

  function AddedFindings(cats: seq<Category>, fs: seq<Finding>): seq<Category>
    decreases |fs|
  {
    if fs == [] then cats else AddedFindings(Added(cats, fs[0].category), fs[1..])
  }

  function AddedAll(cats: seq<Category>, more: seq<Category>): seq<Category>
    decreases |more|
  {
    if more == [] then cats else AddedAll(Added(cats, more[0]), more[1..])
  }

  function CategoriesOf(secrets: seq<Finding>, pii: seq<Finding>): seq<Category> {
    AddedFindings(AddedFindings([], secrets), pii)
  }

  function SensitivityOf(secrets: seq<Finding>): Sensitivity { if secrets != [] then SecretLevel else InternalLevel }

  /** The computed labels merged with declared ones. */
  function Merged(secrets: seq<Finding>, pii: seq<Finding>, declared: Option<Classification>): Classification {
    var found := CategoriesOf(secrets, pii);
    var cats := if declared.Some? then AddedAll(found, declared.value.categories) else found;
    var base := SensitivityOf(secrets);
    Classification(
      if declared.Some? && Rank(declared.value.sensitivity) > Rank(base) then declared.value.sensitivity else base,
      if cats == [] then [General] else cats)
  }

  function Scan(d: Detectors, v: Value, declared: Option<Classification>): Report {
    var secrets, pii := SecretFindings(d, v), PiiFindings(d, v);
    Report(secrets, pii, Merged(secrets, pii, declared))
  }

  /** The categories of what was found. */
  function Detected(d: Detectors, v: Value): seq<Category> { CategoriesOf(SecretFindings(d, v), PiiFindings(d, v)) }

  method DedupeFindings(fs: seq<Finding>) returns (out: seq<Finding>)
    ensures out == Deduped(fs)
  {
    out := [];
    for i := 0 to |fs|
      invariant out == Deduped(fs[..i])
    {
      assert fs[..i + 1][..i] == fs[..i];
      if fs[i] !in out { out := out + [fs[i]]; }
    }
    assert fs[..|fs|] == fs;
  }

  method ScanEach(d: Detectors, texts: seq<string>, found: seq<Finding>) returns (out: seq<Finding>)
    ensures out == found + ScanAll(d, texts)
  {
    out := found;
    for i := 0 to |texts|
      invariant out + ScanAll(d, texts[i..]) == found + ScanAll(d, texts)
    {
      out := out + d.secrets(texts[i]);
      assert texts[i..][1..] == texts[i + 1..];
    }
  }

  method AddFindings(cats: seq<Category>, fs: seq<Finding>) returns (out: seq<Category>)
    ensures out == AddedFindings(cats, fs)
  {
    out := cats;
    for i := 0 to |fs|
      invariant AddedFindings(out, fs[i..]) == AddedFindings(cats, fs)
    {
      out := Added(out, fs[i].category);
      assert fs[i..][1..] == fs[i + 1..];
    }
  }

  method AddLabels(cats: seq<Category>, labels: seq<Category>) returns (out: seq<Category>)
    ensures out == AddedAll(cats, labels)
  {
    out := cats;
    for i := 0 to |labels|
      invariant AddedAll(out, labels[i..]) == AddedAll(cats, labels)
    {
      out := Added(out, labels[i]);
      assert labels[i..][1..] == labels[i + 1..];
    }
  }

  method FindSecrets(d: Detectors, v: Value, text: string) returns (fs: seq<Finding>)
    requires text == JoinLines(Strings(v, 0))
    ensures fs == SecretFindings(d, v)
  {
    var candidates := ReassemblyCandidates(v, [], 0);
    assert candidates == Candidates(v, 0);
    var found := ScanEach(d, candidates, d.secrets(text));
    fs := DedupeFindings(found);
  }

  method MergeLabels(secrets: seq<Finding>, pii: seq<Finding>, declared: Option<Classification>) returns (c: Classification)
    ensures c == Merged(secrets, pii, declared)
  {
    var cats := AddFindings([], secrets);
    cats := AddFindings(cats, pii);
    var sensitivity := if |secrets| > 0 then SecretLevel else InternalLevel;
    if declared.Some? {
      cats := AddLabels(cats, declared.value.categories);
      if Rank(declared.value.sensitivity) > Rank(sensitivity) { sensitivity := declared.value.sensitivity; }
    }
    if cats == [] { cats := Added(cats, General); }
    return Classification(sensitivity, cats);
  }

  /** `runDlp`. */
  method RunDlp(d: Detectors, v: Value, declared: Option<Classification>) returns (r: Report)
    ensures r == Scan(d, v, declared)
  {
    var strings := ExtractStrings(v, [], 0);
    assert strings == Strings(v, 0);
    var text := JoinLines(strings);
    var secrets := FindSecrets(d, v, text);
    var pii := d.pii(text);
    var labels := MergeLabels(secrets, pii, declared);
    return Report(secrets, pii, labels);
  }

  // ---------------------------------------------------------------------------------------------
  // What the report means
  // ---------------------------------------------------------------------------------------------

  lemma {:induction false} AddedFindingsAre(cats: seq<Category>, fs: seq<Finding>, c: Category)
    ensures c in AddedFindings(cats, fs) <==> c in cats || exists f :: f in fs && f.category == c
    decreases |fs|
  {
    if fs != [] {
      AddedFindingsAre(Added(cats, fs[0].category), fs[1..], c);
      assert forall f :: f in fs <==> f == fs[0] || f in fs[1..];
    }
  }

  lemma {:induction false} AddedAllAre(cats: seq<Category>, more: seq<Category>, c: Category)
    ensures c in AddedAll(cats, more) <==> c in cats || c in more
    decreases |more|
  {
    if more != [] {
      AddedAllAre(Added(cats, more[0]), more[1..], c);
      assert c in more <==> c == more[0] || c in more[1..];
    }
  }

  /** A category some finding of the value carries. */
  predicate IsFound(d: Detectors, v: Value, c: Category) {
    || (exists f :: f in SecretFindings(d, v) && f.category == c)
    || (exists f :: f in PiiFindings(d, v) && f.category == c)
  }

  lemma DetectedAre(d: Detectors, v: Value, c: Category)
    ensures c in Detected(d, v) <==> IsFound(d, v, c)
  {
    AddedFindingsAre([], SecretFindings(d, v), c);
    AddedFindingsAre(AddedFindings([], SecretFindings(d, v)), PiiFindings(d, v), c);
  }

  /** Declared labels merge with what was found: the categories are exactly both, and the sensitivity the higher one,
      so a declaration can raise a classification and never lower it. */
  lemma DeclarationMerges(d: Detectors, v: Value, declared: Classification, c: Category)
    ensures var r, base := Scan(d, v, Some(declared)).classification, Scan(d, v, None).classification.sensitivity;
      && (IsFound(d, v, c) || c in declared.categories ==> c in r.categories)
      && (c in r.categories && c != General ==> IsFound(d, v, c) || c in declared.categories)
      && Rank(r.sensitivity) >= Rank(declared.sensitivity) && Rank(r.sensitivity) >= Rank(base)
      && (r.sensitivity == declared.sensitivity || r.sensitivity == base)
  {
    DetectedAre(d, v, c);
    AddedAllAre(Detected(d, v), declared.categories, c);
  }

  /** Without a declaration the labels are what was found, or "general" when nothing was, and the sensitivity tells exactly
      whether a secret was. */
  lemma UndeclaredIsFound(d: Detectors, v: Value, c: Category)
    ensures var r := Scan(d, v, None).classification;
      && (IsFound(d, v, c) ==> c in r.categories)
      && (c in r.categories && c != General ==> IsFound(d, v, c))
      && ((forall k :: !IsFound(d, v, k)) ==> r.categories == [General])
      && r.sensitivity == if SecretFindings(d, v) != [] then SecretLevel else InternalLevel
  {
    DetectedAre(d, v, c);
    if Detected(d, v) != [] { DetectedAre(d, v, Detected(d, v)[0]); }
  }

  function InputFor(state: RoomState, t: EventType, action: Option<string>, r: Report): Input {
    Input(state, t, r.classification.sensitivity, r.classification.categories, action, |r.secretFindings|)
  }

  /** A body allowed with a declaration is allowed without one, for every policy and contract, except when the scanners
      find nothing and the contract forbids "general". */
  lemma DeclarationOnlyTightens(
    d: Detectors, v: Value, declared: Classification,
    state: RoomState, t: EventType, action: Option<string>, policy: ParticipantPolicy, contract: Contract)
    requires Decide(InputFor(state, t, action, Scan(d, v, Some(declared))), policy, contract) == Allow
    ensures Decide(InputFor(state, t, action, Scan(d, v, None)), policy, contract) == Allow
      <==> !(Detected(d, v) == [] && General in contract.forbiddenDataClasses)
  {
    var high := InputFor(state, t, action, Scan(d, v, Some(declared)));
    var low := InputFor(state, t, action, Scan(d, v, None));
    DeclarationMerges(d, v, declared, General);
    UndeclaredIsFound(d, v, General);
    forall c | c in low.categories ensures c in high.categories || c == General {
      DeclarationMerges(d, v, declared, c);
      UndeclaredIsFound(d, v, c);
    }
    AllowIsMonotone(high, low, policy, contract);
    NotDeniedIsClean(high, policy, contract);
    if Detected(d, v) != [] {
      forall c | c in low.categories ensures c !in contract.forbiddenDataClasses {
        DetectedAre(d, v, c);
        DeclarationMerges(d, v, declared, c);
        assert c in high.categories;
      }
    }
    assert low.categories == if Detected(d, v) == [] then [General] else Detected(d, v);
    if Detected(d, v) == [] && General in contract.forbiddenDataClasses { assert General in low.categories; }
  }

  /** It happens, to any body in which nothing is found: declared as "architecture" it is let through, and without the
      declaration it is denied by a contract that forbids "general". */
  lemma DeclarationCanLoosen(d: Detectors, v: Value)
    requires SecretFindings(d, v) == [] && Detected(d, v) == []
    ensures var declared := Classification(InternalLevel, [Architecture]);
      var policy := ParticipantPolicy([MessageType], map[Architecture := AllowClass], ConfidentialLevel, [], []);
      var contract := Contract([Architecture], [General], [], [], []);
      && Decide(InputFor(Active, MessageType, None, Scan(d, v, Some(declared))), policy, contract) == Allow
      && Decide(InputFor(Active, MessageType, None, Scan(d, v, None)), policy, contract) == Deny(ForbiddenDataClass)
  {
    var declared := Classification(InternalLevel, [Architecture]);
    var with, without := InputFor(Active, MessageType, None, Scan(d, v, Some(declared))), InputFor(Active, MessageType, None, Scan(d, v, None));
    assert AddedAll([], [Architecture]) == [Architecture];
    assert with == Input(Active, MessageType, InternalLevel, [Architecture], None, 0);
    assert without == Input(Active, MessageType, InternalLevel, [General], None, 0);
    ArchitectureOnly(with, without);
  }

  lemma ArchitectureOnly(with: Input, without: Input)
    requires with == Input(Active, MessageType, InternalLevel, [Architecture], None, 0)
    requires without == Input(Active, MessageType, InternalLevel, [General], None, 0)
    ensures var policy := ParticipantPolicy([MessageType], map[Architecture := AllowClass], ConfidentialLevel, [], []);
      var contract := Contract([Architecture], [General], [], [], []);
      Decide(with, policy, contract) == Allow && Decide(without, policy, contract) == Deny(ForbiddenDataClass)
  {
    assert General in without.categories;
  }

  // ---------------------------------------------------------------------------------------------
  // Cutting a secret into pieces does not hide it
  // ---------------------------------------------------------------------------------------------

  lemma {:induction false} DedupedAre(fs: seq<Finding>, f: Finding)
    ensures f in Deduped(fs) <==> f in fs
  {
    if fs != [] {
      var n := |fs| - 1;
      DedupedAre(fs[..n], f);
      assert f in fs <==> f in fs[..n] || f == fs[n];
    }
  }

  lemma {:induction false} ScanAllFinds(d: Detectors, texts: seq<string>, text: string, f: Finding)
    requires text in texts && f in d.secrets(text)
    ensures f in ScanAll(d, texts)
  {
    if text != texts[0] { ScanAllFinds(d, texts[1..], text, f); }
  }

  lemma {:induction false} RunsAtHas(parts: seq<string>, start: nat, from: nat, len: nat)
    requires from <= len <= MAX_RUN && start + len <= |parts|
    ensures Concat(parts[start..start + len]) in RunsAt(parts, start, from)
    decreases len - from
  {
    if from < len { RunsAtHas(parts, start, from + 1, len); }
  }

  lemma {:induction false} RunsFromHas(parts: seq<string>, from: nat, start: nat, len: nat)
    requires 2 <= len <= MAX_RUN && from <= start && start + len <= |parts|
    ensures Concat(parts[start..start + len]) in RunsFrom(parts, from)
    decreases start - from
  {
    if from < start { RunsFromHas(parts, from + 1, start, len); } else { RunsAtHas(parts, start, 2, len); }
  }

  lemma {:induction false} ItemCandidatesHas(items: seq<Value>, i: nat, depth: nat, text: string)
    requires i < |items| && text in Candidates(items[i], depth)
    ensures text in ItemCandidates(items, depth)
    decreases |items|
  {
    if i > 0 { ItemCandidatesHas(items[1..], i - 1, depth, text); }
  }

  lemma {:induction false} MemberCandidatesHas(members: seq<Entry<Value>>, i: nat, depth: nat, text: string)
    requires i < |members| && text in Candidates(members[i].val, depth)
    ensures text in MemberCandidates(members, depth)
    decreases |members|
  {
    if i > 0 { MemberCandidatesHas(members[1..], i - 1, depth, text); }
  }

  lemma ChildCandidatesHas(v: Value, i: nat, depth: nat, text: string)
    requires i < |Children(v)| && depth < MAX_DEPTH && text in Candidates(Children(v)[i], depth + 1)
    ensures text in Candidates(v, depth)
  {
    match v
    case Arr(items) => ItemCandidatesHas(items, i, depth + 1, text);
    case Obj(members) => MemberCandidatesHas(members, i, depth + 1, text);
  }

  /** A way down from `v`: which child to take at each level. */
  predicate IsPath(v: Value, path: seq<nat>)
    decreases |path|
  {
    path == [] || (path[0] < |Children(v)| && IsPath(Children(v)[path[0]], path[1..]))
  }

  function Below(v: Value, path: seq<nat>): Value
    requires IsPath(v, path)
    decreases |path|
  {
    if path == [] then v else Below(Children(v)[path[0]], path[1..])
  }

  lemma {:induction false} NestedCandidates(v: Value, path: seq<nat>, depth: nat, text: string)
    requires IsPath(v, path) && depth + |path| <= MAX_DEPTH && text in Candidates(Below(v, path), depth + |path|)
    ensures text in Candidates(v, depth)
    decreases |path|
  {
    if path != [] {
      assert depth + 1 + |path[1..]| == depth + |path|;
      NestedCandidates(Children(v)[path[0]], path[1..], depth + 1, text);
      ChildCandidatesHas(v, path[0], depth, text);
    }
  }

  /** `text` joins `len` neighbours from `start` on. */
  predicate IsRun(parts: seq<string>, start: nat, len: nat, text: string) {
    2 <= len <= MAX_RUN && start + len <= |parts| && text == Concat(parts[start..start + len])
  }

  /** Two to four neighbours joined, or all of more than four. */
  ghost predicate IsRejoined(parts: seq<string>, text: string) {
    (exists start: nat, len: nat :: IsRun(parts, start, len, text)) || (|parts| > MAX_RUN && text == Concat(parts))
  }

  lemma RejoinedIsOwn(v: Value, text: string, depth: nat)
    requires (v.Arr? || v.Obj?) && IsRejoined(StringsAmong(Children(v)), text) && depth <= MAX_DEPTH
    ensures text in Candidates(v, depth)
  {
    var parts := StringsAmong(Children(v));
    assert text in OwnCandidates(parts) by {
      if start: nat, len: nat :| IsRun(parts, start, len, text) { RunsFromHas(parts, 0, start, len); }
    }
  }

  lemma CandidateIsFound(d: Detectors, v: Value, text: string)
    requires text in Candidates(v, 0) && d.secrets(text) != []
    ensures SecretFindings(d, v) != []
  {
    var f := d.secrets(text)[0];
    ScanAllFinds(d, Candidates(v, 0), text, f);
    DedupedAre(d.secrets(JoinLines(Strings(v, 0))) + ScanAll(d, Candidates(v, 0)), f);
    assert f in SecretFindings(d, v);
  }

  /** The strings of a container up to eight levels deep, joined back together, are scanned: if a secret detector knows
      a joined text, every policy denies the body. */
  lemma SplitSecretIsDenied(
    d: Detectors, v: Value, path: seq<nat>, text: string, declared: Option<Classification>,
    state: RoomState, t: EventType, action: Option<string>, policy: ParticipantPolicy, contract: Contract)
    requires IsPath(v, path) && |path| <= MAX_DEPTH && (Below(v, path).Arr? || Below(v, path).Obj?)
    requires IsRejoined(StringsAmong(Children(Below(v, path))), text) && d.secrets(text) != []
    ensures Decide(InputFor(state, t, action, Scan(d, v, declared)), policy, contract) == Deny(SecretDisclosure)
  {
    RejoinedIsOwn(Below(v, path), text, |path|);
    NestedCandidates(v, path, 0, text);
    CandidateIsFound(d, v, text);
  }
}
