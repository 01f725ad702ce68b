/** The hash-chained audit log of packages/audit/src/index.ts. The digest is a parameter throughout: any function
    into 64-character strings. */
module AuditChain {
  import opened Wrappers
  import opened Json
  import JsonRoundTrip

  function Zeros(n: nat): (s: string)
    ensures |s| == n && forall i :: 0 <= i < n ==> s[i] == '0'
  {
    if n == 0 then "" else "0" + Zeros(n - 1)
  }

  const GENESIS_HASH: string := Zeros(64)

  /** A hexadecimal SHA-256 digest has 64 characters. */
  type Digest = s: string | |s| == 64 witness Zeros(64)

  type Hash = string -> Digest

  /** The recorded fields, the sequence number, and the two links. */
  datatype AuditEvent = AuditEvent(fields: seq<Entry<Value>>, sequence: int, previousHash: string, eventHash: string)

  /** The event without its hashes, as it is put through `canonicalize`. */
  function Rest(fields: seq<Entry<Value>>, sequence: int): Value {
    Obj(fields + [Entry("sequence", Num(sequence))])
  }

  function HashedText(previousHash: string, fields: seq<Entry<Value>>, sequence: int): string {
    previousHash + Text(Rest(fields, sequence))
  }

  function ChainEvent(h: Hash, previousHash: string, fields: seq<Entry<Value>>, sequence: int): AuditEvent {
    AuditEvent(fields, sequence, previousHash, h(HashedText(previousHash, fields, sequence)))
  }

  function HeadHash(es: seq<AuditEvent>): string {
    if es == [] then GENESIS_HASH else es[|es| - 1].eventHash
  }

  /** The event names the hash before it and carries the digest of its own content. */
  predicate Fits(h: Hash, previousHash: string, e: AuditEvent) {
    e.previousHash == previousHash && e.eventHash == h(HashedText(previousHash, e.fields, e.sequence))
  }

  predicate LinkedAt(h: Hash, es: seq<AuditEvent>, i: nat)
    requires i < |es|
  {
    Fits(h, HeadHash(es[..i]), es[i])
  }

  ghost predicate Linked(h: Hash, es: seq<AuditEvent>) {
    forall i :: 0 <= i < |es| ==> LinkedAt(h, es, i)
  }

  lemma LinkedPrefix(h: Hash, es: seq<AuditEvent>, n: nat)
    requires Linked(h, es) && n <= |es|
    ensures Linked(h, es[..n])
  {
    forall i | 0 <= i < n ensures LinkedAt(h, es[..n], i) {
      assert LinkedAt(h, es, i) && es[..n][..i] == es[..i];
    }
  }

  lemma LinkedExtend(h: Hash, es: seq<AuditEvent>, n: nat)
    requires n < |es| && Linked(h, es[..n])
    ensures LinkedAt(h, es, n) <==> Linked(h, es[..n + 1])
  {
    var longer := es[..n + 1];
    assert longer[..n] == es[..n] && longer[n] == es[n];
    if LinkedAt(h, es, n) {
      forall i | 0 <= i < |longer| ensures LinkedAt(h, longer, i) {
        if i < n { assert LinkedAt(h, es[..n], i) && es[..n][..i] == longer[..i]; }
      }
    } else {
      assert !LinkedAt(h, longer, n);
    }
  }

  /** The first event that does not fit. */
  ghost predicate BrokenAt(h: Hash, es: seq<AuditEvent>, i: nat)
    requires i < |es|
  {
    Linked(h, es[..i]) && !Linked(h, es[..i + 1])
  }

  datatype ChainVerification = ChainVerification(valid: bool, brokenAtSequence: Option<int>)

  /** Accepts exactly the linked lists, and otherwise names the first event that does not fit. */
  method VerifyChain(h: Hash, events: seq<AuditEvent>) returns (r: ChainVerification)
    ensures r.valid <==> Linked(h, events)
    ensures r.valid <==> r.brokenAtSequence == None
    ensures !r.valid ==>
      exists i :: 0 <= i < |events| && BrokenAt(h, events, i) && r.brokenAtSequence == Some(events[i].sequence)
  {
    var prev := GENESIS_HASH;
    for i := 0 to |events|
      invariant prev == HeadHash(events[..i])
      invariant Linked(h, events[..i])
    {
      var e := events[i];
      LinkedExtend(h, events, i);
      if e.previousHash != prev {
        assert BrokenAt(h, events, i);
        NotLinked(h, events, i);
        return ChainVerification(false, Some(e.sequence));
      }
      var expected := h(HashedText(prev, e.fields, e.sequence));
      if expected != e.eventHash {
        assert BrokenAt(h, events, i);
        NotLinked(h, events, i);
        return ChainVerification(false, Some(e.sequence));
      }
      prev := e.eventHash;
    }
    assert events[..|events|] == events;
    return ChainVerification(true, None);
  }

  lemma NotLinked(h: Hash, es: seq<AuditEvent>, i: nat)
    requires i < |es| && BrokenAt(h, es, i)
    ensures !Linked(h, es)
  {
    if Linked(h, es) { LinkedPrefix(h, es, i + 1); }
  }

  // ---------------------------------------------------------------------------------------------
  // Tamper evidence
  // ---------------------------------------------------------------------------------------------

  /** What comparing two histories with the same head gives: nothing, or a broken digest. */
  datatype Finding = Same | Collision(x: string, y: string) | Preimage(x: string)

  function LastText(es: seq<AuditEvent>): string
    requires es != []
  {
    var e := es[|es| - 1];
    HashedText(e.previousHash, e.fields, e.sequence)
  }

  /** Walks both lists back from their ends. */
  function Compare(a: seq<AuditEvent>, b: seq<AuditEvent>): Finding {
    if a == [] && b == [] then Same
    else if a == [] then Preimage(LastText(b))
    else if b == [] then Preimage(LastText(a))
    else if LastText(a) != LastText(b) then Collision(LastText(a), LastText(b))
    else Compare(a[..|a| - 1], b[..|b| - 1])
  }

  /** The same event up to canonical equality of its content. */
  predicate SameEvent(a: AuditEvent, b: AuditEvent) {
    && a.previousHash == b.previousHash && a.eventHash == b.eventHash
    && Normal(Rest(a.fields, a.sequence)) == Normal(Rest(b.fields, b.sequence))
  }

  ghost predicate SameHistory(a: seq<AuditEvent>, b: seq<AuditEvent>) {
    |a| == |b| && forall i :: 0 <= i < |a| ==> SameEvent(a[i], b[i])
  }

  /** The fixed-length prefix keeps the link and the content of a hashed text apart. */
  lemma SplitText(a: AuditEvent, b: AuditEvent)
    requires |a.previousHash| == |b.previousHash|
    requires HashedText(a.previousHash, a.fields, a.sequence) == HashedText(b.previousHash, b.fields, b.sequence)
    ensures a.previousHash == b.previousHash
    ensures Normal(Rest(a.fields, a.sequence)) == Normal(Rest(b.fields, b.sequence))
  {
    var x, y := HashedText(a.previousHash, a.fields, a.sequence), HashedText(b.previousHash, b.fields, b.sequence);
    var n := |a.previousHash|;
    assert x[..n] == a.previousHash && y[..n] == b.previousHash;
    assert x[n..] == Text(Rest(a.fields, a.sequence)) && y[n..] == Text(Rest(b.fields, b.sequence));
    JsonRoundTrip.SameTextIffSameNormal(Rest(a.fields, a.sequence), Rest(b.fields, b.sequence));
  }

  lemma LastLink(h: Hash, es: seq<AuditEvent>)
    requires Linked(h, es) && es != []
    ensures Linked(h, es[..|es| - 1])
    ensures HeadHash(es) == es[|es| - 1].eventHash == h(LastText(es))
    ensures es[|es| - 1].previousHash == HeadHash(es[..|es| - 1]) && |HeadHash(es[..|es| - 1])| == 64
  {
    assert LinkedAt(h, es, |es| - 1);
    LinkedPrefix(h, es, |es| - 1);
    if |es| > 1 { assert LinkedAt(h, es, |es| - 2); }
  }

  lemma SameHistoryExtends(a: seq<AuditEvent>, b: seq<AuditEvent>)
    requires a != [] && b != [] && SameHistory(a[..|a| - 1], b[..|b| - 1]) && SameEvent(a[|a| - 1], b[|b| - 1])
    ensures SameHistory(a, b)
  {
    forall i | 0 <= i < |a| ensures SameEvent(a[i], b[i]) {
      if i < |a| - 1 { assert SameEvent(a[..|a| - 1][i], b[..|b| - 1][i]); }
    }
  }

  /** What the comparison found really is what it claims to be. */
  ghost predicate Holds(h: Hash, a: seq<AuditEvent>, b: seq<AuditEvent>, f: Finding) {
    match f
    case Same => SameHistory(a, b)
    case Collision(x, y) => x != y && h(x) == h(y)
    case Preimage(x) => h(x) == GENESIS_HASH
  }

  /** Two accepted lists that end in the same hash are the same history, or the comparison exhibits two different
      texts with one digest, or a text whose digest is the genesis hash. */
  lemma {:induction false} TamperEvidence(h: Hash, a: seq<AuditEvent>, b: seq<AuditEvent>)
    requires Linked(h, a) && Linked(h, b) && HeadHash(a) == HeadHash(b)
    ensures Holds(h, a, b, Compare(a, b))
  {
    if a != [] { LastLink(h, a); }
    if b != [] { LastLink(h, b); }
    if a != [] && b != [] && LastText(a) == LastText(b) {
      SplitText(a[|a| - 1], b[|b| - 1]);
      TamperEvidence(h, a[..|a| - 1], b[..|b| - 1]);
      if Compare(a, b) == Same { SameHistoryExtends(a, b); }
    }
  }

  // ---------------------------------------------------------------------------------------------
  // Appending
  // ---------------------------------------------------------------------------------------------

  /** Linked, and numbered 1, 2, 3, ... */
  ghost predicate Intact(h: Hash, es: seq<AuditEvent>) {
    Linked(h, es) && forall i :: 0 <= i < |es| ==> es[i].sequence == i + 1
  }

  /** What stands in the i-th event of an intact log: its number, the hash before it (64 zeros for the first), and the digest
      of that hash followed by the canonical text of its fields and number. */
  predicate IsEntry(h: Hash, es: seq<AuditEvent>, i: nat)
    requires i < |es|
  {
    && es[i].sequence == i + 1
    && (if i == 0 then |es[0].previousHash| == 64 && forall k :: 0 <= k < 64 ==> es[0].previousHash[k] == '0'
        else es[i].previousHash == es[i - 1].eventHash)
    && es[i].eventHash == h(es[i].previousHash + Text(Obj(es[i].fields + [Entry("sequence", Num(i + 1))])))
  }

  lemma ZerosAre(s: string)
    requires |s| == 64
    ensures (forall k :: 0 <= k < 64 ==> s[k] == '0') <==> s == GENESIS_HASH
  {
    if forall k :: 0 <= k < 64 ==> s[k] == '0' { assert forall k :: 0 <= k < 64 ==> s[k] == Zeros(64)[k]; }
  }

  lemma EntryIff(h: Hash, es: seq<AuditEvent>, i: nat)
    requires i < |es|
    ensures IsEntry(h, es, i) <==> LinkedAt(h, es, i) && es[i].sequence == i + 1
  {
    if i == 0 {
      assert es[..0] == [];
      if |es[0].previousHash| == 64 { ZerosAre(es[0].previousHash); }
    } else {
      assert es[..i][i - 1] == es[i - 1];
    }
  }

  /** A log is intact exactly if every event is such an entry. */
  lemma IntactIff(h: Hash, es: seq<AuditEvent>)
    ensures Intact(h, es) <==> forall i :: 0 <= i < |es| ==> IsEntry(h, es, i)
  {
    forall i | 0 <= i < |es| ensures IsEntry(h, es, i) <==> LinkedAt(h, es, i) && es[i].sequence == i + 1 { EntryIff(h, es, i); }
    if forall i :: 0 <= i < |es| ==> IsEntry(h, es, i) {
      assert forall i :: 0 <= i < |es| ==> LinkedAt(h, es, i) && es[i].sequence == i + 1;
    }
  }

  function LastSequence(es: seq<AuditEvent>): int {
    if es == [] then 0 else es[|es| - 1].sequence
  }

  /** The event an append adds after a head. */
  function NextEvent(h: Hash, es: seq<AuditEvent>, fields: seq<Entry<Value>>): AuditEvent {
    ChainEvent(h, HeadHash(es), fields, LastSequence(es) + 1)
  }

  lemma AppendKeepsIntact(h: Hash, es: seq<AuditEvent>, fields: seq<Entry<Value>>)
    requires Intact(h, es)
    ensures Intact(h, es + [NextEvent(h, es, fields)])
  {
    var es' := es + [NextEvent(h, es, fields)];
    forall i | 0 <= i < |es'| ensures LinkedAt(h, es', i) {
      if i < |es| {
        assert LinkedAt(h, es, i) && es'[..i] == es[..i];
      } else {
        assert es'[..i] == es;
      }
    }
  }

  /** The in-memory log of packages/database/src/memory.ts. */
  class AuditLog {
    var events: seq<AuditEvent>

    constructor ()
      ensures events == []
    {
      events := [];
    }

    method AppendAuditEvent(h: Hash, fields: seq<Entry<Value>>) returns (e: AuditEvent)
      modifies this
      ensures e == NextEvent(h, old(events), fields) && events == old(events) + [e]
      ensures Intact(h, old(events)) ==> Intact(h, events)
    {
      var sequence := (if |events| > 0 then events[|events| - 1].sequence else 0) + 1;
      var prev := if |events| > 0 then events[|events| - 1].eventHash else GENESIS_HASH;
      if Intact(h, events) { AppendKeepsIntact(h, events, fields); }
      e := ChainEvent(h, prev, fields, sequence);
      events := events + [e];
    }
  }
}
