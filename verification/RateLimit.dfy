/** The in-memory request limiter of apps/api/src/app.ts. Times are milliseconds. */
module RateLimit {

  datatype Bucket = Bucket(tokens: int, refilledAt: int)

  type Buckets = map<string, Bucket>

  /** The limit of every key (60 for anonymous callers, 600 for users by default) and the window length. */
  datatype Config = Config(limitOf: string -> nat, windowMs: nat) {
    predicate Valid() { windowMs > 0 }
  }

  function Min(a: int, b: int): int { if a < b then a else b }

  // ---------------------------------------------------------------------------------------------
  // One decision
  // ---------------------------------------------------------------------------------------------

  /** The bucket of a key as the next request at `now` sees it. */
  function Refilled(m: Buckets, cfg: Config, key: string, now: int): Bucket
    requires cfg.Valid()
  {
    var limit := cfg.limitOf(key);
    if key !in m then Bucket(limit, now)
    else
      var b := m[key];
      var refill := (now - b.refilledAt) / cfg.windowMs * limit;
      if refill > 0 then Bucket(Min(limit, b.tokens + refill), now) else b
  }

  predicate Admits(m: Buckets, cfg: Config, key: string, now: int)
    requires cfg.Valid()
  {
    Refilled(m, cfg, key, now).tokens > 0
  }

  function AfterRequest(m: Buckets, cfg: Config, key: string, now: int): Buckets
    requires cfg.Valid()
  {
    var b := Refilled(m, cfg, key, now);
    m[key := if b.tokens > 0 then b.(tokens := b.tokens - 1) else b]
  }

  /** The pruner forgets every bucket not refilled for more than five windows. */
  function AfterPrune(m: Buckets, cfg: Config, now: int): Buckets {
    map k | k in m && m[k].refilledAt >= now - cfg.windowMs * 5 :: m[k]
  }

  class Limiter {
    var buckets: Buckets

    constructor ()
      ensures buckets == map[]
    {
      buckets := map[];
    }

    method RateLimit(key: string, cfg: Config, now: int) returns (admitted: bool)
      requires cfg.Valid()
      modifies this
      ensures admitted == Admits(old(buckets), cfg, key, now)
      ensures buckets == AfterRequest(old(buckets), cfg, key, now)
    {
      var limit := cfg.limitOf(key);
      var bucket := if key in buckets then buckets[key] else Bucket(limit, now);
      assert (now - now) / cfg.windowMs == 0;
      var refill := (now - bucket.refilledAt) / cfg.windowMs * limit;
      if refill > 0 {
        bucket := Bucket(Min(limit, bucket.tokens + refill), now);
      }
      if bucket.tokens <= 0 {
        buckets := buckets[key := bucket];
        return false;
      }
      bucket := bucket.(tokens := bucket.tokens - 1);
      buckets := buckets[key := bucket];
      return true;
    }

    method PruneBuckets(cfg: Config, now: int)
      modifies this
      ensures buckets == AfterPrune(old(buckets), cfg, now)
    {
      var cutoff := now - cfg.windowMs * 5;
      var todo := buckets.Keys;
      while todo != {}
        invariant todo <= old(buckets).Keys
        invariant buckets == map k | k in old(buckets) && (k in todo || old(buckets)[k].refilledAt >= cutoff) :: old(buckets)[k]
        decreases todo
      {
        var k :| k in todo;
        if buckets[k].refilledAt < cutoff {
          buckets := buckets - {k};
        }
        todo := todo - {k};
      }
    }
  }

  // ---------------------------------------------------------------------------------------------
  // Runs
  // ---------------------------------------------------------------------------------------------

  datatype Event = Request(key: string, now: int) | Prune(now: int)

  function Step(m: Buckets, cfg: Config, e: Event): Buckets
    requires cfg.Valid()
  {
    match e
    case Request(key, now) => AfterRequest(m, cfg, key, now)
    case Prune(now) => AfterPrune(m, cfg, now)
  }

  function Run(m: Buckets, cfg: Config, es: seq<Event>): Buckets
    requires cfg.Valid()
    decreases |es|
  {
    if es == [] then m else Run(Step(m, cfg, es[0]), cfg, es[1..])
  }

  /** The answers given to the requests of a run, in order. */
  function Decisions(m: Buckets, cfg: Config, es: seq<Event>): seq<bool>
    requires cfg.Valid()
    decreases |es|
  {
    if es == [] then []
    else
      (if es[0].Request? then [Admits(m, cfg, es[0].key, es[0].now)] else [])
      + Decisions(Step(m, cfg, es[0]), cfg, es[1..])
  }

  /** How many requests of one key a run admits. */
  function Admitted(m: Buckets, cfg: Config, es: seq<Event>, key: string): nat
    requires cfg.Valid()
    decreases |es|
  {
    if es == [] then 0
    else
      (if es[0].Request? && es[0].key == key && Admits(m, cfg, key, es[0].now) then 1 else 0)
      + Admitted(Step(m, cfg, es[0]), cfg, es[1..], key)
  }

  function WithoutPrunes(es: seq<Event>): seq<Event> {
    if es == [] then [] else (if es[0].Prune? then [] else [es[0]]) + WithoutPrunes(es[1..])
  }

  /** The clock never runs backwards, starting from `from` and ending by `until`. */
  predicate Timed(es: seq<Event>, from: int, until: int) {
    if es == [] then from <= until else from <= es[0].now && Timed(es[1..], es[0].now, until)
  }

  /** What every bucket keeps: never more than `limit - 1` tokens are left after a decision. */
  predicate WellFormed(m: Buckets, cfg: Config, now: int) {
    forall k :: k in m ==> 0 <= m[k].tokens && m[k].refilledAt <= now && m[k].tokens <= LeftAfter(cfg.limitOf(k))
  }

  function LeftAfter(limit: nat): nat { if limit == 0 then 0 else limit - 1 }

  lemma RefillWithin(b: Bucket, limit: nat, windowMs: nat, now: int)
    requires windowMs > 0 && b.refilledAt <= now
    ensures var refill := (now - b.refilledAt) / windowMs * limit;
      && (refill > 0 <==> limit > 0 && b.refilledAt + windowMs <= now)
      && (refill > 0 ==> refill >= limit)
  {
    var k := (now - b.refilledAt) / windowMs;
    if b.refilledAt + windowMs <= now {
      QuotientAtLeastOne(now - b.refilledAt, windowMs);
      assert k >= 1;
      if limit > 0 { assert k * limit >= limit by { MulGrows(k, limit); } }
    } else {
      QuotientBelowOne(now - b.refilledAt, windowMs);
    }
  }

  lemma QuotientAtLeastOne(x: nat, w: nat)
    requires w > 0 && x >= w
    ensures x / w >= 1
  {
  }

  lemma QuotientBelowOne(x: nat, w: nat)
    requires w > 0 && x < w
    ensures x / w == 0
  {
  }

  lemma MulGrows(k: nat, n: nat)
    requires k >= 1
    ensures k * n >= n
  {
  }

  lemma StepWellFormed(m: Buckets, cfg: Config, e: Event, now: int)
    requires cfg.Valid() && WellFormed(m, cfg, now) && now <= e.now
    ensures WellFormed(Step(m, cfg, e), cfg, e.now)
  {
    if e.Request? && e.key in m { RefillWithin(m[e.key], cfg.limitOf(e.key), cfg.windowMs, e.now); }
  }

  lemma {:induction false} RunWellFormed(m: Buckets, cfg: Config, es: seq<Event>, from: int, until: int)
    requires cfg.Valid() && WellFormed(m, cfg, from) && Timed(es, from, until)
    ensures WellFormed(Run(m, cfg, es), cfg, until)
    decreases |es|
  {
    if es != [] {
      StepWellFormed(m, cfg, es[0], from);
      RunWellFormed(Step(m, cfg, es[0]), cfg, es[1..], es[0].now, until);
    }
  }

  // ---------------------------------------------------------------------------------------------
  // The pruner is invisible
  // ---------------------------------------------------------------------------------------------

  /** `pruned` answers every later request as `full` does: a bucket it lacks is one whose next refill fills it up. */
  predicate Equivalent(pruned: Buckets, full: Buckets, cfg: Config, now: int) {
    && (forall k :: k in pruned ==> k in full && (pruned[k] == full[k] || cfg.limitOf(k) == 0))
    && (forall k :: k in full && k !in pruned ==> full[k].refilledAt + cfg.windowMs <= now || cfg.limitOf(k) == 0)
  }

  lemma EquivalentStep(pruned: Buckets, full: Buckets, cfg: Config, key: string, now: int, at: int)
    requires cfg.Valid() && now <= at
    requires WellFormed(pruned, cfg, now) && WellFormed(full, cfg, now) && Equivalent(pruned, full, cfg, now)
    ensures Admits(pruned, cfg, key, at) == Admits(full, cfg, key, at)
    ensures Equivalent(AfterRequest(pruned, cfg, key, at), AfterRequest(full, cfg, key, at), cfg, at)
  {
    if key in full { RefillWithin(full[key], cfg.limitOf(key), cfg.windowMs, at); }
    if key in pruned { RefillWithin(pruned[key], cfg.limitOf(key), cfg.windowMs, at); }
  }

  /** Pruning at any points of a run changes no decision. */
  lemma {:induction false} PruningChangesNoDecision(pruned: Buckets, full: Buckets, cfg: Config, es: seq<Event>, from: int, until: int)
    requires cfg.Valid() && Timed(es, from, until)
    requires WellFormed(pruned, cfg, from) && WellFormed(full, cfg, from) && Equivalent(pruned, full, cfg, from)
    ensures Decisions(pruned, cfg, es) == Decisions(full, cfg, WithoutPrunes(es))
    decreases |es|
  {
    if es != [] {
      var e := es[0];
      StepWellFormed(pruned, cfg, e, from);
      if e.Request? {
        StepWellFormed(full, cfg, e, from);
        EquivalentStep(pruned, full, cfg, e.key, from, e.now);
        PruningChangesNoDecision(Step(pruned, cfg, e), Step(full, cfg, e), cfg, es[1..], e.now, until);
        assert WithoutPrunes(es)[0] == e && WithoutPrunes(es)[1..] == WithoutPrunes(es[1..]);
      } else {
        PruningChangesNoDecision(Step(pruned, cfg, e), full, cfg, es[1..], e.now, until);
        assert WithoutPrunes(es) == WithoutPrunes(es[1..]);
      }
    }
  }

  // ---------------------------------------------------------------------------------------------
  // How much a span admits
  // ---------------------------------------------------------------------------------------------

  /** Refills that fit between `from` and `until` when the first cannot come before `earliest`. */
  function Refills(earliest: int, from: int, until: int, windowMs: nat): nat
    requires windowMs > 0
  {
    var first := if earliest < from then from else earliest;
    if until < first then 0 else (until - first) / windowMs + 1
  }

  /** An upper bound for what the rest of a span, `[from, until]`, can still admit for a key. */
  function Potential(m: Buckets, cfg: Config, key: string, from: int, until: int): int
    requires cfg.Valid()
  {
    var limit := cfg.limitOf(key);
    if key in m then m[key].tokens + limit * Refills(m[key].refilledAt + cfg.windowMs, from, until, cfg.windowMs)
    else limit * Refills(from, from, until, cfg.windowMs)
  }

  lemma DivUnique(x: nat, q: nat, r: nat, w: nat)
    requires r < w && x == q * w + r
    ensures x / w == q
  {
    var p := x / w;
    assert x == p * w + x % w;
    assert (p + 1) * w == p * w + w && (q + 1) * w == q * w + w;
    if p < q { MulMonotone(p + 1, q, w); }
    if q < p { MulMonotone(q + 1, p, w); }
  }

  lemma DivMonotone(x: nat, y: nat, w: nat)
    requires w > 0 && x <= y
    ensures x / w <= y / w
  {
    var a, b := x / w, y / w;
    assert x == a * w + x % w && y == b * w + y % w;
    assert (b + 1) * w == b * w + w;
    if b < a { MulMonotone(b + 1, a, w); }
  }

  lemma MulMonotone(a: nat, b: nat, n: nat)
    requires a <= b
    ensures a * n <= b * n && n * a <= n * b
  {
  }

  lemma DivStep(x: nat, w: nat)
    requires w > 0 && x >= w
    ensures (x - w) / w + 1 == x / w
  {
    QuotientAtLeastOne(x, w);
    var q := x / w;
    assert x == q * w + x % w;
    assert (q - 1) * w == q * w - w;
    DivUnique(x - w, q - 1, x % w, w);
  }

  lemma RefillsShrink(earliest: int, from: int, later: int, until: int, w: nat)
    requires w > 0 && from <= later
    ensures Refills(earliest, later, until, w) <= Refills(earliest, from, until, w)
  {
    var first := if earliest < from then from else earliest;
    var second := if earliest < later then later else earliest;
    if second <= until { DivMonotone(until - second, until - first, w); }
  }

  /** A refill at `at` uses up one of the refills counted from `from`. */
  lemma RefillsUseOne(earliest: int, from: int, at: int, until: int, w: nat)
    requires w > 0 && from <= at <= until && earliest <= at
    ensures Refills(at + w, at, until, w) + 1 <= Refills(earliest, from, until, w)
  {
    var first := if earliest < from then from else earliest;
    DivMonotone(until - at, until - first, w);
    if at + w <= until { DivStep(until - at, w); }
  }

  /** One step pays for what it admits out of the potential. */
  lemma PotentialPays(m: Buckets, cfg: Config, e: Event, key: string, from: int, until: int)
    requires cfg.Valid() && WellFormed(m, cfg, from) && from <= e.now <= until
    ensures var paid := if e.Request? && e.key == key && Admits(m, cfg, key, e.now) then 1 else 0;
      paid + Potential(Step(m, cfg, e), cfg, key, e.now, until) <= Potential(m, cfg, key, from, until)
  {
    var w, limit, at := cfg.windowMs, cfg.limitOf(key), e.now;
    var m' := Step(m, cfg, e);
    if key in m {
      var b := m[key];
      RefillWithin(b, limit, w, at);
      RefillsShrink(b.refilledAt + w, from, at, until, w);
      MulMonotone(Refills(b.refilledAt + w, at, until, w), Refills(b.refilledAt + w, from, until, w), limit);
      if b.refilledAt + w <= at {
        RefillsUseOne(b.refilledAt + w, from, at, until, w);
        MulMonotone(Refills(at + w, at, until, w) + 1, Refills(b.refilledAt + w, from, until, w), limit);
        RefillsNow(at, until, w);
        assert limit * (Refills(at + w, at, until, w) + 1) == limit * Refills(at + w, at, until, w) + limit;
      }
    } else {
      RefillsUseOne(from, from, at, until, w);
      RefillsNow(at, until, w);
      MulMonotone(Refills(at + w, at, until, w) + 1, Refills(from, from, until, w), limit);
      assert limit * (Refills(at + w, at, until, w) + 1) == limit * Refills(at + w, at, until, w) + limit;
    }
  }

  lemma RefillsNow(at: int, until: int, w: nat)
    requires w > 0 && at <= until
    ensures Refills(at, at, until, w) == Refills(at + w, at, until, w) + 1
  {
    if at + w <= until { DivStep(until - at, w); } else { QuotientBelowOne(until - at, w); }
  }

  lemma {:induction false} AdmittedWithinPotential(m: Buckets, cfg: Config, es: seq<Event>, key: string, from: int, until: int)
    requires cfg.Valid() && WellFormed(m, cfg, from) && Timed(es, from, until)
    ensures Admitted(m, cfg, es, key) <= Potential(m, cfg, key, from, until)
    decreases |es|
  {
    if es == [] {
      assert cfg.limitOf(key) * Refills(from, from, until, cfg.windowMs) >= 0;
      if key in m { assert cfg.limitOf(key) * Refills(m[key].refilledAt + cfg.windowMs, from, until, cfg.windowMs) >= 0; }
    } else {
      TimedWithin(es, from, until);
      PotentialPays(m, cfg, es[0], key, from, until);
      StepWellFormed(m, cfg, es[0], from);
      AdmittedWithinPotential(Step(m, cfg, es[0]), cfg, es[1..], key, es[0].now, until);
    }
  }

  lemma {:induction false} TimedWithin(es: seq<Event>, from: int, until: int)
    requires Timed(es, from, until)
    ensures from <= until && (es != [] ==> es[0].now <= until)
  {
    if es != [] { TimedWithin(es[1..], es[0].now, until); }
  }

  lemma PotentialBound(m: Buckets, cfg: Config, key: string, from: int, until: int)
    requires cfg.Valid() && WellFormed(m, cfg, from) && from <= until
    ensures var limit := cfg.limitOf(key);
      Potential(m, cfg, key, from, until) <= LeftAfter(limit) + limit * ((until - from) / cfg.windowMs + 1)
  {
    var limit, w := cfg.limitOf(key), cfg.windowMs;
    if key in m {
      var earliest := m[key].refilledAt + w;
      var first := if earliest < from then from else earliest;
      if first <= until { DivMonotone(until - first, until - from, w); }
      MulMonotone(Refills(earliest, from, until, w), (until - from) / w + 1, limit);
    }
  }

  /** Whatever happened before, requests and prunes that span `until - from` milliseconds admit at most
      limit * (floor(span / window) + 2) - 1 requests of a key; a span shorter than the window, 2 * limit - 1. */
  lemma SpanBound(cfg: Config, before: seq<Event>, span: seq<Event>, key: string, start: int, from: int, until: int)
    requires cfg.Valid() && Timed(before, start, from) && Timed(span, from, until)
    ensures from <= until
    ensures var limit, admitted := cfg.limitOf(key), Admitted(Run(map[], cfg, before), cfg, span, key);
      && (limit > 0 ==> admitted <= limit * ((until - from) / cfg.windowMs + 2) - 1)
      && (limit > 0 && until - from < cfg.windowMs ==> admitted <= 2 * limit - 1)
      && (limit == 0 ==> admitted == 0)
  {
    var limit, m := cfg.limitOf(key), Run(map[], cfg, before);
    RunWellFormed(map[], cfg, before, start, from);
    TimedWithin(span, from, until);
    AdmittedWithinPotential(m, cfg, span, key, from, until);
    PotentialBound(m, cfg, key, from, until);
    var windows := (until - from) / cfg.windowMs + 1;
    assert limit * (windows + 1) == limit * windows + limit;
    if until - from < cfg.windowMs {
      QuotientBelowOne(until - from, cfg.windowMs);
      assert limit * windows == limit;
    }
  }

  function Burst(key: string, at: int, n: nat): seq<Event> {
    if n == 0 then [] else [Request(key, at)] + Burst(key, at, n - 1)
  }

  lemma {:induction false} BurstAdmits(m: Buckets, cfg: Config, key: string, at: int, n: nat, tail: seq<Event>)
    requires cfg.Valid() && key in m && m[key].refilledAt <= at < m[key].refilledAt + cfg.windowMs && n <= m[key].tokens
    ensures Admitted(m, cfg, Burst(key, at, n) + tail, key)
      == n + Admitted(m[key := Bucket(m[key].tokens - n, m[key].refilledAt)], cfg, tail, key)
  {
    var b := m[key];
    if n == 0 {
      assert m[key := b] == m && Burst(key, at, 0) + tail == tail;
    } else {
      RefillWithin(b, cfg.limitOf(key), cfg.windowMs, at);
      var m' := m[key := Bucket(b.tokens - 1, b.refilledAt)];
      assert (Burst(key, at, n) + tail)[1..] == Burst(key, at, n - 1) + tail;
      assert Step(m, cfg, Request(key, at)) == m';
      BurstAdmits(m', cfg, key, at, n - 1, tail);
      assert m'[key := Bucket(b.tokens - n, b.refilledAt)] == m[key := Bucket(b.tokens - n, b.refilledAt)];
    }
  }

  /** The bound for short spans is met: two milliseconds around a refill admit 2 * limit - 1 requests. */
  lemma SpanBoundIsMet(cfg: Config, key: string)
    requires cfg.windowMs >= 2 && cfg.limitOf(key) > 0
    ensures var limit, w := cfg.limitOf(key), cfg.windowMs;
      var before, span := [Request(key, 0)], Burst(key, w - 1, limit - 1) + Burst(key, w, limit);
      Admitted(Run(map[], cfg, before), cfg, span, key) == 2 * limit - 1
  {
    var limit, w := cfg.limitOf(key), cfg.windowMs;
    var m := AfterRequest(map[], cfg, key, 0);
    assert Run(map[], cfg, [Request(key, 0)]) == m by {
      assert [Request(key, 0)][1..] == [];
    }
    assert m[key] == Bucket(limit - 1, 0);
    BurstAdmits(m, cfg, key, w - 1, limit - 1, Burst(key, w, limit));
    var empty := m[key := Bucket(0, 0)];
    RefillWithin(empty[key], limit, w, w);
    var full := AfterRequest(empty, cfg, key, w);
    assert full[key] == Bucket(limit - 1, w) && Admits(empty, cfg, key, w);
    assert Burst(key, w, limit)[1..] == Burst(key, w, limit - 1) + [];
    BurstAdmits(full, cfg, key, w, limit - 1, []);
  }

  // ---------------------------------------------------------------------------------------------
  // Nobody is refused without cause
  // ---------------------------------------------------------------------------------------------

  lemma {:induction false} RunThen(m: Buckets, cfg: Config, es: seq<Event>, e: Event)
    requires cfg.Valid()
    ensures Run(m, cfg, es + [e]) == Step(Run(m, cfg, es), cfg, e)
    decreases |es|
  {
    if es == [] {
      assert [] + [e] == [e] && [e][1..] == [];
      assert Run(m, cfg, [e]) == Run(Step(m, cfg, e), cfg, []);
    } else {
      assert (es + [e])[1..] == es[1..] + [e];
      RunThen(Step(m, cfg, es[0]), cfg, es[1..], e);
    }
  }

  function Admission(m: Buckets, cfg: Config, e: Event, key: string): nat
    requires cfg.Valid()
  {
    if e.Request? && e.key == key && Admits(m, cfg, key, e.now) then 1 else 0
  }

  lemma {:induction false} AdmittedThen(m: Buckets, cfg: Config, es: seq<Event>, e: Event, key: string)
    requires cfg.Valid()
    ensures Admitted(m, cfg, es + [e], key) == Admitted(m, cfg, es, key) + Admission(Run(m, cfg, es), cfg, e, key)
    decreases |es|
  {
    if es == [] {
      assert [] + [e] == [e] && [e][1..] == [];
      assert Admitted(Step(m, cfg, e), cfg, [], key) == 0;
    } else {
      assert (es + [e])[1..] == es[1..] + [e];
      AdmittedThen(Step(m, cfg, es[0]), cfg, es[1..], e, key);
    }
  }

  /** How many requests of the key the run admits from the i-th event on. */
  function AdmittedSince(cfg: Config, es: seq<Event>, i: nat, key: string): nat
    requires cfg.Valid() && i <= |es|
  {
    Admitted(Run(map[], cfg, es[..i]), cfg, es[i..], key)
  }

  /** The i-th event is the request of the key that filled its bucket up, and what it lacks now was admitted since. */
  predicate FilledAt(cfg: Config, es: seq<Event>, m: Buckets, key: string, i: nat)
    requires cfg.Valid()
  {
    && i < |es| && key in m && es[i] == Request(key, m[key].refilledAt)
    && AdmittedSince(cfg, es, i, key) + m[key].tokens == cfg.limitOf(key)
  }

  ghost predicate Explained(cfg: Config, es: seq<Event>, m: Buckets, key: string)
    requires cfg.Valid()
  {
    key in m ==> exists i: nat :: FilledAt(cfg, es, m, key, i)
  }

  lemma {:induction false} RunPrefix(m: Buckets, cfg: Config, es: seq<Event>, i: nat)
    requires cfg.Valid() && i <= |es|
    ensures Run(Run(m, cfg, es[..i]), cfg, es[i..]) == Run(m, cfg, es)
    decreases i
  {
    if i == 0 {
      assert es[..0] == [] && es[0..] == es;
    } else {
      assert es[..i][1..] == es[1..][..i - 1] && es[1..][i - 1..] == es[i..];
      RunPrefix(Step(m, cfg, es[0]), cfg, es[1..], i - 1);
    }
  }

  lemma SinceThen(cfg: Config, es: seq<Event>, e: Event, i: nat, key: string)
    requires cfg.Valid() && i <= |es|
    ensures AdmittedSince(cfg, es + [e], i, key) == AdmittedSince(cfg, es, i, key) + Admission(Run(map[], cfg, es), cfg, e, key)
  {
    assert (es + [e])[..i] == es[..i] && (es + [e])[i..] == es[i..] + [e];
    AdmittedThen(Run(map[], cfg, es[..i]), cfg, es[i..], e, key);
    RunPrefix(map[], cfg, es, i);
  }

  /** What a request does to its key's bucket. */
  lemma RequestIs(m: Buckets, cfg: Config, key: string, now: int, from: int)
    requires cfg.Valid() && cfg.limitOf(key) > 0 && WellFormed(m, cfg, from) && from <= now
    ensures var b := AfterRequest(m, cfg, key, now)[key];
      if key in m && now < m[key].refilledAt + cfg.windowMs then
        && b.refilledAt == m[key].refilledAt
        && b.tokens == (if m[key].tokens > 0 then m[key].tokens - 1 else 0) && (Admits(m, cfg, key, now) <==> m[key].tokens > 0)
      else b == Bucket(cfg.limitOf(key) - 1, now) && Admits(m, cfg, key, now)
  {
    if key in m { RefillWithin(m[key], cfg.limitOf(key), cfg.windowMs, now); }
  }

  lemma StepExplains(cfg: Config, es: seq<Event>, e: Event, key: string, from: int)
    requires cfg.Valid() && cfg.limitOf(key) > 0 && from <= e.now
    requires var m := Run(map[], cfg, es); WellFormed(m, cfg, from) && Explained(cfg, es, m, key)
    ensures Explained(cfg, es + [e], Step(Run(map[], cfg, es), cfg, e), key)
  {
    var m := Run(map[], cfg, es);
    var m' := Step(m, cfg, e);
    if e == Request(key, e.now) {
      RequestIs(m, cfg, key, e.now, from);
      if m'[key] == Bucket(cfg.limitOf(key) - 1, e.now) && (key !in m || m[key].refilledAt + cfg.windowMs <= e.now) {
        SinceThen(cfg, es, e, |es|, key);
        assert es[..|es|] == es && es[|es|..] == [];
        assert FilledAt(cfg, es + [e], m', key, |es|);
      } else {
        var i: nat :| FilledAt(cfg, es, m, key, i);
        SinceThen(cfg, es, e, i, key);
        assert FilledAt(cfg, es + [e], m', key, i);
      }
    } else if key in m' {
      var i: nat :| FilledAt(cfg, es, m, key, i);
      SinceThen(cfg, es, e, i, key);
      assert FilledAt(cfg, es + [e], m', key, i);
    }
  }

  lemma {:induction false} TimedPrefix(es: seq<Event>, from: int, until: int)
    requires es != [] && Timed(es, from, until)
    ensures var n := |es| - 1; Timed(es[..n], from, es[n].now) && es[n].now <= until
    decreases |es|
  {
    var n := |es| - 1;
    if n > 0 {
      TimedPrefix(es[1..], es[0].now, until);
      assert es[1..][..n - 1] == es[..n][1..];
    }
  }

  lemma {:induction false} RunExplains(cfg: Config, es: seq<Event>, key: string, start: int, until: int)
    requires cfg.Valid() && cfg.limitOf(key) > 0 && Timed(es, start, until)
    ensures Explained(cfg, es, Run(map[], cfg, es), key)
    decreases |es|
  {
    if es != [] {
      var n := |es| - 1;
      assert es == es[..n] + [es[n]];
      TimedPrefix(es, start, until);
      RunExplains(cfg, es[..n], key, start, es[n].now);
      RunWellFormed(map[], cfg, es[..n], start, es[n].now);
      RunThen(map[], cfg, es[..n], es[n]);
      StepExplains(cfg, es[..n], es[n], key, es[n].now);
    }
  }

  /** Over every run, prunes included: a request of a key with a positive limit is refused only if within less than one window
      before it a request of the key filled the bucket up, and since then exactly the limit has been admitted. */
  lemma RefusalMeansFull(cfg: Config, es: seq<Event>, key: string, start: int, now: int) returns (i: nat)
    requires cfg.Valid() && cfg.limitOf(key) > 0 && Timed(es, start, now)
    requires !Admits(Run(map[], cfg, es), cfg, key, now)
    ensures i < |es| && es[i].Request? && es[i].key == key && now < es[i].now + cfg.windowMs
    ensures AdmittedSince(cfg, es, i, key) == cfg.limitOf(key)
  {
    var m := Run(map[], cfg, es);
    RunExplains(cfg, es, key, start, now);
    RunWellFormed(map[], cfg, es, start, now);
    RequestIs(m, cfg, key, now, now);
    i :| FilledAt(cfg, es, m, key, i);
  }

  /** A prune forgets exactly what was filled up more than five windows ago, and changes nothing else. */
  lemma PruneForgetsIff(m: Buckets, cfg: Config, key: string, now: int)
    requires key in m
    ensures key in AfterPrune(m, cfg, now) <==> now - m[key].refilledAt <= 5 * cfg.windowMs
    ensures key in AfterPrune(m, cfg, now) ==> AfterPrune(m, cfg, now)[key] == m[key]
  {
  }
}
