/** How far apart the sends of a notification really are. The backoff counts from the start of a tick, and a send may be
    made later in it, so the time between two sends can be shorter than the backoff. */
module OutboxTiming {
  import opened Outbox

  /** The full backoff between the first send and the k-th repetition, between the sends themselves. */
  predicate FullGap(s: seq<Send>, k: nat)
    requires k < |s|
  {
    s[k].at >= s[0].at + MINUTE * (Pow2(k) - 1)
  }

  /** Every run keeps the full gap up to the k-th repetition for rows whose first send is made `delay` after the start of
      its tick. */
  ghost predicate KeepsFullGap(cfg: Config, k: nat, delay: int) {
    forall es, id :: IsRun(EMPTY, cfg, es) && id in Run(EMPTY, cfg, es).rows
                     && k < |Run(EMPTY, cfg, es).SendsOf(id)| && FirstDelay(Run(EMPTY, cfg, es).SendsOf(id)) == delay
                     ==> FullGap(Run(EMPTY, cfg, es).SendsOf(id), k)
  }

  lemma PromptKeepsFullGap(cfg: Config, k: nat)
    ensures KeepsFullGap(cfg, k, 0)
  {
    forall es, id | IsRun(EMPTY, cfg, es) && id in Run(EMPTY, cfg, es).rows
                    && k < |Run(EMPTY, cfg, es).SendsOf(id)| && FirstDelay(Run(EMPTY, cfg, es).SendsOf(id)) == 0
      ensures FullGap(Run(EMPTY, cfg, es).SendsOf(id), k)
    {
      OutboxGuarantee(cfg, es, id);
    }
  }

  // ---------------------------------------------------------------------------------------------
  // A row that is retried as soon as possible
  // ---------------------------------------------------------------------------------------------

  lemma {:induction false} RunThen(w: World, cfg: Config, es: seq<Event>, e: Event)
    requires IsRun(w, cfg, es) && Allowed(Run(w, cfg, es), cfg, e)
    ensures IsRun(w, cfg, es + [e]) && Run(w, cfg, es + [e]) == Step(Run(w, cfg, es), cfg, e)
    decreases |es|
  {
    var all := es + [e];
    if es == [] {
      assert all == [e] && [e][1..] == [];
      assert IsRun(Step(w, cfg, e), cfg, []) && Run(w, cfg, [e]) == Run(Step(w, cfg, e), cfg, []);
    } else {
      assert all[0] == es[0] && all[1..] == es[1..] + [e];
      RunThen(Step(w, cfg, es[0]), cfg, es[1..], e);
    }
  }

  function Failing(at: int): Outside { Outside(_ => false, _ => true, _ => at) }

  /** A tick that sends only row 0. */
  function TickAt(now: int, at: int): Event { Tick(now, [0], Failing(at)) }

  /** When the tick of the k-th repetition starts, if the first send is `delay` late and each retry is made at once. */
  function RetryAt(delay: nat, k: nat): (t: nat)
    ensures k > 0 ==> t >= delay
  {
    if k == 0 then 0
    else if k == 1 then if delay > MINUTE then delay else MINUTE
    else RetryAt(delay, k - 1) + Backoff(k)
  }

  function Retries(delay: nat, k: nat): seq<Event> {
    if k == 0 then [Enqueue(0, "mail", "key", 0), TickAt(0, delay)]
    else Retries(delay, k - 1) + [TickAt(RetryAt(delay, k), RetryAt(delay, k))]
  }

  /** Only row 0, pending and due at `due` after `attempts` failed attempts. */
  predicate OnlyWaiting(w: World, attempts: nat, due: int) {
    w.rows == map[0 := Row("mail", "key", Pending, attempts, due)] && w.dedupe == {"key"}
  }

  /** One failing tick of a world with only that row. */
  lemma TickFails(w: World, cfg: Config, attempts: nat, due: int, now: int, at: int)
    requires OnlyWaiting(w, attempts, due) && due <= now <= at && w.clock <= now && cfg.batchSize > 0
    ensures Allowed(w, cfg, TickAt(now, at))
    ensures var w' := Step(w, cfg, TickAt(now, at));
      && w'.SendsOf(0) == w.SendsOf(0) + [Send(now, at, false)] && w'.clock == at && 0 in w'.rows
      && (attempts + 1 < cfg.maxAttempts ==> OnlyWaiting(w', attempts + 1, now + Backoff(attempts + 1)))
  {
    assert IsDue(w.rows, 0, now);
    var claimed := w.(rows := Claimed(w.rows, [0]));
    assert claimed.rows == map[0 := Row("mail", "key", Pending, attempts + 1, due)];
    assert !Suppressed(claimed.rows[0], Failing(at));
    assert [0][1..] == [];
    var settled := Settle(claimed, 0, cfg, now, Failing(at));
    assert Dispatch(claimed, [0], cfg, now, Failing(at)) == Dispatch(settled, [], cfg, now, Failing(at));
  }

  /** The run so far is allowed; its sends end with the k-th repetition, and the next tick may come after the backoff. */
  ghost predicate Retried(cfg: Config, delay: nat, k: nat) {
    && IsRun(EMPTY, cfg, Retries(delay, k))
    && var w := Run(EMPTY, cfg, Retries(delay, k));
       && 0 in w.rows && |w.SendsOf(0)| == k + 1 && w.SendsOf(0)[0] == Send(0, delay, false)
       && w.SendsOf(0)[k].at == w.clock == (if k == 0 then delay else RetryAt(delay, k))
       && (k + 1 < cfg.maxAttempts ==> OnlyWaiting(w, k + 1, RetryAt(delay, k) + Backoff(k + 1)))
  }

  lemma FirstTry(cfg: Config, delay: nat)
    requires cfg.batchSize > 0
    ensures Retried(cfg, delay, 0)
  {
    var first := Enqueue(0, "mail", "key", 0);
    var w := Step(EMPTY, cfg, first);
    assert OnlyWaiting(w, 0, 0) && w.SendsOf(0) == [];
    TickFails(w, cfg, 0, 0, 0, delay);
    assert Retries(delay, 0)[1..] == [TickAt(0, delay)] && [TickAt(0, delay)][1..] == [];
    var end := Step(w, cfg, TickAt(0, delay));
    assert Run(EMPTY, cfg, Retries(delay, 0)) == Run(w, cfg, [TickAt(0, delay)]) == Run(end, cfg, []) == end;
    assert IsRun(end, cfg, []) && IsRun(w, cfg, [TickAt(0, delay)]);
  }

  lemma NextTry(cfg: Config, delay: nat, k: nat)
    requires cfg.batchSize > 0 && 0 < k < cfg.maxAttempts && Retried(cfg, delay, k - 1)
    ensures Retried(cfg, delay, k)
  {
    var w, t := Run(EMPTY, cfg, Retries(delay, k - 1)), RetryAt(delay, k);
    TickFails(w, cfg, k, RetryAt(delay, k - 1) + Backoff(k), t, t);
    RunThen(EMPTY, cfg, Retries(delay, k - 1), TickAt(t, t));
  }

  lemma {:induction false} RetriesRun(cfg: Config, delay: nat, k: nat)
    requires cfg.batchSize > 0 && k < cfg.maxAttempts
    ensures Retried(cfg, delay, k)
  {
    if k == 0 {
      FirstTry(cfg, delay);
    } else {
      RetriesRun(cfg, delay, k - 1);
      NextTry(cfg, delay, k);
    }
  }

  lemma {:induction false} RetriesCome(delay: nat, k: nat)
    requires delay > 0 && k > 0
    ensures RetryAt(delay, k) < delay + MINUTE * (Pow2(k) - 1)
  {
    if k > 1 { RetriesCome(delay, k - 1); }
  }

  // ---------------------------------------------------------------------------------------------
  // Main results
  // ---------------------------------------------------------------------------------------------

  /** The full backoff between sends is kept by every run exactly if the first send is made at the very start of its tick:
      for every later moment there is a run that falls short, already at any given repetition. */
  lemma FullGapIff(cfg: Config, k: nat, delay: nat)
    requires cfg.batchSize > 0 && 0 < k < cfg.maxAttempts
    ensures KeepsFullGap(cfg, k, delay) <==> delay == 0
  {
    PromptKeepsFullGap(cfg, k);
    if delay > 0 {
      RetriesRun(cfg, delay, k);
      RetriesCome(delay, k);
      assert !FullGap(Run(EMPTY, cfg, Retries(delay, k)).SendsOf(0), k);
    }
  }

  // ---------------------------------------------------------------------------------------------
  // Two notifications in one batch
  // ---------------------------------------------------------------------------------------------

  const SLOW: Outside := Outside(_ => false, _ => true, (id: Id) => if id == 0 then 0 else 59_000)

  const QUEUED: seq<Event> := [Enqueue(0, "mail", "a", 0), Enqueue(1, "mail", "b", 0)]

  /** Two notifications, a batch whose first send takes 59 seconds, and a batch one minute after the start of the first. */
  const SLOW_BATCH: seq<Event> := QUEUED + [Tick(0, [0, 1], SLOW)] + [Tick(MINUTE, [1, 0], Failing(MINUTE))]

  /** Both rows with these attempts, due at this time. */
  function Both(attempts: nat, due: int): Rows {
    map[0 := Row("mail", "a", Pending, attempts, due), 1 := Row("mail", "b", Pending, attempts, due)]
  }

  lemma BothQueued(cfg: Config)
    ensures IsRun(EMPTY, cfg, QUEUED)
    ensures Run(EMPTY, cfg, QUEUED) == World(Both(0, 0), {"a", "b"}, map[], 0)
  {
    var w1 := Step(EMPTY, cfg, QUEUED[0]);
    var w2 := Step(w1, cfg, QUEUED[1]);
    assert w1 == World(map[0 := Row("mail", "a", Pending, 0, 0)], {"a"}, map[], 0);
    assert w2 == World(Both(0, 0), {"a", "b"}, map[], 0);
    assert QUEUED[1..] == [QUEUED[1]] && [QUEUED[1]][1..] == [];
    assert IsRun(w2, cfg, []) && IsRun(w1, cfg, [QUEUED[1]]);
    assert Run(w1, cfg, [QUEUED[1]]) == Run(w2, cfg, []) == w2;
  }

  lemma BothAreDue(attempts: nat, due: int, now: int, a: Id, b: Id)
    requires due <= now && ((a == 0 && b == 1) || (a == 1 && b == 0))
    ensures var rows := Both(attempts, due);
      && IsDue(rows, a, now) && IsDue(rows, b, now) && rows[a].scheduledFor == rows[b].scheduledFor == due
      && forall id :: id in rows ==> id == a || id == b
  {
  }

  lemma BothAreABatch(attempts: nat, due: int, now: int, a: Id, b: Id, limit: nat)
    requires due <= now && limit >= 2 && ((a == 0 && b == 1) || (a == 1 && b == 0))
    ensures IsBatch(Both(attempts, due), [a, b], limit, now)
  {
    var rows, batch := Both(attempts, due), [a, b];
    BothAreDue(attempts, due, now, a, b);
    assert batch[0] == a && batch[1] == b;
    assert forall id :: id in rows ==> id in batch;
  }

  lemma BothAreClaimed(attempts: nat, due: int, a: Id, b: Id)
    requires (a == 0 && b == 1) || (a == 1 && b == 0)
    ensures Claimed(Both(attempts, due), [a, b]) == Both(attempts + 1, due)
  {
    var batch := [a, b];
    assert batch[0] == a && batch[1] == b && 0 in batch && 1 in batch;
  }

  lemma TwoSettled(w: World, cfg: Config, a: Id, b: Id, now: int, outside: Outside)
    ensures Dispatch(w, [a, b], cfg, now, outside) == Settle(Settle(w, a, cfg, now, outside), b, cfg, now, outside)
  {
    var one := Settle(w, a, cfg, now, outside);
    var two := Settle(one, b, cfg, now, outside);
    assert [a, b][1..] == [b] && [b][1..] == [];
    assert Dispatch(one, [b], cfg, now, outside) == Dispatch(two, [], cfg, now, outside);
  }

  lemma SlowTick(w: World, cfg: Config)
    requires w == World(Both(0, 0), {"a", "b"}, map[], 0) && cfg.batchSize >= 2 && cfg.maxAttempts >= 2
    ensures Allowed(w, cfg, Tick(0, [0, 1], SLOW))
    ensures var w' := Step(w, cfg, Tick(0, [0, 1], SLOW));
      w'.rows == Both(1, MINUTE) && w'.SendsOf(1) == [Send(0, 59_000, false)] && w'.clock == 59_000
  {
    BothAreABatch(0, 0, 0, 0, 1, cfg.batchSize);
    BothAreClaimed(0, 0, 0, 1);
    var claimed := w.(rows := Both(1, 0));
    TwoSettled(claimed, cfg, 0, 1, 0, SLOW);
    var one := Settle(claimed, 0, cfg, 0, SLOW);
    assert one.rows == Both(1, 0)[0 := Row("mail", "a", Pending, 1, MINUTE)] && one.SendsOf(1) == [];
    assert Settle(one, 1, cfg, 0, SLOW).rows == Both(1, MINUTE);
  }

  lemma SecondTick(w: World, cfg: Config)
    requires w.rows == Both(1, MINUTE) && w.SendsOf(1) == [Send(0, 59_000, false)] && w.clock == 59_000 && cfg.batchSize >= 2
    ensures Allowed(w, cfg, Tick(MINUTE, [1, 0], Failing(MINUTE)))
    ensures Step(w, cfg, Tick(MINUTE, [1, 0], Failing(MINUTE))).SendsOf(1) == [Send(0, 59_000, false), Send(60_000, 60_000, false)]
  {
    BothAreABatch(1, MINUTE, MINUTE, 1, 0, cfg.batchSize);
    BothAreClaimed(1, MINUTE, 1, 0);
    TwoSettled(w.(rows := Both(2, MINUTE)), cfg, 1, 0, MINUTE, Failing(MINUTE));
  }

  /** The second notification is sent after 59 seconds, fails, and is sent again one second later. */
  lemma OneSecondApart(cfg: Config)
    requires cfg.batchSize >= 2 && cfg.maxAttempts >= 2
    ensures IsRun(EMPTY, cfg, SLOW_BATCH)
    ensures Run(EMPTY, cfg, SLOW_BATCH).SendsOf(1) == [Send(0, 59_000, false), Send(60_000, 60_000, false)]
  {
    BothQueued(cfg);
    var slow := Tick(0, [0, 1], SLOW);
    SlowTick(Run(EMPTY, cfg, QUEUED), cfg);
    RunThen(EMPTY, cfg, QUEUED, slow);
    SecondTick(Run(EMPTY, cfg, QUEUED + [slow]), cfg);
    RunThen(EMPTY, cfg, QUEUED + [slow], Tick(MINUTE, [1, 0], Failing(MINUTE)));
  }
}
