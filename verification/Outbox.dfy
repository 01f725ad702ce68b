/** The notification outbox: the table of packages/database/src/memory.ts and the dispatcher of
    packages/core/src/notifications.ts. Times are milliseconds. */
module Outbox {
  import opened Sequences
  import opened Wrappers

  type Id = nat

  datatype Status = Pending | Sent | Failed

  datatype Row = Row(kind: string, dedupeKey: string, status: Status, attempts: nat, scheduledFor: int)

  type Rows = map<Id, Row>

  const MINUTE := 60_000

  function Pow2(n: nat): (p: nat)
    ensures p >= 1
  {
    if n == 0 then 1 else 2 * Pow2(n - 1)
  }

  /** 1m, 2m, 4m, 8m ... after the first, second, third, fourth failed attempt. */
  function Backoff(attempts: nat): int { MINUTE * Pow2(if attempts == 0 then 0 else attempts - 1) }

  // ---------------------------------------------------------------------------------------------
  // The table
  // ---------------------------------------------------------------------------------------------

  predicate IsDue(rows: Rows, id: Id, now: int) {
    id in rows && rows[id].status == Pending && rows[id].scheduledFor <= now
  }

  /** `due` is a batch of at most `limit` due rows, earliest first, and leaves out no earlier one. */
  ghost predicate IsBatch(rows: Rows, due: seq<Id>, limit: nat, now: int) {
    && |due| <= limit
    && (forall i :: 0 <= i < |due| ==> IsDue(rows, due[i], now))
    && (forall i, j :: 0 <= i < j < |due| ==> due[i] != due[j] && rows[due[i]].scheduledFor <= rows[due[j]].scheduledFor)
    && (forall id :: id in rows && IsDue(rows, id, now) && id !in due ==>
          |due| == limit && forall i :: 0 <= i < |due| ==> rows[due[i]].scheduledFor <= rows[id].scheduledFor)
  }

  /** Claiming bumps the attempts of the batch. */
  function Claimed(rows: Rows, due: seq<Id>): Rows {
    map id | id in rows :: if id in due then rows[id].(attempts := rows[id].attempts + 1) else rows[id]
  }

  function MarkedSent(rows: Rows, id: Id): Rows {
    if id in rows then rows[id := rows[id].(status := Sent)] else rows
  }

  function MarkedFailed(rows: Rows, id: Id, retryAt: Option<int>): Rows {
    if id !in rows then rows
    else match retryAt
      case Some(at) => rows[id := rows[id].(status := Pending, scheduledFor := at)]
      case None => rows[id := rows[id].(status := Failed)]
  }

  class Table {
    var rows: Rows
    var dedupe: set<string>

    constructor ()
      ensures rows == map[] && dedupe == {}
    {
      rows, dedupe := map[], {};
    }

    method Enqueue(id: Id, row: Row) returns (added: bool)
      modifies this
      ensures added == (row.dedupeKey !in old(dedupe))
      ensures dedupe == old(dedupe) + {row.dedupeKey}
      ensures rows == if added then old(rows)[id := row] else old(rows)
    {
      if row.dedupeKey in dedupe { return false; }
      dedupe := dedupe + {row.dedupeKey};
      rows := rows[id := row];
      return true;
    }

    method Earliest(candidates: set<Id>) returns (first: Id)
      requires candidates != {} && candidates <= rows.Keys
      ensures first in candidates
      ensures forall id :: id in candidates ==> rows[first].scheduledFor <= rows[id].scheduledFor
    {
      first :| first in candidates;
      var rest := candidates - {first};
      while rest != {}
        invariant rest <= candidates && first in candidates
        invariant forall id :: id in candidates - rest ==> rows[first].scheduledFor <= rows[id].scheduledFor
        decreases rest
      {
        var id :| id in rest;
        if rows[id].scheduledFor < rows[first].scheduledFor { first := id; }
        rest := rest - {id};
      }
    }

    method ClaimPending(limit: nat, now: int) returns (due: seq<Id>)
      modifies this
      ensures IsBatch(old(rows), due, limit, now)
      ensures rows == Claimed(old(rows), due) && dedupe == old(dedupe)
    {
      var candidates := set id | id in rows && rows[id].status == Pending && rows[id].scheduledFor <= now;
      due := [];
      while |due| < limit && candidates != {}
        invariant |due| <= limit && rows == old(rows) && dedupe == old(dedupe)
        invariant forall i :: 0 <= i < |due| ==> IsDue(rows, due[i], now) && due[i] !in candidates
        invariant forall i, j :: 0 <= i < j < |due| ==> due[i] != due[j] && rows[due[i]].scheduledFor <= rows[due[j]].scheduledFor
        invariant forall id :: id in candidates <==> IsDue(rows, id, now) && id !in due
        invariant forall i, id :: 0 <= i < |due| && id in candidates ==> rows[due[i]].scheduledFor <= rows[id].scheduledFor
        decreases candidates
      {
        var id := Earliest(candidates);
        due := due + [id];
        candidates := candidates - {id};
      }
      BumpAttempts(due);
    }

    /** Claiming is bumping the attempts, so that no other claim takes the same rows. */
    method BumpAttempts(due: seq<Id>)
      requires forall i :: 0 <= i < |due| ==> due[i] in rows
      requires forall i, j :: 0 <= i < j < |due| ==> due[i] != due[j]
      modifies this`rows
      ensures rows == Claimed(old(rows), due)
    {
      for i := 0 to |due|
        invariant rows == Claimed(old(rows), due[..i])
      {
        rows := rows[due[i] := rows[due[i]].(attempts := rows[due[i]].attempts + 1)];
        assert due[..i + 1] == due[..i] + [due[i]];
      }
      assert due[..|due|] == due;
    }

    method MarkSent(id: Id)
      modifies this
      ensures rows == MarkedSent(old(rows), id) && dedupe == old(dedupe)
    {
      if id in rows { rows := rows[id := rows[id].(status := Sent)]; }
    }

    method MarkFailed(id: Id, retryAt: Option<int>)
      modifies this
      ensures rows == MarkedFailed(old(rows), id, retryAt) && dedupe == old(dedupe)
    {
      if id in rows {
        rows := rows[id := rows[id].(status := if retryAt.Some? then Pending else Failed,
                                     scheduledFor := if retryAt.Some? then retryAt.value else rows[id].scheduledFor)];
      }
    }
  }

  // ---------------------------------------------------------------------------------------------
  // The dispatcher
  // ---------------------------------------------------------------------------------------------

  /** What a tick meets outside: which sends succeed, which approvals are still pending, and when each send is made. */
  datatype Outside = Outside(delivers: Id -> bool, stillPending: string -> bool, sentAt: Id -> int)

  function UntilColon(s: string): string {
    if s == "" || s[0] == ':' then "" else [s[0]] + UntilColon(s[1..])
  }

  /** The second colon-separated part of a key, when there is one. */
  function SecondPart(s: string): Option<string> {
    if s == "" then None else if s[0] == ':' then Some(UntilColon(s[1..])) else SecondPart(s[1..])
  }

  /** Reminders about approvals that are gone or decided are dropped. */
  predicate Suppressed(row: Row, outside: Outside) {
    && row.kind == "approval_reminder"
    && match SecondPart(row.dedupeKey)
       case None => false
       case Some(approvalId) => approvalId != "" && !outside.stillPending(approvalId)
  }

  /** What becomes of a claimed row in a tick that started at `now`. */
  function SettledRow(row: Row, id: Id, maxAttempts: nat, now: int, outside: Outside): Row {
    if Suppressed(row, outside) || outside.delivers(id) then row.(status := Sent)
    else if row.attempts >= maxAttempts then row.(status := Failed)
    else row.(status := Pending, scheduledFor := now + Backoff(row.attempts))
  }

  function Settled(rows: Rows, id: Id, maxAttempts: nat, now: int, outside: Outside): Rows {
    if id in rows then rows[id := SettledRow(rows[id], id, maxAttempts, now, outside)] else rows
  }

  function Dispatched(rows: Rows, due: seq<Id>, maxAttempts: nat, now: int, outside: Outside): Rows
    decreases |due|
  {
    if due == [] then rows
    else Dispatched(Settled(rows, due[0], maxAttempts, now, outside), due[1..], maxAttempts, now, outside)
  }

  predicate Delivers(rows: Rows, id: Id, outside: Outside) {
    id in rows && !Suppressed(rows[id], outside) && outside.delivers(id)
  }

  /** How many of a batch are really sent. */
  function DeliveredIn(rows: Rows, due: seq<Id>, maxAttempts: nat, now: int, outside: Outside): nat
    decreases |due|
  {
    if due == [] then 0
    else
      (if Delivers(rows, due[0], outside) then 1 else 0)
      + DeliveredIn(Settled(rows, due[0], maxAttempts, now, outside), due[1..], maxAttempts, now, outside)
  }

  lemma DispatchedStep(rows: Rows, due: seq<Id>, i: nat, maxAttempts: nat, now: int, outside: Outside)
    requires i < |due|
    ensures Dispatched(rows, due[i..], maxAttempts, now, outside)
      == Dispatched(Settled(rows, due[i], maxAttempts, now, outside), due[i + 1..], maxAttempts, now, outside)
    ensures DeliveredIn(rows, due[i..], maxAttempts, now, outside)
      == (if Delivers(rows, due[i], outside) then 1 else 0)
         + DeliveredIn(Settled(rows, due[i], maxAttempts, now, outside), due[i + 1..], maxAttempts, now, outside)
  {
    assert due[i..][1..] == due[i + 1..];
  }

  class Dispatcher {
    const table: Table
    const batchSize: nat
    const maxAttempts: nat
    var running: bool

    constructor (table: Table, batchSize: nat, maxAttempts: nat)
      ensures this.table == table && this.batchSize == batchSize && this.maxAttempts == maxAttempts && !running
    {
      this.table, this.batchSize, this.maxAttempts, running := table, batchSize, maxAttempts, false;
    }

    method ShouldSuppress(row: Row, outside: Outside) returns (suppress: bool)
      ensures suppress == Suppressed(row, outside)
    {
      if row.kind != "approval_reminder" { return false; }
      var approvalId := SecondPart(row.dedupeKey);
      if approvalId.None? || approvalId.value == "" { return false; }
      return !outside.stillPending(approvalId.value);
    }

    method DeliverOne(id: Id, now: int, outside: Outside) returns (delivered: bool)
      requires id in table.rows
      modifies table
      ensures table.rows == Settled(old(table.rows), id, maxAttempts, now, outside) && table.dedupe == old(table.dedupe)
      ensures delivered == Delivers(old(table.rows), id, outside)
    {
      var row := table.rows[id];
      var suppress := ShouldSuppress(row, outside);
      if suppress {
        table.MarkSent(id);
        return false;
      }
      if outside.delivers(id) {
        table.MarkSent(id);
        return true;
      }
      var giveUp := row.attempts >= maxAttempts;
      var retryAt := if giveUp then None else Some(now + Backoff(row.attempts));
      table.MarkFailed(id, retryAt);
      return false;
    }

    method Tick(now: int, outside: Outside) returns (sent: nat, ghost due: seq<Id>)
      modifies this, table
      ensures table.dedupe == old(table.dedupe) && running == old(running)
      ensures old(running) ==> sent == 0 && table.rows == old(table.rows)
      ensures !old(running) ==>
        && IsBatch(old(table.rows), due, batchSize, now)
        && table.rows == Dispatched(Claimed(old(table.rows), due), due, maxAttempts, now, outside)
        && sent == DeliveredIn(Claimed(old(table.rows), due), due, maxAttempts, now, outside)
    {
      if running { return 0, []; }
      running := true;
      sent := 0;
      var batch := table.ClaimPending(batchSize, now);
      due := batch;
      ghost var claimed := table.rows;
      assert batch[0..] == batch;
      var i := 0;
      while i < |batch|
        invariant 0 <= i <= |batch| && running && table.dedupe == old(table.dedupe)
        invariant table.rows.Keys == claimed.Keys
        invariant Dispatched(table.rows, batch[i..], maxAttempts, now, outside)
          == Dispatched(claimed, batch, maxAttempts, now, outside)
        invariant sent + DeliveredIn(table.rows, batch[i..], maxAttempts, now, outside)
          == DeliveredIn(claimed, batch, maxAttempts, now, outside)
      {
        DispatchedStep(table.rows, batch, i, maxAttempts, now, outside);
        var delivered := DeliverOne(batch[i], now, outside);
        if delivered { sent := sent + 1; }
        i := i + 1;
      }
      running := false;
    }
  }

  // ---------------------------------------------------------------------------------------------
  // Runs, with every send recorded with its row
  // ---------------------------------------------------------------------------------------------

  /** A send: when its tick started, and when it was made. */
  datatype Send = Send(tick: int, at: int, delivered: bool)

  /** `clock` is when the last tick made its last send. */
  datatype World = World(rows: Rows, dedupe: set<string>, sends: map<Id, seq<Send>>, clock: int) {
    function SendsOf(id: Id): seq<Send> { if id in sends then sends[id] else [] }
  }

  datatype Config = Config(batchSize: nat, maxAttempts: nat)

  datatype Event =
    | Enqueue(id: Id, kind: string, dedupeKey: string, scheduledFor: int)
    | Tick(now: int, due: seq<Id>, outside: Outside)

  /** The sends of a tick are made one after the other, from its start on. */
  predicate Timely(due: seq<Id>, now: int, outside: Outside) {
    && (forall i :: 0 <= i < |due| ==> now <= outside.sentAt(due[i]))
    && (forall i, j :: 0 <= i < j < |due| ==> outside.sentAt(due[i]) <= outside.sentAt(due[j]))
  }

  function EndOf(due: seq<Id>, now: int, outside: Outside): int {
    if due == [] then now else outside.sentAt(due[|due| - 1])
  }

  /** New ids are fresh; a tick takes a batch, and starts when the one before it has ended. */
  ghost predicate Allowed(w: World, cfg: Config, e: Event) {
    match e
    case Enqueue(id, _, _, _) => id !in w.rows
    case Tick(now, due, outside) => IsBatch(w.rows, due, cfg.batchSize, now) && w.clock <= now && Timely(due, now, outside)
  }

  /** The sends of a row after it was settled: a suppressed reminder is not sent. */
  function SendsAfter(s: seq<Send>, row: Row, id: Id, now: int, outside: Outside): seq<Send> {
    if Suppressed(row, outside) then s else s + [Send(now, outside.sentAt(id), outside.delivers(id))]
  }

  function Settle(w: World, id: Id, cfg: Config, now: int, outside: Outside): World {
    if id !in w.rows then w
    else w.(rows := Settled(w.rows, id, cfg.maxAttempts, now, outside),
            sends := w.sends[id := SendsAfter(w.SendsOf(id), w.rows[id], id, now, outside)])
  }

  function Dispatch(w: World, due: seq<Id>, cfg: Config, now: int, outside: Outside): (w': World)
    ensures w'.rows == Dispatched(w.rows, due, cfg.maxAttempts, now, outside) && w'.dedupe == w.dedupe && w'.clock == w.clock
    decreases |due|
  {
    if due == [] then w else Dispatch(Settle(w, due[0], cfg, now, outside), due[1..], cfg, now, outside)
  }

  function Step(w: World, cfg: Config, e: Event): World {
    match e
    case Enqueue(id, kind, key, at) =>
      if key in w.dedupe then w
      else w.(rows := w.rows[id := Row(kind, key, Pending, 0, at)], dedupe := w.dedupe + {key})
    case Tick(now, due, outside) =>
      Dispatch(w.(rows := Claimed(w.rows, due)), due, cfg, now, outside).(clock := EndOf(due, now, outside))
  }

  ghost predicate IsRun(w: World, cfg: Config, es: seq<Event>)
    decreases |es|
  {
    es == [] || (Allowed(w, cfg, es[0]) && IsRun(Step(w, cfg, es[0]), cfg, es[1..]))
  }

  function Run(w: World, cfg: Config, es: seq<Event>): World
    decreases |es|
  {
    if es == [] then w else Run(Step(w, cfg, es[0]), cfg, es[1..])
  }

  const EMPTY := World(map[], {}, map[], 0)

  // ---------------------------------------------------------------------------------------------
  // The invariant
  // ---------------------------------------------------------------------------------------------

  function MostSends(cfg: Config): nat { if cfg.maxAttempts == 0 then 1 else cfg.maxAttempts }

  predicate NoneDelivered(s: seq<Send>) { forall i :: 0 <= i < |s| ==> !s[i].delivered }

  /** Ticks wait out the backoff, and each send is made after its tick's start and before the next tick's. */
  predicate Spaced(s: seq<Send>) {
    && (forall i :: 0 < i < |s| ==> s[i].tick >= s[i - 1].tick + Backoff(i) && s[i].tick >= s[i - 1].at)
    && (forall i :: 0 <= i < |s| ==> s[i].at >= s[i].tick)
  }

  predicate EndsBy(s: seq<Send>, time: int) { s != [] ==> s[|s| - 1].at <= time }

  /** Only the last send can have succeeded, and there are not too many. */
  predicate SendsOk(s: seq<Send>, cfg: Config) {
    Spaced(s) && |s| <= MostSends(cfg) && (s != [] ==> NoneDelivered(s[..|s| - 1]))
  }

  /** Sends that may be followed by another one no earlier than `from`: all failed, all counted. */
  predicate Waiting(attempts: nat, from: int, s: seq<Send>, cfg: Config) {
    && Spaced(s) && NoneDelivered(s) && |s| == attempts && |s| < MostSends(cfg)
    && (s != [] ==> from >= s[|s| - 1].tick + Backoff(|s|))
  }

  /** A row that failed was sent as often as it may be, in vain; one that is SENT was delivered last, or is a dropped reminder. */
  predicate Concluded(r: Row, s: seq<Send>, cfg: Config) {
    && (r.status == Failed ==> |s| == MostSends(cfg) && NoneDelivered(s))
    && (r.status == Sent ==> (s != [] && s[|s| - 1].delivered) || (r.kind == "approval_reminder" && NoneDelivered(s)))
  }

  /** A row in order, whose last send was made by `time`. */
  predicate RowOk(r: Row, s: seq<Send>, cfg: Config, time: int) {
    && SendsOk(s, cfg) && EndsBy(s, time) && Concluded(r, s, cfg)
    && (r.status == Pending ==> Waiting(r.attempts, r.scheduledFor, s, cfg))
  }

  /** A row in the hands of a tick that started at `now`. */
  predicate InHand(r: Row, s: seq<Send>, cfg: Config, now: int) {
    r.attempts > 0 && Waiting(r.attempts - 1, now, s, cfg) && EndsBy(s, now)
  }

  /** A key belongs to one row only. */
  ghost predicate KeysOk(w: World) {
    && (forall id :: id in w.rows ==> w.rows[id].dedupeKey in w.dedupe)
    && (forall a, b :: a in w.rows && b in w.rows && w.rows[a].dedupeKey == w.rows[b].dedupeKey ==> a == b)
  }

  ghost predicate RowsOk(w: World, cfg: Config, hand: set<Id>, now: int, end: int) {
    && w.sends.Keys <= w.rows.Keys && hand <= w.rows.Keys
    && (forall id :: id in w.rows ==>
          if id in hand then InHand(w.rows[id], w.SendsOf(id), cfg, now) else RowOk(w.rows[id], w.SendsOf(id), cfg, end))
  }

  ghost predicate Inv(w: World, cfg: Config) { KeysOk(w) && RowsOk(w, cfg, {}, 0, w.clock) }

  /** `w'` differs from `w` in row `id` only, and keeps its key. */
  ghost predicate OnlyRow(w: World, w': World, id: Id) {
    && w'.dedupe == w.dedupe && w'.clock == w.clock && w'.rows.Keys == w.rows.Keys && w'.sends.Keys <= w.sends.Keys + {id}
    && (forall r :: r in w.rows ==> w'.rows[r].dedupeKey == w.rows[r].dedupeKey)
    && (forall r :: r in w.rows && r != id ==> w'.rows[r] == w.rows[r] && w'.SendsOf(r) == w.SendsOf(r))
  }

  lemma SpacedLater(s: seq<Send>, x: Send)
    requires Spaced(s) && x.tick <= x.at
    requires s != [] ==> x.tick >= s[|s| - 1].tick + Backoff(|s|) && x.tick >= s[|s| - 1].at
    ensures Spaced(s + [x])
  {
  }

  /** One more send keeps the record in order; a failed one that may be repeated must wait out the next backoff. */
  lemma SendOnce(attempts: nat, s: seq<Send>, cfg: Config, x: Send)
    requires attempts > 0 && Waiting(attempts - 1, x.tick, s, cfg) && EndsBy(s, x.tick) && x.tick <= x.at
    ensures SendsOk(s + [x], cfg) && EndsBy(s + [x], x.at)
    ensures !x.delivered && attempts < cfg.maxAttempts ==> Waiting(attempts, x.tick + Backoff(attempts), s + [x], cfg)
  {
    SpacedLater(s, x);
    assert (s + [x])[..|s|] == s;
  }

  lemma UnsentIsOk(attempts: nat, s: seq<Send>, cfg: Config, now: int)
    requires Waiting(attempts, now, s, cfg)
    ensures SendsOk(s, cfg)
  {
    if s != [] { assert NoneDelivered(s[..|s| - 1]); }
  }

  /** A send that was delivered, or is the last one, concludes the row. */
  lemma SendConcludes(attempts: nat, s: seq<Send>, cfg: Config, x: Send)
    requires attempts > 0 && Waiting(attempts - 1, x.tick, s, cfg)
    ensures x.delivered ==> (s + [x])[|s|].delivered
    ensures !x.delivered && attempts >= cfg.maxAttempts ==> |s + [x]| == MostSends(cfg) && NoneDelivered(s + [x])
  {
  }

  lemma SettledConcludes(r: Row, s: seq<Send>, id: Id, cfg: Config, now: int, outside: Outside)
    requires r.attempts > 0 && Waiting(r.attempts - 1, now, s, cfg)
    ensures Concluded(SettledRow(r, id, cfg.maxAttempts, now, outside), SendsAfter(s, r, id, now, outside), cfg)
  {
    if !Suppressed(r, outside) { SendConcludes(r.attempts, s, cfg, Send(now, outside.sentAt(id), outside.delivers(id))); }
  }

  /** Settling a row in hand, whatever the outcome, leaves it in order. */
  lemma SettledRowOk(r: Row, s: seq<Send>, id: Id, cfg: Config, now: int, end: int, outside: Outside)
    requires InHand(r, s, cfg, now) && now <= outside.sentAt(id) <= end
    ensures RowOk(SettledRow(r, id, cfg.maxAttempts, now, outside), SendsAfter(s, r, id, now, outside), cfg, end)
  {
    SettledConcludes(r, s, id, cfg, now, outside);
    SettledIsSpaced(r, s, id, cfg, now, end, outside);
  }

  lemma SettledIsSpaced(r: Row, s: seq<Send>, id: Id, cfg: Config, now: int, end: int, outside: Outside)
    requires InHand(r, s, cfg, now) && now <= outside.sentAt(id) <= end
    ensures var r', s' := SettledRow(r, id, cfg.maxAttempts, now, outside), SendsAfter(s, r, id, now, outside);
      SendsOk(s', cfg) && EndsBy(s', end) && (r'.status == Pending ==> Waiting(r'.attempts, r'.scheduledFor, s', cfg))
  {
    if Suppressed(r, outside) {
      UnsentIsOk(r.attempts - 1, s, cfg, now);
    } else {
      SendOnce(r.attempts, s, cfg, Send(now, outside.sentAt(id), outside.delivers(id)));
    }
  }

  lemma SettleFrame(w: World, cfg: Config, id: Id, now: int, outside: Outside)
    requires id in w.rows
    ensures var w' := Settle(w, id, cfg, now, outside);
      && OnlyRow(w, w', id)
      && w'.rows[id] == SettledRow(w.rows[id], id, cfg.maxAttempts, now, outside)
      && w'.SendsOf(id) == SendsAfter(w.SendsOf(id), w.rows[id], id, now, outside)
  {
  }

  lemma SettleOne(w: World, cfg: Config, id: Id, now: int, end: int, outside: Outside)
    requires id in w.rows && InHand(w.rows[id], w.SendsOf(id), cfg, now) && now <= outside.sentAt(id) <= end
    ensures var w' := Settle(w, id, cfg, now, outside);
      OnlyRow(w, w', id) && RowOk(w'.rows[id], w'.SendsOf(id), cfg, end)
  {
    SettleFrame(w, cfg, id, now, outside);
    SettledRowOk(w.rows[id], w.SendsOf(id), id, cfg, now, end, outside);
  }

  lemma OnlyRowKeeps(w: World, w': World, cfg: Config, id: Id, hand: set<Id>, now: int, end: int)
    requires KeysOk(w) && RowsOk(w, cfg, hand, now, end) && id in hand
    requires OnlyRow(w, w', id) && RowOk(w'.rows[id], w'.SendsOf(id), cfg, end)
    ensures KeysOk(w') && RowsOk(w', cfg, hand - {id}, now, end)
  {
  }

  lemma {:induction false} DispatchKeeps(w: World, cfg: Config, due: seq<Id>, now: int, end: int, outside: Outside)
    requires KeysOk(w) && RowsOk(w, cfg, Elements(due), now, end)
    requires forall i, j :: 0 <= i < j < |due| ==> due[i] != due[j]
    requires forall i :: 0 <= i < |due| ==> now <= outside.sentAt(due[i]) <= end
    ensures var w' := Dispatch(w, due, cfg, now, outside); KeysOk(w') && RowsOk(w', cfg, {}, now, end)
    decreases |due|
  {
    if due == [] {
      assert Elements(due) == {};
    } else {
      SettleOne(w, cfg, due[0], now, end, outside);
      OnlyRowKeeps(w, Settle(w, due[0], cfg, now, outside), cfg, due[0], Elements(due), now, end);
      assert Elements(due[1..]) == Elements(due) - {due[0]};
      DispatchKeeps(Settle(w, due[0], cfg, now, outside), cfg, due[1..], now, end, outside);
    }
  }

  /** A due row with one more attempt is in hand. */
  lemma DueIsInHand(r: Row, s: seq<Send>, cfg: Config, time: int, now: int)
    requires RowOk(r, s, cfg, time) && time <= now && r.status == Pending && r.scheduledFor <= now
    ensures InHand(r.(attempts := r.attempts + 1), s, cfg, now)
  {
  }

  lemma ClaimedRow(rows: Rows, due: seq<Id>, id: Id)
    requires id in rows
    ensures id in Claimed(rows, due)
    ensures Claimed(rows, due)[id] == if id in due then rows[id].(attempts := rows[id].attempts + 1) else rows[id]
  {
  }

  lemma ClaimKeepsKeys(w: World, due: seq<Id>)
    requires KeysOk(w)
    ensures KeysOk(w.(rows := Claimed(w.rows, due))) && Claimed(w.rows, due).Keys == w.rows.Keys
  {
  }

  lemma ClaimTakesInHand(w: World, cfg: Config, due: seq<Id>, now: int, end: int)
    requires Inv(w, cfg) && IsBatch(w.rows, due, cfg.batchSize, now) && w.clock <= now <= end
    ensures var c := w.(rows := Claimed(w.rows, due)); KeysOk(c) && RowsOk(c, cfg, Elements(due), now, end)
  {
    var c := w.(rows := Claimed(w.rows, due));
    ClaimKeepsKeys(w, due);
    forall id | id in due ensures id in w.rows { assert IsDue(w.rows, id, now); }
    forall id | id in c.rows
      ensures if id in Elements(due) then InHand(c.rows[id], c.SendsOf(id), cfg, now) else RowOk(c.rows[id], c.SendsOf(id), cfg, end)
    {
      ClaimedRow(w.rows, due, id);
      assert RowOk(w.rows[id], w.SendsOf(id), cfg, w.clock);
      if id in due {
        assert IsDue(w.rows, id, now);
        DueIsInHand(w.rows[id], w.SendsOf(id), cfg, w.clock, now);
      }
    }
  }

  lemma TickKeepsInv(w: World, cfg: Config, now: int, due: seq<Id>, outside: Outside)
    requires Inv(w, cfg) && Allowed(w, cfg, Tick(now, due, outside))
    ensures Inv(Step(w, cfg, Tick(now, due, outside)), cfg)
  {
    var end := EndOf(due, now, outside);
    var claimed := w.(rows := Claimed(w.rows, due));
    ClaimTakesInHand(w, cfg, due, now, end);
    DispatchKeeps(claimed, cfg, due, now, end, outside);
    ClockMoves(Dispatch(claimed, due, cfg, now, outside), cfg, now, end);
  }

  lemma ClockMoves(w: World, cfg: Config, now: int, end: int)
    requires KeysOk(w) && RowsOk(w, cfg, {}, now, end)
    ensures Inv(w.(clock := end), cfg)
  {
  }

  lemma NewRowOk(r: Row, cfg: Config, time: int)
    requires r.attempts == 0 && r.status == Pending
    ensures RowOk(r, [], cfg, time)
  {
  }

  lemma EnqueueKeepsInv(w: World, cfg: Config, e: Event)
    requires Inv(w, cfg) && Allowed(w, cfg, e) && e.Enqueue?
    ensures Inv(Step(w, cfg, e), cfg)
  {
    var w' := Step(w, cfg, e);
    if w' != w {
      assert w'.SendsOf(e.id) == [] && w'.rows.Keys == w.rows.Keys + {e.id};
      NewRowOk(w'.rows[e.id], cfg, w.clock);
      forall id | id in w'.rows ensures RowOk(w'.rows[id], w'.SendsOf(id), cfg, w'.clock) {
        if id != e.id { assert w'.rows[id] == w.rows[id] && w'.SendsOf(id) == w.SendsOf(id); }
      }
    }
  }

  lemma StepKeepsInv(w: World, cfg: Config, e: Event)
    requires Inv(w, cfg) && Allowed(w, cfg, e)
    ensures Inv(Step(w, cfg, e), cfg)
  {
    match e
    case Enqueue(_, _, _, _) => EnqueueKeepsInv(w, cfg, e);
    case Tick(now, due, outside) => TickKeepsInv(w, cfg, now, due, outside);
  }

  lemma {:induction false} RunKeepsInv(w: World, cfg: Config, es: seq<Event>)
    requires Inv(w, cfg) && IsRun(w, cfg, es)
    ensures Inv(Run(w, cfg, es), cfg)
    decreases |es|
  {
    if es != [] {
      StepKeepsInv(w, cfg, es[0]);
      RunKeepsInv(Step(w, cfg, es[0]), cfg, es[1..]);
    }
  }

  // ---------------------------------------------------------------------------------------------
  // What every run guarantees
  // ---------------------------------------------------------------------------------------------

  /** The tick of the k-th repetition starts at least 2^k - 1 minutes after that of the first send. */
  lemma {:induction false} SpacedFromFirst(s: seq<Send>, k: nat)
    requires Spaced(s) && k < |s|
    ensures s[k].tick >= s[0].tick + MINUTE * (Pow2(k) - 1)
  {
    if k > 0 { SpacedFromFirst(s, k - 1); }
  }

  /** How long after the start of its tick the first send was made. */
  function FirstDelay(s: seq<Send>): int
    requires s != []
  {
    s[0].at - s[0].tick
  }

  /** At most maxAttempts sends, one after the other, all but the last failed; their ticks at least 2^k - 1 minutes apart
      from the first one's, and the sends themselves at least that less the delay of the first within its tick. */
  ghost predicate Guaranteed(s: seq<Send>, cfg: Config) {
    && |s| <= MostSends(cfg)
    && (s != [] ==> FirstDelay(s) >= 0)
    && (forall k: nat :: k + 1 < |s| ==> !s[k].delivered && s[k].at <= s[k + 1].at)
    && (forall k: nat :: k < |s| ==> s[k].tick >= s[0].tick + MINUTE * (Pow2(k) - 1))
    && (forall k: nat :: k < |s| ==> s[k].at >= s[0].at + MINUTE * (Pow2(k) - 1) - FirstDelay(s))
  }

  /** Over every run: a FAILED row was sent as often as it may be, each time in vain; a SENT one was delivered by its last
      send, or is an approval reminder that was dropped; a PENDING one was sent in vain once per attempt, and is not due before
      its last tick's backoff has passed. */
  lemma StatusIsEarned(cfg: Config, es: seq<Event>, id: Id)
    requires IsRun(EMPTY, cfg, es) && id in Run(EMPTY, cfg, es).rows
    ensures var r, s := Run(EMPTY, cfg, es).rows[id], Run(EMPTY, cfg, es).SendsOf(id);
      match r.status
      case Failed => |s| == MostSends(cfg) && forall k: nat :: k < |s| ==> !s[k].delivered
      case Sent => (s != [] && s[|s| - 1].delivered) || (r.kind == "approval_reminder" && forall k: nat :: k < |s| ==> !s[k].delivered)
      case Pending =>
        && |s| == r.attempts < MostSends(cfg) && (forall k: nat :: k < |s| ==> !s[k].delivered)
        && (s != [] ==> r.scheduledFor >= s[|s| - 1].tick + MINUTE * Pow2(|s| - 1))
  {
    RunKeepsInv(EMPTY, cfg, es);
    var w := Run(EMPTY, cfg, es);
    assert RowOk(w.rows[id], w.SendsOf(id), cfg, w.clock);
  }

  lemma InOrder(s: seq<Send>, cfg: Config)
    requires SendsOk(s, cfg)
    ensures Guaranteed(s, cfg)
  {
    forall k: nat | k + 1 < |s| ensures !s[k].delivered { assert s[..|s| - 1][k] == s[k]; }
    forall k: nat | k < |s| ensures s[k].tick >= s[0].tick + MINUTE * (Pow2(k) - 1) { SpacedFromFirst(s, k); }
  }

  /** Over every run of enqueues and non-overlapping ticks a dedupe key has one row, and its sends are as guaranteed. */
  lemma OutboxGuarantee(cfg: Config, es: seq<Event>, id: Id)
    requires IsRun(EMPTY, cfg, es) && id in Run(EMPTY, cfg, es).rows
    ensures var w := Run(EMPTY, cfg, es);
      && (forall other :: other in w.rows && w.rows[other].dedupeKey == w.rows[id].dedupeKey ==> other == id)
      && Guaranteed(w.SendsOf(id), cfg)
  {
    RunKeepsInv(EMPTY, cfg, es);
    var w := Run(EMPTY, cfg, es);
    assert RowOk(w.rows[id], w.SendsOf(id), cfg, w.clock);
    InOrder(w.SendsOf(id), cfg);
  }

  lemma {:induction false} DispatchFrame(w: World, cfg: Config, due: seq<Id>, now: int, outside: Outside, id: Id)
    requires id in w.rows && id !in due
    ensures var w' := Dispatch(w, due, cfg, now, outside);
      id in w'.rows && w'.rows[id] == w.rows[id] && w'.SendsOf(id) == w.SendsOf(id)
    decreases |due|
  {
    if due != [] { DispatchFrame(Settle(w, due[0], cfg, now, outside), cfg, due[1..], now, outside, id); }
  }

  /** A row that is SENT or FAILED is never claimed, changed or sent again, whatever follows. */
  lemma {:induction false} TerminalForever(w: World, cfg: Config, es: seq<Event>, id: Id)
    requires IsRun(w, cfg, es)
    requires id in w.rows && w.rows[id].status != Pending
    ensures var w' := Run(w, cfg, es);
      id in w'.rows && w'.rows[id] == w.rows[id] && w'.SendsOf(id) == w.SendsOf(id)
    decreases |es|
  {
    if es != [] {
      var e := es[0];
      if e.Tick? {
        assert forall other :: other in e.due ==> IsDue(w.rows, other, e.now);
        DispatchFrame(w.(rows := Claimed(w.rows, e.due)), cfg, e.due, e.now, e.outside, id);
      }
      TerminalForever(Step(w, cfg, e), cfg, es[1..], id);
    }
  }

  // ---------------------------------------------------------------------------------------------
  // What one tick does with each row
  // ---------------------------------------------------------------------------------------------

  /** A minute after the first attempt, and twice as long after every further one. */
  lemma BackoffDoubles(attempts: nat)
    requires attempts >= 1
    ensures Backoff(1) == 60_000 && Backoff(attempts + 1) == 2 * Backoff(attempts)
  {
  }

  lemma {:induction false} NoColon(s: string)
    requires forall i :: 0 <= i < |s| ==> s[i] != ':'
    ensures UntilColon(s) == s && SecondPart(s).None?
  {
    if s != "" {
      NoColon(s[1..]);
      assert s == [s[0]] + s[1..];
    }
  }

  lemma {:induction false} StopsAtColon(b: string, rest: string)
    requires forall i :: 0 <= i < |b| ==> b[i] != ':'
    ensures UntilColon(b + ":" + rest) == b
  {
    var s := b + ":" + rest;
    if b != "" {
      assert s[1..] == b[1..] + ":" + rest && b == [b[0]] + b[1..];
      StopsAtColon(b[1..], rest);
    }
  }

  lemma {:induction false} SecondPartIs(a: string, rest: string)
    requires forall i :: 0 <= i < |a| ==> a[i] != ':'
    ensures SecondPart(a + ":" + rest) == Some(UntilColon(rest))
  {
    var s := a + ":" + rest;
    if a == "" {
      assert s[1..] == rest;
    } else {
      assert s[1..] == a[1..] + ":" + rest;
      SecondPartIs(a[1..], rest);
    }
  }

  /** A reminder is dropped exactly if its key names an approval after the first colon, up to the next one or the end, and
      that approval is not pending any more. Nothing else is ever dropped. */
  lemma ReminderIsDroppedIff(row: Row, outside: Outside, a: string, approval: string, rest: string)
    requires forall i :: 0 <= i < |a| ==> a[i] != ':'
    requires forall i :: 0 <= i < |approval| ==> approval[i] != ':'
    requires row.dedupeKey == a + ":" + approval + ":" + rest || row.dedupeKey == a + ":" + approval
    ensures Suppressed(row, outside) <==>
      row.kind == "approval_reminder" && approval != "" && !outside.stillPending(approval)
  {
    StopsAtColon(approval, rest);
    NoColon(approval);
    if row.dedupeKey == a + ":" + approval {
      SecondPartIs(a, approval);
    } else {
      assert row.dedupeKey == a + ":" + (approval + ":" + rest);
      SecondPartIs(a, approval + ":" + rest);
    }
  }

  /** What becomes of a row of the batch: one more attempt, and SENT if it was dropped or delivered, FAILED after its last
      attempt, and else due again after a minute times two to the number of attempts before this one. */
  predicate IsHandled(r: Row, r': Row, id: Id, cfg: Config, now: int, outside: Outside) {
    && r'.kind == r.kind && r'.dedupeKey == r.dedupeKey && r'.attempts == r.attempts + 1
    && if Suppressed(r, outside) || outside.delivers(id) then r'.status == Sent && r'.scheduledFor == r.scheduledFor
       else if r.attempts + 1 >= cfg.maxAttempts then r'.status == Failed && r'.scheduledFor == r.scheduledFor
       else r'.status == Pending && r'.scheduledFor == now + 60_000 * Pow2(r.attempts)
  }

  lemma {:induction false} DispatchReaches(w: World, cfg: Config, due: seq<Id>, now: int, outside: Outside, i: nat)
    requires i < |due| && due[i] in w.rows && forall j, k :: 0 <= j < k < |due| ==> due[j] != due[k]
    ensures var w' := Dispatch(w, due, cfg, now, outside);
      due[i] in w'.rows && w'.rows[due[i]] == SettledRow(w.rows[due[i]], due[i], cfg.maxAttempts, now, outside)
    decreases |due|
  {
    var next := Settle(w, due[0], cfg, now, outside);
    if i == 0 {
      SettleFrame(w, cfg, due[0], now, outside);
      DispatchFrame(next, cfg, due[1..], now, outside, due[0]);
    } else {
      DispatchReaches(next, cfg, due[1..], now, outside, i - 1);
    }
  }

  lemma SettledIsHandled(r: Row, id: Id, cfg: Config, now: int, outside: Outside)
    ensures IsHandled(r, SettledRow(r.(attempts := r.attempts + 1), id, cfg.maxAttempts, now, outside), id, cfg, now, outside)
      || r.status != Pending
  {
  }

  /** A tick handles exactly the rows of its batch, and leaves every other row alone. */
  lemma TickHandlesBatch(w: World, cfg: Config, now: int, due: seq<Id>, outside: Outside, id: Id)
    requires Allowed(w, cfg, Tick(now, due, outside)) && id in w.rows
    ensures var w' := Step(w, cfg, Tick(now, due, outside));
      && id in w'.rows
      && if id in due then IsHandled(w.rows[id], w'.rows[id], id, cfg, now, outside) else w'.rows[id] == w.rows[id]
  {
    var claimed := w.(rows := Claimed(w.rows, due));
    ClaimedRow(w.rows, due, id);
    if id in due { BatchIsHandled(w, claimed, cfg, now, due, outside, id); } else { DispatchFrame(claimed, cfg, due, now, outside, id); }
  }

  lemma BatchIsHandled(w: World, claimed: World, cfg: Config, now: int, due: seq<Id>, outside: Outside, id: Id)
    requires IsBatch(w.rows, due, cfg.batchSize, now) && id in due && id in w.rows
    requires id in claimed.rows && claimed.rows[id] == w.rows[id].(attempts := w.rows[id].attempts + 1)
    ensures var w' := Dispatch(claimed, due, cfg, now, outside);
      id in w'.rows && IsHandled(w.rows[id], w'.rows[id], id, cfg, now, outside)
  {
    var i :| 0 <= i < |due| && due[i] == id;
    assert IsDue(w.rows, due[i], now);
    DispatchReaches(claimed, cfg, due, now, outside, i);
    SettledIsHandled(w.rows[id], id, cfg, now, outside);
  }

  /** The members of a list that some predicate holds of. */
  function Chosen(due: seq<Id>, p: Id -> bool): set<Id> { set id | id in due && p(id) }

  lemma ChosenFirst(due: seq<Id>, p: Id -> bool, q: Id -> bool)
    requires due != [] && due[0] !in due[1..] && forall id :: id in due[1..] ==> p(id) == q(id)
    ensures |Chosen(due, p)| == |Chosen(due[1..], q)| + if p(due[0]) then 1 else 0
  {
    assert forall id :: id in due <==> id == due[0] || id in due[1..];
    if p(due[0]) { assert Chosen(due, p) == Chosen(due[1..], q) + {due[0]}; } else { assert Chosen(due, p) == Chosen(due[1..], q); }
  }

  lemma SettlingDelivers(rows: Rows, first: Id, id: Id, maxAttempts: nat, now: int, outside: Outside)
    requires id != first
    ensures Delivers(Settled(rows, first, maxAttempts, now, outside), id, outside) <==> Delivers(rows, id, outside)
  {
  }

  /** A tick answers how many rows it sent with success. */
  lemma {:induction false} DeliveriesAreCounted(rows: Rows, due: seq<Id>, maxAttempts: nat, now: int, outside: Outside)
    requires forall i, j :: 0 <= i < j < |due| ==> due[i] != due[j]
    ensures DeliveredIn(rows, due, maxAttempts, now, outside) == |Chosen(due, (id: Id) => Delivers(rows, id, outside))|
    decreases |due|
  {
    if due == [] {
      assert Chosen(due, (id: Id) => Delivers(rows, id, outside)) == {};
    } else {
      var next := Settled(rows, due[0], maxAttempts, now, outside);
      DeliveriesAreCounted(next, due[1..], maxAttempts, now, outside);
      forall id | id in due[1..] ensures Delivers(next, id, outside) <==> Delivers(rows, id, outside) {
        SettlingDelivers(rows, due[0], id, maxAttempts, now, outside);
      }
      ChosenFirst(due, (id: Id) => Delivers(rows, id, outside), (id: Id) => Delivers(next, id, outside));
    }
  }

  /** No due row is passed over while there is room in the batch. */
  lemma DueIsHandled(w: World, cfg: Config, now: int, due: seq<Id>, outside: Outside, id: Id)
    requires Allowed(w, cfg, Tick(now, due, outside)) && |due| < cfg.batchSize
    requires id in w.rows && w.rows[id].status == Pending && w.rows[id].scheduledFor <= now
    ensures id in due
  {
    assert IsDue(w.rows, id, now);
  }
}
