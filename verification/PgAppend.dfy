/** Concurrent appends to the Postgres tables of packages/database/src/postgres.ts, at the granularity of single
    statements: begin, take the advisory lock, read the head, insert, then commit or roll back. Statements see
    committed rows only (READ COMMITTED), locks last until the transaction ends. */
module PgAppend {
  import opened Wrappers
  import opened Json
  import opened AuditChain

  type RoomId = string

  /** A row of room_events: its sequence, and everything else. */
  datatype RoomRow = RoomRow(sequence: int, event: Value)

  /** What a transaction appends. */
  datatype Append = ToAudit(fields: seq<Entry<Value>>) | ToRoom(room: RoomId, event: Value)

  datatype Phase =
    | Idle
    | Begun
    | Locked
    | ReadAudit(sequence: int, hash: string)
    | ReadRoom(sequence: int)
    | InsertedAudit(row: AuditEvent)
    | InsertedRoom(roomRow: RoomRow)
    | Ended

  datatype Writer = Writer(what: Append, phase: Phase)

  /** Committed tables in commit order, who holds which advisory lock, and the transactions. */
  datatype System = System(
    audit: seq<AuditEvent>,
    rooms: map<RoomId, seq<RoomRow>>,
    locks: map<int, nat>,
    writers: seq<Writer>)
  {
    function RowsOf(room: RoomId): seq<RoomRow> { if room in rooms then rooms[room] else [] }
  }

  /** The digest, and Postgres' hash of lock names; two names may well share a lock. */
  datatype Env = Env(h: Hash, hashtext: string -> int) {
    function LockOf(what: Append): int {
      hashtext(match what case ToAudit(_) => "booth:audit" case ToRoom(room, _) => "room:" + room)
    }
  }

  // ---------------------------------------------------------------------------------------------
  // Statements
  // ---------------------------------------------------------------------------------------------

  /** `order by sequence desc limit 1` over the audit table. */
  function AuditHead(rows: seq<AuditEvent>): Option<AuditEvent> {
    if rows == [] then None
    else
      var last := rows[|rows| - 1];
      match AuditHead(rows[..|rows| - 1])
      case None => Some(last)
      case Some(best) => if last.sequence > best.sequence then Some(last) else Some(best)
  }

  /** `coalesce(max(sequence), 0)` over one room's events. */
  function MaxSequence(rows: seq<RoomRow>): int {
    if rows == [] then 0
    else
      var last, best := rows[|rows| - 1].sequence, MaxSequence(rows[..|rows| - 1]);
      if |rows| == 1 || last > best then last else best
  }

  predicate HoldsLock(p: Phase) {
    p.Locked? || p.ReadAudit? || p.ReadRoom? || p.InsertedAudit? || p.InsertedRoom?
  }

  /** One step of one transaction, or a new transaction. */
  datatype Action = Open(what: Append) | Begin(i: nat) | Lock(i: nat) | ReadHead(i: nat) | InsertRow(i: nat) | Commit(i: nat) | Rollback(i: nat)

  predicate Enabled(env: Env, s: System, a: Action) {
    match a
    case Open(_) => true
    case Begin(i) => i < |s.writers| && s.writers[i].phase == Idle
    case Lock(i) => i < |s.writers| && s.writers[i].phase == Begun && env.LockOf(s.writers[i].what) !in s.locks
    case ReadHead(i) => i < |s.writers| && s.writers[i].phase == Locked
    case InsertRow(i) => i < |s.writers| && (s.writers[i].phase.ReadAudit? || s.writers[i].phase.ReadRoom?)
    case Commit(i) => i < |s.writers| && (s.writers[i].phase.InsertedAudit? || s.writers[i].phase.InsertedRoom?)
    case Rollback(i) => i < |s.writers| && s.writers[i].phase != Idle && s.writers[i].phase != Ended
  }

  function At(s: System, i: nat, p: Phase): System
    requires i < |s.writers|
  {
    s.(writers := s.writers[i := s.writers[i].(phase := p)])
  }

  function HeadRead(s: System, what: Append): Phase {
    match what
    case ToAudit(_) =>
      match AuditHead(s.audit) {
        case None => ReadAudit(1, GENESIS_HASH)
        case Some(prev) => ReadAudit(prev.sequence + 1, prev.eventHash)
      }
    case ToRoom(room, _) => ReadRoom(MaxSequence(s.RowsOf(room)) + 1)
  }

  function RowMade(env: Env, w: Writer): Phase {
    match (w.what, w.phase)
    case (ToAudit(fields), ReadAudit(sequence, hash)) => InsertedAudit(ChainEvent(env.h, hash, fields, sequence))
    case (ToRoom(_, event), ReadRoom(sequence)) => InsertedRoom(RoomRow(sequence, event))
    case _ => w.phase
  }

  /** The committed tables with the transaction's row, its lock released. */
  function Committed(env: Env, s: System, i: nat): System
    requires i < |s.writers|
  {
    var w := s.writers[i];
    var s' := At(s.(locks := s.locks - {env.LockOf(w.what)}), i, Ended);
    match (w.what, w.phase)
    case (ToAudit(_), InsertedAudit(row)) => s'.(audit := s.audit + [row])
    case (ToRoom(room, _), InsertedRoom(row)) => s'.(rooms := s.rooms[room := s.RowsOf(room) + [row]])
    case _ => s'
  }

  function Step(env: Env, s: System, a: Action): System
    requires Enabled(env, s, a)
  {
    match a
    case Open(what) => s.(writers := s.writers + [Writer(what, Idle)])
    case Begin(i) => At(s, i, Begun)
    case Lock(i) => At(s.(locks := s.locks[env.LockOf(s.writers[i].what) := i]), i, Locked)
    case ReadHead(i) => At(s, i, HeadRead(s, s.writers[i].what))
    case InsertRow(i) => At(s, i, RowMade(env, s.writers[i]))
    case Commit(i) => Committed(env, s, i)
    case Rollback(i) =>
      var s' := At(s, i, Ended);
      if HoldsLock(s.writers[i].phase) then s'.(locks := s.locks - {env.LockOf(s.writers[i].what)}) else s'
  }

  const EMPTY := System([], map[], map[], [])

  predicate IsRun(env: Env, s: System, actions: seq<Action>)
    decreases |actions|
  {
    actions == [] || (Enabled(env, s, actions[0]) && IsRun(env, Step(env, s, actions[0]), actions[1..]))
  }

  function Run(env: Env, s: System, actions: seq<Action>): System
    requires IsRun(env, s, actions)
    decreases |actions|
  {
    if actions == [] then s else Run(env, Step(env, s, actions[0]), actions[1..])
  }

  // ---------------------------------------------------------------------------------------------
  // The invariant
  // ---------------------------------------------------------------------------------------------

  predicate Numbered(rows: seq<RoomRow>) {
    forall i :: 0 <= i < |rows| ==> rows[i].sequence == i + 1
  }

  lemma {:induction false} AuditHeadIsLast(rows: seq<AuditEvent>)
    requires rows != [] && forall i :: 0 <= i < |rows| ==> rows[i].sequence == i + 1
    ensures AuditHead(rows) == Some(rows[|rows| - 1])
  {
    if |rows| > 1 { AuditHeadIsLast(rows[..|rows| - 1]); }
  }

  lemma {:induction false} MaxSequenceIsCount(rows: seq<RoomRow>)
    requires Numbered(rows)
    ensures MaxSequence(rows) == |rows|
  {
    if rows != [] { MaxSequenceIsCount(rows[..|rows| - 1]); }
  }

  /** The tables are in order. */
  ghost predicate TablesOk(env: Env, s: System) {
    Intact(env.h, s.audit) && forall room :: room in s.rooms ==> Numbered(s.rooms[room])
  }

  /** What a transaction has seen or prepared is still what comes next. */
  predicate UpToDate(env: Env, s: System, w: Writer) {
    match w.phase
    case ReadAudit(sequence, hash) => w.what.ToAudit? && sequence == |s.audit| + 1 && hash == HeadHash(s.audit)
    case ReadRoom(sequence) => w.what.ToRoom? && sequence == |s.RowsOf(w.what.room)| + 1
    case InsertedAudit(row) => w.what.ToAudit? && row == ChainEvent(env.h, HeadHash(s.audit), w.what.fields, |s.audit| + 1)
    case InsertedRoom(row) => w.what.ToRoom? && row == RoomRow(|s.RowsOf(w.what.room)| + 1, w.what.event)
    case _ => true
  }

  /** A lock is held by exactly the transaction it is booked for. */
  ghost predicate LocksOk(env: Env, s: System) {
    forall i :: 0 <= i < |s.writers| && HoldsLock(s.writers[i].phase) ==>
      var key := env.LockOf(s.writers[i].what);
      key in s.locks && s.locks[key] == i
  }

  ghost predicate Inv(env: Env, s: System) {
    && TablesOk(env, s)
    && LocksOk(env, s)
    && forall i :: 0 <= i < |s.writers| ==> UpToDate(env, s, s.writers[i])
  }

  lemma ReadHeadUpToDate(env: Env, s: System, what: Append)
    requires TablesOk(env, s)
    ensures UpToDate(env, s, Writer(what, HeadRead(s, what)))
  {
    match what
    case ToAudit(_) => if s.audit != [] { AuditHeadIsLast(s.audit); }
    case ToRoom(room, _) => MaxSequenceIsCount(s.RowsOf(room));
  }

  /** Committing appends the row that comes next, so the tables stay in order. */
  lemma CommitKeepsTables(env: Env, s: System, i: nat)
    requires TablesOk(env, s) && i < |s.writers| && UpToDate(env, s, s.writers[i])
    requires s.writers[i].phase.InsertedAudit? || s.writers[i].phase.InsertedRoom?
    ensures TablesOk(env, Committed(env, s, i))
  {
    var w := s.writers[i];
    if w.what.ToAudit? { AppendKeepsIntact(env.h, s.audit, w.what.fields); }
  }

  /** Nobody else was in the middle of an append to the same table. */
  lemma CommitKeepsOthers(env: Env, s: System, i: nat, j: nat)
    requires LocksOk(env, s) && i < |s.writers| && j < |s.writers| && i != j
    requires UpToDate(env, s, s.writers[i]) && UpToDate(env, s, s.writers[j])
    requires s.writers[i].phase.InsertedAudit? || s.writers[i].phase.InsertedRoom?
    ensures UpToDate(env, Committed(env, s, i), s.writers[j])
  {
    var w, v := s.writers[i], s.writers[j];
    if HoldsLock(v.phase) { assert env.LockOf(v.what) != env.LockOf(w.what); }
  }

  lemma StepKeepsLocks(env: Env, s: System, a: Action)
    requires LocksOk(env, s) && Enabled(env, s, a)
    ensures LocksOk(env, Step(env, s, a))
  {
    match a
    case Open(_) =>
    case Begin(_) =>
    case Lock(_) =>
    case ReadHead(_) =>
    case InsertRow(i) => assert HoldsLock(s.writers[i].phase);
    case Commit(i) => assert HoldsLock(s.writers[i].phase);
    case Rollback(_) =>
  }

  /** Steps other than a commit leave the tables alone and advance one transaction correctly. */
  lemma QuietStepUpToDate(env: Env, s: System, a: Action)
    requires Inv(env, s) && Enabled(env, s, a) && !a.Commit?
    ensures var s' := Step(env, s, a);
      && s'.audit == s.audit && s'.rooms == s.rooms
      && forall i :: 0 <= i < |s'.writers| ==> UpToDate(env, s, s'.writers[i])
  {
    if a.ReadHead? { ReadHeadUpToDate(env, s, s.writers[a.i].what); }
    if a.InsertRow? { assert UpToDate(env, s, s.writers[a.i].(phase := RowMade(env, s.writers[a.i]))); }
  }

  lemma StepKeepsInv(env: Env, s: System, a: Action)
    requires Inv(env, s) && Enabled(env, s, a)
    ensures Inv(env, Step(env, s, a))
  {
    var s' := Step(env, s, a);
    StepKeepsLocks(env, s, a);
    if a.Commit? {
      CommitKeepsTables(env, s, a.i);
      forall j | 0 <= j < |s'.writers| ensures UpToDate(env, s', s'.writers[j]) {
        if j != a.i { CommitKeepsOthers(env, s, a.i, j); }
      }
    } else {
      QuietStepUpToDate(env, s, a);
      forall j | 0 <= j < |s'.writers| ensures UpToDate(env, s', s'.writers[j]) {
        assert UpToDate(env, s, s'.writers[j]);
      }
    }
  }

  lemma {:induction false} RunKeepsInv(env: Env, s: System, actions: seq<Action>)
    requires Inv(env, s) && IsRun(env, s, actions)
    ensures Inv(env, Run(env, s, actions))
    decreases |actions|
  {
    if actions != [] {
      StepKeepsInv(env, s, actions[0]);
      RunKeepsInv(env, Step(env, s, actions[0]), actions[1..]);
    }
  }

  // ---------------------------------------------------------------------------------------------
  // What was committed, read off the actions
  // ---------------------------------------------------------------------------------------------

  /** What the transactions of a run append, in the order in which they were opened. */
  function Opened(actions: seq<Action>): seq<Append> {
    if actions == [] then []
    else
      var last := actions[|actions| - 1];
      Opened(actions[..|actions| - 1]) + if last.Open? then [last.what] else []
  }

  /** What was appended by the transactions that committed, in commit order. */
  function Commits(actions: seq<Action>): seq<Append> {
    if actions == [] then []
    else
      var last, before := actions[|actions| - 1], actions[..|actions| - 1];
      Commits(before) + if last.Commit? && last.i < |Opened(before)| then [Opened(before)[last.i]] else []
  }

  function AuditFields(what: seq<Append>): seq<seq<Entry<Value>>> {
    if what == [] then []
    else
      var last := what[|what| - 1];
      AuditFields(what[..|what| - 1]) + if last.ToAudit? then [last.fields] else []
  }

  function RoomEvents(what: seq<Append>, room: RoomId): seq<Value> {
    if what == [] then []
    else
      var last := what[|what| - 1];
      RoomEvents(what[..|what| - 1], room) + if last.ToRoom? && last.room == room then [last.event] else []
  }

  /** What was opened is what the transactions append, and what was committed is what the tables hold. */
  ghost predicate Reflects(s: System, started: seq<Append>, commits: seq<Append>) {
    && |s.writers| == |started| && (forall i :: 0 <= i < |started| ==> s.writers[i].what == started[i])
    && Holds(s.audit, AuditFields(commits))
    && forall room :: HoldsRows(s.RowsOf(room), RoomEvents(commits, room))
  }

  predicate Holds(rows: seq<AuditEvent>, fields: seq<seq<Entry<Value>>>) {
    |rows| == |fields| && forall i :: 0 <= i < |rows| ==> rows[i].fields == fields[i]
  }

  predicate HoldsRows(rows: seq<RoomRow>, events: seq<Value>) {
    |rows| == |events| && forall i :: 0 <= i < |rows| ==> rows[i].event == events[i]
  }

  lemma QuietReflects(env: Env, s: System, a: Action, started: seq<Append>, commits: seq<Append>)
    requires Inv(env, s) && Enabled(env, s, a) && !a.Commit? && Reflects(s, started, commits)
    ensures Reflects(Step(env, s, a), if a.Open? then started + [a.what] else started, commits)
  {
    QuietStepUpToDate(env, s, a);
    var s' := Step(env, s, a);
    forall room ensures HoldsRows(s'.RowsOf(room), RoomEvents(commits, room)) {
      assert HoldsRows(s.RowsOf(room), RoomEvents(commits, room));
    }
  }

  lemma CommitReflects(env: Env, s: System, i: nat, started: seq<Append>, commits: seq<Append>)
    requires Inv(env, s) && Enabled(env, s, Commit(i)) && Reflects(s, started, commits)
    ensures Reflects(Step(env, s, Commit(i)), started, commits + [started[i]])
  {
    var s', all := Step(env, s, Commit(i)), commits + [started[i]];
    assert UpToDate(env, s, s.writers[i]);
    assert all[..|commits|] == commits;
    forall room ensures HoldsRows(s'.RowsOf(room), RoomEvents(all, room)) {
      assert HoldsRows(s.RowsOf(room), RoomEvents(commits, room));
    }
  }

  lemma {:induction false} RunThen(env: Env, s: System, actions: seq<Action>, a: Action)
    requires IsRun(env, s, actions + [a])
    ensures IsRun(env, s, actions) && Enabled(env, Run(env, s, actions), a)
    ensures Run(env, s, actions + [a]) == Step(env, Run(env, s, actions), a)
    decreases |actions|
  {
    if actions == [] {
      assert [] + [a] == [a] && [a][1..] == [];
      assert Run(env, s, [a]) == Run(env, Step(env, s, a), []);
    } else {
      assert (actions + [a])[1..] == actions[1..] + [a];
      RunThen(env, Step(env, s, actions[0]), actions[1..], a);
    }
  }

  lemma OneMore(before: seq<Action>, a: Action)
    ensures Opened(before + [a]) == if a.Open? then Opened(before) + [a.what] else Opened(before)
    ensures Commits(before + [a]) ==
      if a.Commit? && a.i < |Opened(before)| then Commits(before) + [Opened(before)[a.i]] else Commits(before)
  {
    assert (before + [a])[..|before|] == before;
  }

  lemma StepReflects(env: Env, s: System, before: seq<Action>, a: Action)
    requires Inv(env, s) && Enabled(env, s, a) && Reflects(s, Opened(before), Commits(before))
    ensures Reflects(Step(env, s, a), Opened(before + [a]), Commits(before + [a]))
  {
    OneMore(before, a);
    if a.Commit? {
      CommitReflects(env, s, a.i, Opened(before), Commits(before));
    } else {
      QuietReflects(env, s, a, Opened(before), Commits(before));
    }
  }

  lemma {:induction false} RunReflects(env: Env, actions: seq<Action>)
    requires IsRun(env, EMPTY, actions)
    ensures Reflects(Run(env, EMPTY, actions), Opened(actions), Commits(actions))
    decreases |actions|
  {
    if actions != [] {
      var before, a := actions[..|actions| - 1], actions[|actions| - 1];
      assert actions == before + [a];
      RunThen(env, EMPTY, before, a);
      RunReflects(env, before);
      RunKeepsInv(env, EMPTY, before);
      StepReflects(env, Run(env, EMPTY, before), before, a);
    }
  }

  /** Under every interleaving of any number of writers, rollbacks included: the committed audit table is a linked chain
      numbered 1..n and each room's events are numbered 1..m, and they hold exactly what was appended by the transactions
      that committed, in commit order; a transaction that rolled back or has not ended has left nothing. */
  lemma CommittedTablesInOrder(env: Env, actions: seq<Action>)
    requires IsRun(env, EMPTY, actions)
    ensures var s, commits := Run(env, EMPTY, actions), Commits(actions);
      && Intact(env.h, s.audit) && |s.audit| == |AuditFields(commits)|
      && (forall i :: 0 <= i < |s.audit| ==> s.audit[i].fields == AuditFields(commits)[i])
      && forall room :: Numbered(s.RowsOf(room)) && |s.RowsOf(room)| == |RoomEvents(commits, room)|
           && forall i :: 0 <= i < |s.RowsOf(room)| ==> s.RowsOf(room)[i].event == RoomEvents(commits, room)[i]
  {
    RunKeepsInv(env, EMPTY, actions);
    RunReflects(env, actions);
    var s, commits := Run(env, EMPTY, actions), Commits(actions);
    forall room ensures HoldsRows(s.RowsOf(room), RoomEvents(commits, room)) {}
  }

  /** Some action of the run ends the transaction. */
  predicate EndsIn(actions: seq<Action>, i: nat) { Commit(i) in actions || Rollback(i) in actions }

  lemma {:induction false} EndedStays(env: Env, s: System, actions: seq<Action>, i: nat)
    requires IsRun(env, s, actions) && i < |s.writers| && s.writers[i].phase == Ended
    ensures !EndsIn(actions, i)
    decreases |actions|
  {
    if actions != [] { EndedStays(env, Step(env, s, actions[0]), actions[1..], i); }
  }

  /** No transaction commits twice, and none commits that rolled back or the other way round. */
  lemma {:induction false} EndsOnce(env: Env, s: System, actions: seq<Action>, j: nat, k: nat, i: nat)
    requires IsRun(env, s, actions) && j < k < |actions|
    requires actions[j] == Commit(i) || actions[j] == Rollback(i)
    ensures actions[k] != Commit(i) && actions[k] != Rollback(i)
    decreases |actions|
  {
    var next := Step(env, s, actions[0]);
    if j == 0 {
      EndedStays(env, next, actions[1..], i);
      assert actions[k] in actions[1..];
    } else {
      EndsOnce(env, next, actions[1..], j - 1, k - 1, i);
    }
  }

  lemma {:induction false} Extends(env: Env, s: System, done: seq<Action>, now: System, a: Action)
    requires IsRun(env, s, done) && now == Run(env, s, done) && Enabled(env, now, a)
    ensures IsRun(env, s, done + [a]) && Run(env, s, done + [a]) == Step(env, now, a)
    decreases |done|
  {
    if done == [] {
      assert [] + [a] == [a] && [a][1..] == [];
      assert Run(env, s, [a]) == Run(env, Step(env, s, a), []);
    } else {
      assert (done + [a])[1..] == done[1..] + [a];
      Extends(env, Step(env, s, done[0]), done[1..], now, a);
    }
  }

  /** `now` is `s` with one more transaction, which has come to `phase`. */
  predicate HasCome(env: Env, s: System, now: System, what: Append, phase: Phase) {
    && now.audit == s.audit && now.rooms == s.rooms && now.writers == s.writers + [Writer(what, phase)]
    && now.locks == if HoldsLock(phase) then s.locks[env.LockOf(what) := |s.writers|] else s.locks
  }

  lemma ComesToLock(env: Env, s: System, what: Append) returns (done: seq<Action>, now: System)
    requires env.LockOf(what) !in s.locks
    ensures IsRun(env, s, done) && now == Run(env, s, done) && HasCome(env, s, now, what, Locked)
  {
    var n := |s.writers|;
    done, now := [], s;
    Extends(env, s, done, now, Open(what));
    done, now := done + [Open(what)], Step(env, now, Open(what));
    assert HasCome(env, s, now, what, Idle);
    Extends(env, s, done, now, Begin(n));
    done, now := done + [Begin(n)], Step(env, now, Begin(n));
    assert HasCome(env, s, now, what, Begun);
    Extends(env, s, done, now, Lock(n));
    done, now := done + [Lock(n)], Step(env, now, Lock(n));
  }

  lemma ComesToInsert(env: Env, s: System, what: Append) returns (done: seq<Action>, now: System)
    requires env.LockOf(what) !in s.locks
    ensures IsRun(env, s, done) && now == Run(env, s, done)
    ensures exists phase :: HasCome(env, s, now, what, phase) && if what.ToAudit? then phase.InsertedAudit? else phase.InsertedRoom?
  {
    var n := |s.writers|;
    done, now := ComesToLock(env, s, what);
    var read := HeadRead(now, what);
    Extends(env, s, done, now, ReadHead(n));
    done, now := done + [ReadHead(n)], Step(env, now, ReadHead(n));
    assert HasCome(env, s, now, what, read);
    var made := RowMade(env, now.writers[n]);
    Extends(env, s, done, now, InsertRow(n));
    done, now := done + [InsertRow(n)], Step(env, now, InsertRow(n));
    assert HasCome(env, s, now, what, made);
  }

  /** A writer that nobody keeps from its lock can append: some continuation commits it, and adds exactly its row. */
  lemma UnhinderedAppends(env: Env, s: System, what: Append) returns (actions: seq<Action>)
    requires env.LockOf(what) !in s.locks
    ensures IsRun(env, s, actions)
    ensures var s' := Run(env, s, actions);
      && |s'.audit| == |s.audit| + (if what.ToAudit? then 1 else 0)
      && forall room :: |s'.RowsOf(room)| == |s.RowsOf(room)| + if what.ToRoom? && what.room == room then 1 else 0
  {
    var n, now := |s.writers|, s;
    actions, now := ComesToInsert(env, s, what);
    Extends(env, s, actions, now, Commit(n));
    actions := actions + [Commit(n)];
  }
}
