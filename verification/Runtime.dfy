/** Driving a room once: adapters, the bounded turn loop, and when it stops (packages/core/src/runtime.ts). */
module Runtime {
  import opened Wrappers
  import opened Policy
  import opened Events
  import opened RoomData
  import opened RoomStore
  import opened RoomSpec
  import opened Turns
  import opened Orchestrator
  import TurnRuns

  /** Why a drive ended. */
  datatype Drive =
    | NotReady
    | Unavailable
    | LimitReached(turns: nat)
    | NotRouting(turns: nat)
    | NoProgress(turns: nat)
    | ProviderFailed(turns: nat)
    | ApprovalPending(turns: nat)
    | Idle(turns: nat)

  function TurnsOf(d: Drive): nat { if d.NotReady? || d.Unavailable? then 0 else d.turns }

  predicate HasPending(db: Db) { exists id :: id in db.approvals && db.approvals[id].status == Pending }

  /** Everyone has an agent, up to the first whose connection cannot be used. */
  function Preparation(ps: seq<Participant>, usable: Id -> bool): Option<Drive> {
    if ps == [] then None
    else if ps[0].agent.None? then Some(NotReady)
    else if !usable(ps[0].agent.value) then Some(Unavailable)
    else Preparation(ps[1..], usable)
  }

  /** Registers every participant's adapter; a missing one ends the drive, an unusable one halts the room as well. */
  method Prepare(store: Store, orchestrator: RoomOrchestrator, usable: Id -> bool) returns (problem: Option<Drive>)
    requires orchestrator.store == store
    modifies store, orchestrator
    ensures problem == Preparation(old(store.participants), usable)
    ensures problem.Some? ==> problem.value.NotReady? || problem.value.Unavailable?
    ensures problem.None? && old(store.participants) != [] ==> orchestrator.runtimes != []
    ensures store.View() == if problem == Some(Unavailable) then HaltRoom(old(store.View())) else old(store.View())
  {
    var ps := store.participants;
    for i := 0 to |ps|
      invariant Preparation(ps, usable) == Preparation(ps[i..], usable)
      invariant store.View() == old(store.View())
      invariant i > 0 ==> orchestrator.runtimes != []
    {
      assert ps[i..][1..] == ps[i + 1..];
      if ps[i].agent.None? { return Some(NotReady); }
      if !usable(ps[i].agent.value) {
        Halt(store);
        return Some(Unavailable);
      }
      orchestrator.Register(ps[i].id, ps[i].role);
    }
    return None;
  }

  /** The last two turns added no event. */
  ghost predicate EndsQuietly(env: Env, db: Db, ops: seq<Op>) { exists k :: TurnRuns.QuietSince(env, db, ops, k, 2) }

  lemma TwoQuietTurns(env: Env, db: Db, ops: seq<Op>, k: nat)
    requires TurnRuns.QuietSince(env, db, ops, k, 2)
    ensures EndsQuietly(env, db, ops) && TurnRuns.Accounts(ops) >= 2
  {
    TurnRuns.AccountsSplit(ops, k);
  }

  /** What `turns` turns of a drive leave: the room after their calls, each turn counted and within the turn budget. */
  ghost predicate Driven(env: Env, db: Db, ops: seq<Op>, turns: nat, now: Db) {
    && now == Run(env, db, ops) && TurnRuns.Accounts(ops) == turns
    && now.room.usage.turns == db.room.usage.turns + turns
    && (turns > 0 ==> now.room.usage.turns <= now.room.budget.maxTurns)
  }

  /** What each way for the turn loop to end says. */
  ghost predicate EndsAs(env: Env, db: Db, ops: seq<Op>, d: Drive, now: Db) {
    match d
    case NotRouting(_) => !Routes(now.room.state)
    case NoProgress(_) => now.room.state != Active
    case ProviderFailed(_) => now.events != [] && now.events[|now.events| - 1].content == FromPlatform(AgentFailure(FAILURE))
    case ApprovalPending(_) => HasPending(now)
    case Idle(turns) => turns >= 2 && EndsQuietly(env, db, ops)
    case _ => true
  }

  /** A drive needs two participants with usable agents; an unusable one halts the room. Otherwise it takes at most
      `maxTurnsPerPickup` turns. */
  method DriveRoom(
    env: Env, digest: string -> string, store: Store, usable: Id -> bool, calls: nat -> Call, clock: nat -> int, maxTurnsPerPickup: nat)
    returns (d: Drive, ghost ops: seq<Op>)
    requires env.Valid() && forall i, op :: op in calls(i).meanwhile ==> !op.OpAccount?
    modifies store
    ensures TurnsOf(d) <= maxTurnsPerPickup && Driven(env, old(store.View()), ops, TurnsOf(d), store.View())
    ensures d.NotReady? <==> |old(store.participants)| < 2 || Preparation(old(store.participants), usable) == Some(NotReady)
    ensures d.NotReady? ==> store.View() == old(store.View())
    ensures d.Unavailable? <==> |old(store.participants)| >= 2 && Preparation(old(store.participants), usable) == Some(Unavailable)
    ensures d.Unavailable? ==> store.View() == HaltRoom(old(store.View()))
    ensures d.LimitReached? ==> d.turns == maxTurnsPerPickup
    ensures EndsAs(env, old(store.View()), ops, d, store.View())
  {
    if |store.participants| < 2 { return NotReady, []; }
    var orchestrator := new RoomOrchestrator(store);
    var problem := Prepare(store, orchestrator, usable);
    if problem.Some? {
      if problem.value.NotReady? { return NotReady, []; }
      TurnRuns.RunOne(env, old(store.View()), OpHalt);
      TurnRuns.NoAccounts([OpHalt]);
      return Unavailable, [OpHalt];
    }
    d, ops := DriveTurns(env, digest, store, orchestrator, calls, clock, maxTurnsPerPickup);
  }

  const FAILURE := "An agent could not complete its turn."

  /** One turn after the calls so far; a failure of the provider is reported where the humans see it. */
  method TakeReportedTurn(
    env: Env, digest: string -> string, store: Store, orchestrator: RoomOrchestrator, call: Call, now: int,
    ghost db: Db, ghost sofar: seq<Op>)
    returns (p: Progress, ghost more: seq<Op>)
    requires env.Valid() && (forall op :: op in call.meanwhile ==> !op.OpAccount?)
    requires orchestrator.store == store && orchestrator.runtimes != []
    requires store.View() == Run(env, db, sofar)
    modifies store, orchestrator
    ensures store.View() == Run(env, db, sofar + more)
    ensures TurnRuns.Accounts(more) == if p == Progressed then 1 else 0
    ensures orchestrator.runtimes != [] && (p == Halted ==> store.room.state != Active)
    ensures p == Progressed ==> store.room.usage.turns == old(store.room.usage.turns) + 1 <= store.room.budget.maxTurns
    ensures p != Progressed ==> store.room.usage.turns == old(store.room.usage.turns) && store.room.budget == old(store.room.budget)
    ensures p == Failed ==> store.events != [] && store.events[|store.events| - 1].content == FromPlatform(AgentFailure(FAILURE))
  {
    p, more := orchestrator.TakeTurn(env, digest, call, now);
    TurnRuns.RunConcat(env, db, sofar, more);
    if p == Failed {
      var report := OpReport(FAILURE);
      TurnRuns.RunOne(env, store.View(), report);
      TurnRuns.RunConcat(env, db, sofar + more, [report]);
      assert sofar + more + [report] == sofar + (more + [report]);
      TurnRuns.AccountsConcat(more, [report]);
      TurnRuns.NoAccounts([report]);
      more := more + [report];
      ReportFailure(store, FAILURE);
    }
  }

  /** A turn that is counted; the calls from `mark` on are those of the last `idle` turns, which added no event. */
  method TakeCountedTurn(
    env: Env, digest: string -> string, store: Store, orchestrator: RoomOrchestrator, call: Call, now: int,
    ghost db: Db, ghost sofar: seq<Op>, ghost turns: nat, ghost mark: nat, ghost idle: nat)
    returns (p: Progress, ghost ops: seq<Op>, ghost mark': nat)
    requires env.Valid() && (forall op :: op in call.meanwhile ==> !op.OpAccount?)
    requires orchestrator.store == store && orchestrator.runtimes != []
    requires Driven(env, db, sofar, turns, store.View()) && TurnRuns.QuietSince(env, db, sofar, mark, idle)
    modifies store, orchestrator
    ensures Driven(env, db, ops, if p == Progressed then turns + 1 else turns, store.View())
    ensures p == Progressed ==>
      TurnRuns.QuietSince(env, db, ops, mark', if |store.events| == |old(store.events)| then idle + 1 else 0)
    ensures orchestrator.runtimes != []
    ensures p == Halted ==> EndsAs(env, db, ops, NoProgress(turns), store.View())
    ensures p == Failed ==> EndsAs(env, db, ops, ProviderFailed(turns), store.View())
  {
    ghost var more;
    p, more := TakeReportedTurn(env, digest, store, orchestrator, call, now, db, sofar);
    ops, mark' := sofar + more, mark;
    TurnRuns.AccountsConcat(sofar, more);
    if p == Progressed {
      if |store.events| == |old(store.events)| {
        TurnRuns.QuietTurn(env, db, sofar, more, mark, idle);
      } else {
        mark' := |ops|;
        TurnRuns.QuietNow(env, db, ops);
      }
    }
  }

  method AnyPending(store: Store) returns (pending: bool)
    ensures pending == HasPending(store.View())
  {
    pending := exists id :: id in store.approvals && store.approvals[id].status == Pending;
  }

  /** A round of the turn loop in a routing room: the reason to end, or the number of idle turns. */
  method NextRound(
    env: Env, digest: string -> string, store: Store, orchestrator: RoomOrchestrator, call: Call, now: int, turns: nat, idle: nat,
    ghost db: Db, ghost sofar: seq<Op>, ghost mark: nat)
    returns (end: Option<Drive>, idle': nat, ghost ops: seq<Op>, ghost mark': nat)
    requires env.Valid() && (forall op :: op in call.meanwhile ==> !op.OpAccount?)
    requires orchestrator.store == store && orchestrator.runtimes != [] && idle <= 1
    requires Driven(env, db, sofar, turns, store.View()) && TurnRuns.QuietSince(env, db, sofar, mark, idle)
    modifies store, orchestrator
    ensures end.None? ==> Driven(env, db, ops, turns + 1, store.View())
    ensures end.None? ==> idle' <= 1 && TurnRuns.QuietSince(env, db, ops, mark', idle') && orchestrator.runtimes != []
    ensures end.Some? ==> !end.value.NotReady? && !end.value.Unavailable? && !end.value.LimitReached?
    ensures end.Some? ==> end.value.turns <= turns + 1 && Driven(env, db, ops, end.value.turns, store.View())
    ensures end.Some? ==> EndsAs(env, db, ops, end.value, store.View())
  {
    var before := |store.events|;
    var p;
    p, ops, mark' := TakeCountedTurn(env, digest, store, orchestrator, call, now, db, sofar, turns, mark, idle);
    if p == Failed { return Some(ProviderFailed(turns)), idle, ops, mark'; }
    if p == Halted { return Some(NoProgress(turns)), idle, ops, mark'; }
    var pending := AnyPending(store);
    if pending { return Some(ApprovalPending(turns + 1)), idle, ops, mark'; }
    idle' := if |store.events| == before then idle + 1 else 0;
    if idle' < 2 { return None, idle', ops, mark'; }
    TwoQuietTurns(env, db, ops, mark');
    return Some(Idle(turns + 1)), idle', ops, mark';
  }

  /** The bounded turn loop. */
  method DriveTurns(
    env: Env, digest: string -> string, store: Store, orchestrator: RoomOrchestrator, calls: nat -> Call, clock: nat -> int,
    maxTurnsPerPickup: nat)
    returns (d: Drive, ghost ops: seq<Op>)
    requires env.Valid() && forall i, op :: op in calls(i).meanwhile ==> !op.OpAccount?
    requires orchestrator.store == store && orchestrator.runtimes != []
    modifies store, orchestrator
    ensures !d.NotReady? && !d.Unavailable?
    ensures TurnsOf(d) <= maxTurnsPerPickup && Driven(env, old(store.View()), ops, TurnsOf(d), store.View())
    ensures d.LimitReached? ==> d.turns == maxTurnsPerPickup
    ensures EndsAs(env, old(store.View()), ops, d, store.View())
  {
    ghost var db := store.View();
    ghost var mark: nat := 0;
    var idle: nat, turns: nat := 0, 0;
    ops := [];
    while turns < maxTurnsPerPickup
      invariant turns <= maxTurnsPerPickup && idle <= 1
      invariant Driven(env, db, ops, turns, store.View()) && TurnRuns.QuietSince(env, db, ops, mark, idle)
      invariant orchestrator.runtimes != []
    {
      if store.room.state != Active && store.room.state != CompletionProposed { return NotRouting(turns), ops; }
      var end;
      end, idle, ops, mark := NextRound(env, digest, store, orchestrator, calls(turns), clock(turns), turns, idle, db, ops, mark);
      if end.Some? { return end.value, ops; }
      turns := turns + 1;
    }
    return LimitReached(turns), ops;
  }
}
