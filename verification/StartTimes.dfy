/** When a room's clock runs, and hence when the duration limit applies (packages/core/src/rooms.ts,
    packages/shared/src/room.ts). */
module StartTimes {
  import opened Wrappers
  import opened Policy
  import opened Events
  import opened RoomData
  import opened RoomSpec
  import opened Turns
  import Contracts = RoomContracts
  import Lifecycle = RoomLifecycle
  import Limits = TurnLimits

  /** A start that takes effect. */
  predicate Starts(db: Db, op: Op) {
    op.OpStart? && Find(db.participants, op.caller).Some? && db.room.state == Ready
  }

  predicate Started(db: Db) { db.room.usage.startedAtMs.Some? }

  lemma StartSets(db: Db, caller: Id, now: int)
    ensures StartRoom(db, caller, now).0.room.usage.startedAtMs ==
      if Starts(db, OpStart(caller, now)) then Some(now) else db.room.usage.startedAtMs
  {
  }

  /** Exactly a participant's start in READY sets the start time, to its own moment; no other call touches it. */
  lemma StartTimeAfter(env: Env, db: Db, op: Op)
    requires env.Valid()
    ensures Exec(env, db, op).room.usage.startedAtMs == if Starts(db, op) then Some(op.now) else db.room.usage.startedAtMs
  {
    if op.OpStart? { StartSets(db, op.caller, op.now); } else if !op.OpAccount? { Limits.StepSameUsage(env, db, op); }
  }

  // ---------------------------------------------------------------------------------------------
  // Past READY
  // ---------------------------------------------------------------------------------------------

  predicate Later(s: RoomState) { !Negotiable(s) && s != Ready }

  lemma SetupKeepsLater(env: Env, db: Db, op: Op)
    requires Later(db.room.state) && (op.OpInvite? || op.OpRedeem?)
    ensures Later(Exec(env, db, op).room.state)
  {
  }

  lemma MoveKeepsLater(env: Env, db: Db, op: Op)
    requires Later(db.room.state) && (op.OpStart? || op.OpClose?)
    ensures Later(Exec(env, db, op).room.state)
  {
  }

  lemma LaterStateStays(env: Env, db: Db, op: Op)
    requires env.Valid() && Lifecycle.PartiesOk(db) && Later(db.room.state)
    ensures Later(Exec(env, db, op).room.state)
  {
    if op.OpInvite? || op.OpRedeem? { SetupKeepsLater(env, db, op); }
    else if op.OpStart? || op.OpClose? { MoveKeepsLater(env, db, op); }
    else { Lifecycle.OtherStepIsQuiet(env, db, op); }
  }

  /** Past READY nothing sets or changes the start time any more. */
  lemma {:induction false} StartTimeStays(env: Env, db: Db, ops: seq<Op>)
    requires env.Valid() && Lifecycle.Inv(db) && Later(db.room.state)
    ensures Run(env, db, ops).room.usage.startedAtMs == db.room.usage.startedAtMs
    decreases |ops|
  {
    if ops != [] {
      StartTimeAfter(env, db, ops[0]);
      LaterStateStays(env, db, ops[0]);
      Lifecycle.StepKeepsInv(env, db, ops[0]);
      StartTimeStays(env, Exec(env, db, ops[0]), ops[1..]);
    }
  }

  lemma StartedIsLater(db: Db, op: Op, env: Env)
    requires Starts(db, op)
    ensures Later(Exec(env, db, op).room.state)
  {
  }

  // ---------------------------------------------------------------------------------------------
  // Main results
  // ---------------------------------------------------------------------------------------------

  /** The moment of the first start in a run that takes effect. */
  function FirstStart(env: Env, db: Db, ops: seq<Op>): Option<int>
    decreases |ops|
  {
    if ops == [] then None
    else if Starts(db, ops[0]) then Some(ops[0].now)
    else FirstStart(env, Exec(env, db, ops[0]), ops[1..])
  }

  lemma {:induction false} StartTimeFrom(env: Env, db: Db, ops: seq<Op>)
    requires env.Valid() && Lifecycle.Inv(db) && !Started(db)
    ensures Run(env, db, ops).room.usage.startedAtMs == FirstStart(env, db, ops)
    decreases |ops|
  {
    if ops != [] {
      var next := Exec(env, db, ops[0]);
      StartTimeAfter(env, db, ops[0]);
      Lifecycle.StepKeepsInv(env, db, ops[0]);
      if Starts(db, ops[0]) {
        StartedIsLater(db, ops[0], env);
        StartTimeStays(env, next, ops[1..]);
      } else {
        StartTimeFrom(env, next, ops[1..]);
      }
    }
  }

  /** Over every run a room has a start time exactly if some call was a participant's start in READY, and it is that
      call's moment. */
  lemma StartTimeIsFirstStart(env: Env, org: OrgId, budget: Budget, ops: seq<Op>)
    requires env.Valid()
    ensures Run(env, CreateRoom(org, budget), ops).room.usage.startedAtMs == FirstStart(env, CreateRoom(org, budget), ops)
  {
    Lifecycle.CreatedIsInv(org, budget);
    StartTimeFrom(env, CreateRoom(org, budget), ops);
  }

  /** A start time, once set, never changes, whatever is called. */
  lemma StartTimeNeverChanges(env: Env, org: OrgId, budget: Budget, ops: seq<Op>, more: seq<Op>)
    requires env.Valid() && Started(Run(env, CreateRoom(org, budget), ops))
    ensures var db := Run(env, CreateRoom(org, budget), ops);
      Run(env, db, more).room.usage.startedAtMs == db.room.usage.startedAtMs
  {
    Lifecycle.CreatedIsInv(org, budget);
    Lifecycle.RunKeepsInv(env, CreateRoom(org, budget), ops);
    StartedIsPastReady(env, CreateRoom(org, budget), ops);
    StartTimeStays(env, Run(env, CreateRoom(org, budget), ops), more);
  }

  lemma {:induction false} StartedIsPastReady(env: Env, db: Db, ops: seq<Op>)
    requires env.Valid() && Lifecycle.Inv(db) && (Started(db) ==> Later(db.room.state))
    ensures Started(Run(env, db, ops)) ==> Later(Run(env, db, ops).room.state)
    decreases |ops|
  {
    if ops != [] {
      var next := Exec(env, db, ops[0]);
      StartTimeAfter(env, db, ops[0]);
      Lifecycle.StepKeepsInv(env, db, ops[0]);
      if Starts(db, ops[0]) { StartedIsLater(db, ops[0], env); } else if Started(db) { LaterStateStays(env, db, ops[0]); }
      StartedIsPastReady(env, next, ops[1..]);
    }
  }

  /** No limit but the duration is reached. */
  predicate OtherwiseWithin(b: Budget, u: Usage) { u.turns < b.maxTurns && u.toolCalls < b.maxToolCalls && u.spend < b.maxSpend }

  /** The duration limit can be reached at all exactly if there is a start time. */
  lemma DurationNeedsStart(b: Budget, u: Usage)
    requires OtherwiseWithin(b, u)
    ensures (exists now :: BudgetExceeded(b, u, now) == Some(MaxDuration)) <==> u.startedAtMs.Some?
  {
    if u.startedAtMs.Some? {
      assert BudgetExceeded(b, u, u.startedAtMs.value + b.maxDurationMinutes * 60_000) == Some(MaxDuration);
    }
  }

  /** Over every run, in a room within its other limits: there is a moment at which the duration limit stops the next turn
      exactly if some call was a participant's start in READY. */
  lemma DurationLimitsIff(env: Env, org: OrgId, budget: Budget, ops: seq<Op>)
    requires env.Valid()
    requires var room := Run(env, CreateRoom(org, budget), ops).room; OtherwiseWithin(room.budget, room.usage)
    ensures var room := Run(env, CreateRoom(org, budget), ops).room;
      (exists now :: BudgetExceeded(room.budget, room.usage, now) == Some(MaxDuration)) <==>
        FirstStart(env, CreateRoom(org, budget), ops).Some?
  {
    StartTimeIsFirstStart(env, org, budget, ops);
    var room := Run(env, CreateRoom(org, budget), ops).room;
    DurationNeedsStart(room.budget, room.usage);
  }

  // ---------------------------------------------------------------------------------------------
  // Two ways to work without a start time
  // ---------------------------------------------------------------------------------------------

  /** Resuming is allowed in READY too and makes the room ACTIVE without a start time. From then on, whatever is called,
      the duration limit is never reached. */
  lemma ResumedRoomHasNoDuration(env: Env, db: Db, caller: Id, ops: seq<Op>, now: int)
    requires env.Valid() && Lifecycle.Inv(db) && db.room.state == Ready && !Started(db) && Find(db.participants, caller).Some?
    ensures Exec(env, db, OpResume(caller)).room.state == Active
    ensures var db' := Run(env, Exec(env, db, OpResume(caller)), ops);
      BudgetExceeded(db'.room.budget, db'.room.usage, now) != Some(MaxDuration)
  {
    StartTimeAfter(env, db, OpResume(caller));
    Lifecycle.StepKeepsInv(env, db, OpResume(caller));
    StartTimeStays(env, Exec(env, db, OpResume(caller)), ops);
  }

  /** Three blocked secrets, a pause and a resume. */
  function Detour(env: Env, db: Db, sender: Id, body: Body): Db {
    var say := OpSubmit(sender, Some(Candidate(body, None)), 0);
    Run(env, Run(env, db, [say, say, say]), [OpPause(sender), OpResume(sender)])
  }

  lemma {:induction false} WithoutStart(env: Env, db: Db, ops: seq<Op>)
    requires env.Valid() && !Started(db) && forall op :: op in ops ==> !op.OpStart?
    ensures !Started(Run(env, db, ops))
    decreases |ops|
  {
    if ops != [] {
      StartTimeAfter(env, db, ops[0]);
      WithoutStart(env, Exec(env, db, ops[0]), ops[1..]);
    }
  }

  /** The other way leads through quarantine, from READY or from NEGOTIATING, and nobody resumes a READY room. */
  lemma QuarantinedRoomHasNoDuration(env: Env, db: Db, sender: Participant, body: Body, ops: seq<Op>, now: int)
    requires env.Valid() && Lifecycle.Inv(db) && (db.room.state == Ready || db.room.state == Negotiating) && !Started(db)
    requires Find(db.participants, sender.id) == Some(sender) && sender.policy.Some? && db.contracts != []
    requires !body.DataResponse? && |env.scan(body, None).secretFindings| > 0
    ensures Detour(env, db, sender.id, body).room.state == Active
    ensures var db' := Run(env, Detour(env, db, sender.id, body), ops);
      BudgetExceeded(db'.room.budget, db'.room.usage, now) != Some(MaxDuration)
  {
    var say, leave := OpSubmit(sender.id, Some(Candidate(body, None)), 0), [OpPause(sender.id), OpResume(sender.id)];
    var quarantined := Run(env, db, [say, say, say]);
    DetourIsActive(env, db, sender, body);
    WithoutStart(env, db, [say, say, say]);
    WithoutStart(env, quarantined, leave);
    Lifecycle.RunKeepsInv(env, db, [say, say, say]);
    Lifecycle.RunKeepsInv(env, quarantined, leave);
    StartTimeStays(env, Detour(env, db, sender.id, body), ops);
  }

  lemma DetourIsActive(env: Env, db: Db, sender: Participant, body: Body)
    requires db.room.state == Ready || db.room.state == Negotiating
    requires Find(db.participants, sender.id) == Some(sender) && sender.policy.Some? && db.contracts != []
    requires !body.DataResponse? && |env.scan(body, None).secretFindings| > 0
    ensures Detour(env, db, sender.id, body).room.state == Active
  {
    var say := OpSubmit(sender.id, Some(Candidate(body, None)), 0);
    var db1 := Contracts.Said(env, db, sender, body);
    var db2 := Contracts.Said(env, db1, sender, body);
    var db3 := Contracts.Said(env, db2, sender, body);
    Contracts.ThreeSteps(env, db, say, say, say);
    Contracts.TwoSteps(env, db3, OpPause(sender.id), OpResume(sender.id));
    Contracts.PauseAndResume(env, db3, sender.id);
  }
}
