/** Turn and spend budgets and alternation over whole runs of one driver at a time. */
module TurnLimits {
  import opened Wrappers
  import opened Policy
  import opened Events
  import opened RoomData
  import opened RoomSpec
  import opened RoomEffects
  import opened Turns

  // ---------------------------------------------------------------------------------------------
  // Only turns are accounted
  // ---------------------------------------------------------------------------------------------

  predicate SameUsage(db: Db, db': Db) { db'.room.budget == db.room.budget && db'.room.usage == db.room.usage }

  lemma EffectSameUsage(env: Env, db: Db, e: Effect)
    requires EffectOk(env, db, e)
    ensures SameUsage(db, Apply(env, db, e))
  {
    match e
    case Authorizing(id, user, now) =>
      var a := db.approvals[id];
      var released := Released(Decided(db, id, Approved, user, now), a.requestedBy, a.body, env.scan(a.body, None).classification);
      SideEffectsSameUsage(Noted(released, ActionAuthorized(id, ActionOf(a.body), db.nextId)), a.requestedBy, a.body);
    case Releasing(sender, body, labels) => SideEffectsSameUsage(Released(db, sender, body, labels), sender, body);
    case _ =>
  }

  lemma SideEffectsSameUsage(db: Db, sender: Id, body: Body)
    ensures SameUsage(db, SideEffects(db, sender, body))
  {
  }

  lemma SetupSameUsage(env: Env, db: Db, op: Op)
    requires op.OpInvite? || op.OpRedeem? || op.OpPropose?
    ensures SameUsage(db, Exec(env, db, op))
  {
  }

  lemma MarkReadySameUsage(db: Db, p: Participant)
    ensures SameUsage(db, MarkReady(StoreParticipant(db, p)))
  {
  }

  lemma ApproveContractSameUsage(db: Db, caller: Id, version: int)
    ensures SameUsage(db, ApproveContract(db, caller, version).0)
  {
    var p := Find(db.participants, caller);
    if p.Some? { MarkReadySameUsage(db, p.value.(contractApproved := Some(version))); }
  }

  lemma SetPolicySameUsage(db: Db, caller: Id, policy: Option<ParticipantPolicy>)
    ensures SameUsage(db, SetPolicy(db, caller, policy).0)
  {
    var p := Find(db.participants, caller);
    if p.Some? { MarkReadySameUsage(db, p.value.(policy := policy)); }
  }

  lemma ConnectSameUsage(db: Db, caller: Id, agent: Id, owned: bool)
    ensures SameUsage(db, ConnectAgent(db, caller, agent, owned).0)
  {
    var p := Find(db.participants, caller);
    if p.Some? { MarkReadySameUsage(db, p.value.(agent := Some(agent))); }
  }

  lemma TermsSameUsage(env: Env, db: Db, op: Op)
    requires op.OpApproveContract? || op.OpSetPolicy? || op.OpConnect?
    ensures SameUsage(db, Exec(env, db, op))
  {
    match op
    case OpApproveContract(caller, version) => ApproveContractSameUsage(db, caller, version);
    case OpSetPolicy(caller, policy) => SetPolicySameUsage(db, caller, policy);
    case OpConnect(caller, agent, owned) => ConnectSameUsage(db, caller, agent, owned);
  }

  lemma ChangeSameUsage(db: Db, caller: Id, to: RoomState)
    requires to.Paused? || to.Active? || to.Canceled?
    ensures SameUsage(db, ChangeState(db, caller, to).0)
  {
  }

  lemma CloseSameUsage(db: Db, caller: Id, now: int)
    ensures SameUsage(db, CloseRoom(db, caller, now).0)
  {
  }

  lemma MoveSameUsage(env: Env, db: Db, op: Op)
    requires !SetsUp(op) && !Works(op) && !op.OpStart?
    ensures SameUsage(db, Exec(env, db, op))
  {
    match op
    case OpPause(caller) => ChangeSameUsage(db, caller, Paused);
    case OpResume(caller) => ChangeSameUsage(db, caller, Active);
    case OpCancel(caller) => ChangeSameUsage(db, caller, Canceled);
    case OpClose(caller, now) => CloseSameUsage(db, caller, now);
    case _ =>
  }

  lemma SubmitSameUsage(env: Env, db: Db, sender: Id, candidate: Option<Candidate>, now: int)
    requires env.Valid()
    ensures SameUsage(db, Submit(env, db, sender, candidate, now).0)
  {
    var e := SubmitEffect(env, db, sender, candidate, now);
    EffectSameUsage(env, db, e);
  }

  lemma DecideSameUsage(env: Env, db: Db, org: OrgId, user: UserId, id: Id, approve: bool, now: int)
    ensures SameUsage(db, DecideApproval(env, db, org, user, id, approve, now).0)
  {
    var e := DecideEffect(env, db, org, user, id, approve, now);
    EffectSameUsage(env, db, e);
  }

  lemma WorkSameUsage(env: Env, db: Db, op: Op)
    requires env.Valid() && Works(op) && !op.OpAccount?
    ensures SameUsage(db, Exec(env, db, op))
  {
    match op
    case OpSubmit(sender, candidate, now) => SubmitSameUsage(env, db, sender, candidate, now);
    case OpDecide(org, user, id, approve, now) => DecideSameUsage(env, db, org, user, id, approve, now);
    case _ =>
  }

  /** No call but a start and an account changes what has been used. */
  lemma StepSameUsage(env: Env, db: Db, op: Op)
    requires env.Valid() && !op.OpAccount? && !op.OpStart?
    ensures SameUsage(db, Exec(env, db, op))
  {
    if Works(op) { WorkSameUsage(env, db, op); }
    else if op.OpInvite? || op.OpRedeem? || op.OpPropose? { SetupSameUsage(env, db, op); }
    else if SetsUp(op) { TermsSameUsage(env, db, op); }
    else { MoveSameUsage(env, db, op); }
  }

  /** The limits, and the counters that they limit. */
  predicate SameCounters(db: Db, db': Db) {
    var u, u' := db.room.usage, db'.room.usage;
    db'.room.budget == db.room.budget && u'.turns == u.turns && u'.toolCalls == u.toolCalls && u'.spend == u.spend
  }

  lemma StartSameCounters(db: Db, caller: Id, now: int)
    ensures SameCounters(db, StartRoom(db, caller, now).0)
  {
  }

  lemma StepSameCounters(env: Env, db: Db, op: Op)
    requires env.Valid() && !op.OpAccount?
    ensures SameCounters(db, Exec(env, db, op))
  {
    if op.OpStart? { StartSameCounters(db, op.caller, op.now); } else { StepSameUsage(env, db, op); }
  }

  // ---------------------------------------------------------------------------------------------
  // A room with one driver
  // ---------------------------------------------------------------------------------------------

  /** `inFlight` is the participant whose adapter is being called; `ran` lists whom the present orchestrator has
      selected, and `lastCost` is what the last accounted turn cost. */
  datatype World = World(db: Db, driver: Driver, inFlight: Option<Id>, ran: seq<Id>, lastCost: real)

  /** Anything that is not a turn may happen at any time, also while an adapter is being called. */
  datatype Action =
    | Serves(op: Op)
    | Restarts(runtimes: seq<Runtime>)
    | Begins(now: int)
    | Finishes(answer: Answer, now: int)
    | Fails

  predicate Distinct(rs: seq<Runtime>) { forall i, j :: 0 <= i < j < |rs| ==> rs[i].id != rs[j].id }

  function Beginning(digest: string -> string, w: World, now: int): World {
    var (db, d, begun) := Begin(digest, w.db, w.driver, now);
    World(db, d, if begun.Turning? then Some(begun.id) else None,
          if begun.Stopped? then w.ran else w.ran + [d.lastRan.value], w.lastCost)
  }

  function Finishing(env: Env, w: World, id: Id, answer: Answer, now: int): World {
    var (db, d) := Finish(env, w.db, w.driver, id, answer, now);
    World(db, d, None, w.ran, answer.cost)
  }

  function Next(env: Env, digest: string -> string, w: World, a: Action): World {
    match a
    case Serves(op) => if op.OpAccount? then w else w.(db := Exec(env, w.db, op))
    case Restarts(rs) => if w.inFlight.Some? || !Distinct(rs) then w else World(w.db, Driver(rs, None), None, [], w.lastCost)
    case Begins(now) => if w.inFlight.Some? then w else Beginning(digest, w, now)
    case Finishes(answer, now) => if w.inFlight.None? then w else Finishing(env, w, w.inFlight.value, answer, now)
    case Fails => w.(inFlight := None)
  }

  function Run(env: Env, digest: string -> string, w: World, acts: seq<Action>): World
    decreases |acts|
  {
    if acts == [] then w else Run(env, digest, Next(env, digest, w, acts[0]), acts[1..])
  }

  function Created(org: OrgId, budget: Budget): World { World(CreateRoom(org, budget), Driver([], None), None, [], 0.0) }

  // ---------------------------------------------------------------------------------------------
  // Turns and spend
  // ---------------------------------------------------------------------------------------------

  function Max(a: int, b: int): int { if a < b then b else a }

  predicate WithinBudget(budget: Budget, w: World) {
    var u := w.db.room.usage;
    && w.db.room.budget == budget && u.turns <= Max(0, budget.maxTurns)
    && (w.inFlight.Some? ==> u.turns < budget.maxTurns && u.spend < budget.maxSpend)
    && (u.turns > 0 ==> u.spend < budget.maxSpend + w.lastCost)
  }

  lemma {:induction false} SubmitAllSameUsage(env: Env, db: Db, rs: seq<Runtime>, id: Id, candidates: seq<Option<Candidate>>, now: int)
    requires env.Valid()
    ensures SameCounters(db, SubmitAll(env, db, rs, id, candidates, now).0)
    decreases |candidates|
  {
    if candidates != [] {
      var n := |candidates| - 1;
      SubmitAllSameUsage(env, db, rs, id, candidates[..n], now);
      SubmitSameUsage(env, SubmitAll(env, db, rs, id, candidates[..n], now).0, id, candidates[n], now);
    }
  }

  /** A finished turn adds exactly one turn and its cost. */
  lemma FinishCounts(env: Env, db: Db, d: Driver, id: Id, answer: Answer, now: int)
    requires env.Valid()
    ensures var db' := Finish(env, db, d, id, answer, now).0;
      && db'.room.budget == db.room.budget && db'.room.usage.turns == db.room.usage.turns + 1
      && db'.room.usage.spend == db.room.usage.spend + answer.cost && db'.room.usage.toolCalls == db.room.usage.toolCalls
  {
    SubmitAllSameUsage(env, AccountTurn(db, answer.cost), d.runtimes, id, FirstFour(answer.events), now);
  }

  lemma BeginCounts(digest: string -> string, db: Db, d: Driver, now: int)
    ensures var (db', d', begun) := Begin(digest, db, d, now);
      && SameCounters(db, db')
      && (begun.Turning? ==> db' == db && BudgetExceeded(db.room.budget, db.room.usage, now).None?)
  {
    if Obstacle(digest, db, now).Some? { assert SameCounters(db, PauseForBudget(db, Obstacle(digest, db, now).value)); }
  }

  lemma {:induction false} ServingCounts(env: Env, db: Db, ops: seq<Op>)
    requires env.Valid() && forall op :: op in ops ==> !op.OpAccount?
    ensures SameCounters(db, RoomSpec.Run(env, db, ops))
    decreases |ops|
  {
    if ops != [] {
      StepSameCounters(env, db, ops[0]);
      ServingCounts(env, Exec(env, db, ops[0]), ops[1..]);
    }
  }

  /** A whole turn: one that makes progress adds exactly one turn, and was below the limit; any other adds none. */
  lemma TurnCounts(env: Env, digest: string -> string, db: Db, d: Driver, call: Call, now: int)
    requires env.Valid() && forall op :: op in call.meanwhile ==> !op.OpAccount?
    ensures var (db', _, p) := Turn(env, digest, db, d, call, now);
      && db'.room.budget == db.room.budget
      && (p == Progressed ==> db'.room.usage.turns == db.room.usage.turns + 1 <= db.room.budget.maxTurns)
      && (p != Progressed ==> db'.room.usage.turns == db.room.usage.turns)
  {
    BeginCounts(digest, db, d, now);
    var (db1, d1, begun) := Begin(digest, db, d, now);
    if begun.Turning? {
      ServingCounts(env, db1, call.meanwhile);
      if call.answer.Some? { FinishCounts(env, RoomSpec.Run(env, db1, call.meanwhile), d1, begun.id, call.answer.value, call.now); }
    }
  }

  lemma StepWithinBudget(env: Env, digest: string -> string, budget: Budget, w: World, a: Action)
    requires env.Valid() && WithinBudget(budget, w)
    ensures WithinBudget(budget, Next(env, digest, w, a))
  {
    match a
    case Serves(op) => if !op.OpAccount? { StepSameCounters(env, w.db, op); }
    case Begins(now) => BeginCounts(digest, w.db, w.driver, now);
    case Finishes(answer, now) =>
      if w.inFlight.Some? { FinishCounts(env, w.db, w.driver, w.inFlight.value, answer, now); }
    case _ =>
  }

  lemma {:induction false} RunWithinBudget(env: Env, digest: string -> string, budget: Budget, w: World, acts: seq<Action>)
    requires env.Valid() && WithinBudget(budget, w)
    ensures WithinBudget(budget, Run(env, digest, w, acts))
    decreases |acts|
  {
    if acts != [] {
      StepWithinBudget(env, digest, budget, w, acts[0]);
      RunWithinBudget(env, digest, budget, Next(env, digest, w, acts[0]), acts[1..]);
    }
  }

  /** Across all pauses, resumes, restarts, failures and whatever else is called, with one driver at a time: never more
      than `maxTurns` turns are counted, and the spend stays below the limit plus the cost of the last turn. */
  lemma BudgetHolds(env: Env, digest: string -> string, org: OrgId, budget: Budget, acts: seq<Action>)
    requires env.Valid()
    ensures var w := Run(env, digest, Created(org, budget), acts);
      && w.db.room.budget == budget
      && w.db.room.usage.turns <= Max(0, budget.maxTurns)
      && (w.db.room.usage.turns > 0 ==> w.db.room.usage.spend < budget.maxSpend + w.lastCost)
  {
    RunWithinBudget(env, digest, budget, Created(org, budget), acts);
  }

  // ---------------------------------------------------------------------------------------------
  // Alternation
  // ---------------------------------------------------------------------------------------------

  predicate Alternates(ran: seq<Id>) { forall i :: 0 < i < |ran| ==> ran[i] != ran[i - 1] }

  predicate SameIds(rs: seq<Runtime>, rs': seq<Runtime>) { |rs| == |rs'| && forall i :: 0 <= i < |rs| ==> rs'[i].id == rs[i].id }

  /** Everyone selected is registered, the last one is remembered, and with two or more nobody is selected twice in a row. */
  predicate TakesTurns(w: World) {
    && Distinct(w.driver.runtimes)
    && (forall i :: 0 <= i < |w.ran| ==> Registered(w.driver.runtimes, w.ran[i]))
    && w.driver.lastRan == (if w.ran == [] then None else Some(w.ran[|w.ran| - 1]))
    && (|w.driver.runtimes| >= 2 ==> Alternates(w.ran))
  }

  lemma {:induction false} SubmitAllSameIds(env: Env, db: Db, rs: seq<Runtime>, id: Id, candidates: seq<Option<Candidate>>, now: int)
    ensures SameIds(rs, SubmitAll(env, db, rs, id, candidates, now).1)
    decreases |candidates|
  {
    if candidates != [] { SubmitAllSameIds(env, db, rs, id, candidates[..|candidates| - 1], now); }
  }

  lemma SameIdsRegister(rs: seq<Runtime>, rs': seq<Runtime>, id: Id)
    requires SameIds(rs, rs') && Registered(rs, id)
    ensures Registered(rs', id)
  {
    var i :| 0 <= i < |rs| && rs[i].id == id;
    assert rs'[i] in rs';
  }

  lemma RenamedTakesTurns(w: World, w': World)
    requires TakesTurns(w) && SameIds(w.driver.runtimes, w'.driver.runtimes)
    requires w'.ran == w.ran && w'.driver.lastRan == w.driver.lastRan
    ensures TakesTurns(w')
  {
    forall i | 0 <= i < |w.ran| ensures Registered(w'.driver.runtimes, w'.ran[i]) {
      SameIdsRegister(w.driver.runtimes, w'.driver.runtimes, w.ran[i]);
    }
  }

  /** With two or more participants, whoever ran last is not next. */
  lemma NextIsAnother(d: Driver, events: seq<Event>)
    requires Distinct(d.runtimes) && NextParticipant(d, events).Some?
    ensures NextParticipant(d, events).value in d.runtimes
    ensures |d.runtimes| >= 2 ==> d.lastRan != Some(NextParticipant(d, events).value.id)
  {
    if |d.runtimes| >= 2 && d.lastRan.Some? {
      assert d.runtimes[0] in d.runtimes && d.runtimes[1] in d.runtimes && d.runtimes[0].id != d.runtimes[1].id;
    }
  }

  lemma StepTakesTurns(env: Env, digest: string -> string, w: World, a: Action)
    requires TakesTurns(w)
    ensures TakesTurns(Next(env, digest, w, a))
  {
    match a
    case Begins(now) => if w.inFlight.None? { BeginTakesTurns(digest, w, now); }
    case Finishes(answer, now) =>
      if w.inFlight.Some? { FinishTakesTurns(env, w, w.inFlight.value, answer, now); }
    case _ =>
  }

  lemma FinishTakesTurns(env: Env, w: World, id: Id, answer: Answer, now: int)
    requires TakesTurns(w)
    ensures TakesTurns(Finishing(env, w, id, answer, now))
  {
    SubmitAllSameIds(env, AccountTurn(w.db, answer.cost), w.driver.runtimes, id, FirstFour(answer.events), now);
    RenamedTakesTurns(w, Finishing(env, w, id, answer, now));
  }

  lemma SelectIsAnother(db: Db, d: Driver)
    requires Distinct(d.runtimes) && !Select(db, d).1.Stopped?
    ensures var d' := Select(db, d).0;
      && SameIds(d.runtimes, d'.runtimes) && d'.lastRan.Some? && Registered(d.runtimes, d'.lastRan.value)
      && (|d.runtimes| >= 2 ==> d.lastRan != d'.lastRan)
  {
    NextIsAnother(d, db.events);
  }

  lemma SelectedTakesTurns(w: World, w': World)
    requires TakesTurns(w) && SameIds(w.driver.runtimes, w'.driver.runtimes)
    requires w'.driver.lastRan.Some? && w'.ran == w.ran + [w'.driver.lastRan.value]
    requires Registered(w.driver.runtimes, w'.driver.lastRan.value)
    requires |w.driver.runtimes| >= 2 ==> w.driver.lastRan != w'.driver.lastRan
    ensures TakesTurns(w')
  {
    forall i | 0 <= i < |w'.ran| ensures Registered(w'.driver.runtimes, w'.ran[i]) {
      SameIdsRegister(w.driver.runtimes, w'.driver.runtimes, w'.ran[i]);
    }
  }

  lemma BeginTakesTurns(digest: string -> string, w: World, now: int)
    requires TakesTurns(w)
    ensures TakesTurns(Beginning(digest, w, now))
  {
    var w' := Beginning(digest, w, now);
    if !Begin(digest, w.db, w.driver, now).2.Stopped? {
      SelectIsAnother(w.db, w.driver);
      SelectedTakesTurns(w, w');
    }
  }

  lemma {:induction false} RunTakesTurns(env: Env, digest: string -> string, w: World, acts: seq<Action>)
    requires TakesTurns(w)
    ensures TakesTurns(Run(env, digest, w, acts))
    decreases |acts|
  {
    if acts != [] {
      StepTakesTurns(env, digest, w, acts[0]);
      RunTakesTurns(env, digest, Next(env, digest, w, acts[0]), acts[1..]);
    }
  }

  lemma CountOfLonger(ran: seq<Id>, n: nat, x: Id)
    requires |ran| == n + 1
    ensures Count(ran, x) == Count(ran[..n], x) + if ran[n] == x then 1 else 0
  {
    assert ran == ran[..n] + [ran[n]];
  }

  /** In a sequence over two ids that never repeats one, the last one is ahead by at most one. */
  lemma {:induction false} AlternatingCounts(ran: seq<Id>, a: Id, b: Id)
    requires a != b && Alternates(ran) && forall i :: 0 <= i < |ran| ==> ran[i] == a || ran[i] == b
    ensures Count(ran, a) + Count(ran, b) == |ran|
    ensures var ahead := Count(ran, a) - Count(ran, b);
      ahead == 0 || (ran != [] && ahead == if ran[|ran| - 1] == a then 1 else -1)
  {
    if ran != [] {
      var n := |ran| - 1;
      AlternatingCounts(ran[..n], a, b);
      CountOfLonger(ran, n, a);
      CountOfLonger(ran, n, b);
    }
  }

  /** With two registered participants the orchestrator's selections alternate, so their counts differ by at most one. */
  lemma SelectionsAlternate(env: Env, digest: string -> string, org: OrgId, budget: Budget, acts: seq<Action>, a: Runtime, b: Runtime)
    requires Run(env, digest, Created(org, budget), acts).driver.runtimes == [a, b]
    ensures var ran := Run(env, digest, Created(org, budget), acts).ran;
      Alternates(ran) && Count(ran, a.id) + Count(ran, b.id) == |ran| && -1 <= Count(ran, a.id) - Count(ran, b.id) <= 1
  {
    RunTakesTurns(env, digest, Created(org, budget), acts);
    var w := Run(env, digest, Created(org, budget), acts);
    assert w.driver.runtimes[0].id != w.driver.runtimes[1].id;
    forall i | 0 <= i < |w.ran| ensures w.ran[i] == a.id || w.ran[i] == b.id { assert Registered(w.driver.runtimes, w.ran[i]); }
    AlternatingCounts(w.ran, a.id, b.id);
  }
}
