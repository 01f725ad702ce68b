/** Turns are made of service calls: whatever an orchestrator does to a room is a run of calls, so all that is proved of
    runs holds of rooms that are being driven. */
module TurnRuns {
  import opened Wrappers
  import opened Sequences
  import opened Policy
  import opened Events
  import opened RoomData
  import opened RoomSpec
  import opened Turns
  import Dlp
  import Lifecycle = RoomLifecycle
  import Limits = TurnLimits
  import Stream = RoomStream

  lemma {:induction false} RunConcat(env: Env, db: Db, a: seq<Op>, b: seq<Op>)
    ensures Run(env, db, a + b) == Run(env, Run(env, db, a), b)
    decreases |a|
  {
    if a == [] {
      assert a + b == b;
    } else {
      assert (a + b)[1..] == a[1..] + b;
      RunConcat(env, Exec(env, db, a[0]), a[1..], b);
    }
  }

  lemma RunOne(env: Env, db: Db, op: Op)
    ensures Run(env, db, [op]) == Exec(env, db, op)
  {
    assert [op][1..] == [];
    assert Run(env, Exec(env, db, op), []) == Exec(env, db, op);
  }

  // ---------------------------------------------------------------------------------------------
  // A turn
  // ---------------------------------------------------------------------------------------------

  /** A pause where there is an obstacle. */
  function PauseOps(obstacle: Option<string>): seq<Op> {
    if obstacle.Some? then [OpPauseForBudget(obstacle.value)] else []
  }

  /** The calls of the part before the adapter is called. */
  function BeginOps(digest: string -> string, db: Db, now: int): seq<Op> {
    if Routes(db.room.state) then PauseOps(Obstacle(digest, db, now)) else []
  }

  function Submits(id: Id, candidates: seq<Option<Candidate>>, now: int): seq<Op> {
    if candidates == [] then []
    else Submits(id, candidates[..|candidates| - 1], now) + [OpSubmit(id, candidates[|candidates| - 1], now)]
  }

  /** The calls of the part after the adapter has answered: one account, then the submissions. */
  function FinishOps(id: Id, answer: Answer, now: int): seq<Op> {
    [OpAccount(answer.cost)] + Submits(id, FirstFour(answer.events), now)
  }

  lemma {:induction false} SubmitsAre(id: Id, candidates: seq<Option<Candidate>>, now: int)
    ensures |Submits(id, candidates, now)| == |candidates|
    ensures forall i :: 0 <= i < |candidates| ==> Submits(id, candidates, now)[i] == OpSubmit(id, candidates[i], now)
    decreases |candidates|
  {
    if candidates != [] { SubmitsAre(id, candidates[..|candidates| - 1], now); }
  }

  /** One account of the adapter's cost, and then at most four of its candidates, the first ones, each once and in order. */
  lemma FinishOpsAre(id: Id, answer: Answer, now: int)
    ensures var ops, n := FinishOps(id, answer, now), |answer.events|;
      && |ops| == 1 + (if n < 4 then n else 4) && ops[0] == OpAccount(answer.cost)
      && forall i :: 1 <= i < |ops| ==> ops[i] == OpSubmit(id, answer.events[i - 1], now)
  {
    SubmitsAre(id, FirstFour(answer.events), now);
  }

  /** The calls of the rest of a turn, those served meanwhile included. */
  function RestOps(begun: Begun, call: Call): seq<Op> {
    if !begun.Turning? then []
    else call.meanwhile + if call.answer.None? then [] else FinishOps(begun.id, call.answer.value, call.now)
  }

  function TurnOps(digest: string -> string, db: Db, d: Driver, call: Call, now: int): seq<Op> {
    BeginOps(digest, db, now) + RestOps(Begin(digest, db, d, now).2, call)
  }

  lemma PauseIsRun(env: Env, db: Db, obstacle: Option<string>)
    ensures Run(env, db, PauseOps(obstacle)) == if obstacle.Some? then PauseForBudget(db, obstacle.value) else db
  {
    if obstacle.Some? { RunOne(env, db, OpPauseForBudget(obstacle.value)); }
  }

  lemma BeginIsRun(env: Env, digest: string -> string, db: Db, d: Driver, now: int)
    ensures Begin(digest, db, d, now).0 == Run(env, db, BeginOps(digest, db, now))
  {
    if Routes(db.room.state) { PauseIsRun(env, db, Obstacle(digest, db, now)); }
  }

  lemma {:induction false} SubmitAllIsRun(env: Env, db: Db, rs: seq<Runtime>, id: Id, candidates: seq<Option<Candidate>>, now: int)
    ensures SubmitAll(env, db, rs, id, candidates, now).0 == Run(env, db, Submits(id, candidates, now))
    decreases |candidates|
  {
    if candidates != [] {
      var n := |candidates| - 1;
      var op := OpSubmit(id, candidates[n], now);
      SubmitAllIsRun(env, db, rs, id, candidates[..n], now);
      RunConcat(env, db, Submits(id, candidates[..n], now), [op]);
      RunOne(env, Run(env, db, Submits(id, candidates[..n], now)), op);
    }
  }

  lemma FinishIsRun(env: Env, db: Db, d: Driver, id: Id, answer: Answer, now: int)
    ensures Finish(env, db, d, id, answer, now).0 == Run(env, db, FinishOps(id, answer, now))
  {
    var candidates := FirstFour(answer.events);
    RunConcat(env, db, [OpAccount(answer.cost)], Submits(id, candidates, now));
    RunOne(env, db, OpAccount(answer.cost));
    SubmitAllIsRun(env, AccountTurn(db, answer.cost), d.runtimes, id, candidates, now);
  }

  lemma RestIsRun(env: Env, db: Db, d: Driver, begun: Begun, call: Call)
    ensures Rest(env, db, d, begun, call).0 == Run(env, db, RestOps(begun, call))
  {
    if begun.Turning? {
      if call.answer.None? {
        assert RestOps(begun, call) == call.meanwhile;
      } else {
        var finish := FinishOps(begun.id, call.answer.value, call.now);
        FinishIsRun(env, Run(env, db, call.meanwhile), d, begun.id, call.answer.value, call.now);
        RunConcat(env, db, call.meanwhile, finish);
      }
    }
  }

  /** What a whole turn leaves is what the calls of the turn leave, in their order. */
  lemma TurnIsRun(env: Env, digest: string -> string, db: Db, d: Driver, call: Call, now: int)
    ensures Turn(env, digest, db, d, call, now).0 == Run(env, db, TurnOps(digest, db, d, call, now))
  {
    var (db', d', begun) := Begin(digest, db, d, now);
    BeginIsRun(env, digest, db, d, now);
    RestIsRun(env, db', d', begun, call);
    RunConcat(env, db, BeginOps(digest, db, now), RestOps(begun, call));
  }

  // ---------------------------------------------------------------------------------------------
  // Counting turns in a run
  // ---------------------------------------------------------------------------------------------

  /** How many turns were accounted. */
  function Accounts(ops: seq<Op>): nat {
    if ops == [] then 0 else Accounts(ops[..|ops| - 1]) + if ops[|ops| - 1].OpAccount? then 1 else 0
  }

  lemma {:induction false} AccountsConcat(a: seq<Op>, b: seq<Op>)
    ensures Accounts(a + b) == Accounts(a) + Accounts(b)
    decreases |b|
  {
    if b == [] {
      assert a + b == a;
    } else {
      assert (a + b)[..|a + b| - 1] == a + b[..|b| - 1];
      AccountsConcat(a, b[..|b| - 1]);
    }
  }

  lemma AccountsSplit(ops: seq<Op>, k: nat)
    requires k <= |ops|
    ensures Accounts(ops) == Accounts(ops[..k]) + Accounts(ops[k..])
  {
    AccountsConcat(ops[..k], ops[k..]);
    assert ops[..k] + ops[k..] == ops;
  }

  lemma {:induction false} NoAccounts(ops: seq<Op>)
    requires forall op :: op in ops ==> !op.OpAccount?
    ensures Accounts(ops) == 0
  {
    if ops != [] { NoAccounts(ops[..|ops| - 1]); }
  }

  lemma {:induction false} SubmitsOnly(id: Id, candidates: seq<Option<Candidate>>, now: int)
    ensures forall op :: op in Submits(id, candidates, now) ==> op.OpSubmit?
    decreases |candidates|
  {
    if candidates != [] { SubmitsOnly(id, candidates[..|candidates| - 1], now); }
  }

  lemma RestAccounts(begun: Begun, call: Call)
    requires forall op :: op in call.meanwhile ==> !op.OpAccount?
    ensures Accounts(RestOps(begun, call)) == if begun.Turning? && call.answer.Some? then 1 else 0
  {
    if begun.Turning? {
      NoAccounts(call.meanwhile);
      if call.answer.None? {
        assert RestOps(begun, call) == call.meanwhile;
      } else {
        var submits := Submits(begun.id, FirstFour(call.answer.value.events), call.now);
        var account := [OpAccount(call.answer.value.cost)];
        SubmitsOnly(begun.id, FirstFour(call.answer.value.events), call.now);
        NoAccounts(submits);
        AccountsConcat(account, submits);
        AccountsConcat(call.meanwhile, account + submits);
      }
    }
  }

  lemma RestProgress(env: Env, db: Db, d: Driver, begun: Begun, call: Call)
    ensures Rest(env, db, d, begun, call).2 == Progressed <==> begun.Turning? && call.answer.Some?
  {
  }

  /** The calls of a turn contain exactly one account if it makes progress, and none otherwise. */
  lemma TurnAccounts(env: Env, digest: string -> string, db: Db, d: Driver, call: Call, now: int)
    requires forall op :: op in call.meanwhile ==> !op.OpAccount?
    ensures Accounts(TurnOps(digest, db, d, call, now)) == if Turn(env, digest, db, d, call, now).2 == Progressed then 1 else 0
  {
    var (db', d', begun) := Begin(digest, db, d, now);
    RestAccounts(begun, call);
    RestProgress(env, db', d', begun, call);
    NoAccounts(BeginOps(digest, db, now));
    AccountsConcat(BeginOps(digest, db, now), RestOps(begun, call));
  }

  lemma HaltedIsStopped(env: Env, db: Db, d: Driver, begun: Begun, call: Call)
    ensures Rest(env, db, d, begun, call).2 == Halted <==> begun.Stopped?
    ensures begun.Stopped? ==> Rest(env, db, d, begun, call).0 == db
  {
  }

  lemma SelectStops(db: Db, d: Driver)
    ensures Select(db, d).1.Stopped? <==> d.runtimes == []
  {
  }

  /** With somebody to run, a turn that stops leaves a room that is not ACTIVE: it was not, or it was paused for its budget
      or a loop. */
  lemma HaltedIsNotActive(env: Env, digest: string -> string, db: Db, d: Driver, call: Call, now: int)
    ensures d.runtimes != [] && Turn(env, digest, db, d, call, now).2 == Halted ==>
      Turn(env, digest, db, d, call, now).0.room.state != Active
  {
    var (db', d', begun) := Begin(digest, db, d, now);
    HaltedIsStopped(env, db', d', begun, call);
    SelectStops(db, d);
  }

  /** A turn keeps everybody registered. */
  lemma TurnKeepsRuntimes(env: Env, digest: string -> string, db: Db, d: Driver, call: Call, now: int)
    ensures |Turn(env, digest, db, d, call, now).1.runtimes| == |d.runtimes|
  {
    var (db', d', begun) := Begin(digest, db, d, now);
    assert |d'.runtimes| == |d.runtimes|;
    RestKeepsRuntimes(env, db', d', begun, call);
  }

  lemma RestKeepsRuntimes(env: Env, db: Db, d: Driver, begun: Begun, call: Call)
    ensures |Rest(env, db, d, begun, call).1.runtimes| == |d.runtimes|
  {
    if begun.Turning? && call.answer.Some? {
      var a := call.answer.value;
      Limits.SubmitAllSameIds(
        env, AccountTurn(Run(env, db, call.meanwhile), a.cost), d.runtimes, begun.id, FirstFour(a.events), call.now);
    }
  }

  /** The calls from the k-th on make up `turns` turns and added no event. */
  predicate QuietSince(env: Env, db: Db, ops: seq<Op>, k: nat, turns: nat) {
    && k <= |ops| && Accounts(ops[k..]) == turns
    && |Run(env, db, ops[..k]).events| == |Run(env, db, ops).events|
  }

  lemma QuietNow(env: Env, db: Db, ops: seq<Op>)
    ensures QuietSince(env, db, ops, |ops|, 0)
  {
    assert ops[..|ops|] == ops;
  }

  lemma QuietTurn(env: Env, db: Db, ops: seq<Op>, more: seq<Op>, k: nat, turns: nat)
    requires QuietSince(env, db, ops, k, turns) && Accounts(more) == 1
    requires |Run(env, db, ops + more).events| == |Run(env, db, ops).events|
    ensures QuietSince(env, db, ops + more, k, turns + 1)
  {
    SplitConcat(ops, more, k);
    AccountsConcat(ops[k..], more);
  }

  // ---------------------------------------------------------------------------------------------
  // A room with one driver
  // ---------------------------------------------------------------------------------------------

  function ActionOps(digest: string -> string, w: Limits.World, a: Limits.Action): seq<Op> {
    match a
    case Serves(op) => if op.OpAccount? then [] else [op]
    case Begins(now) => if w.inFlight.Some? then [] else BeginOps(digest, w.db, now)
    case Finishes(answer, now) => if w.inFlight.None? then [] else FinishOps(w.inFlight.value, answer, now)
    case _ => []
  }

  /** The calls made by a run of a driven room. */
  function OpsOf(env: Env, digest: string -> string, w: Limits.World, acts: seq<Limits.Action>): seq<Op>
    decreases |acts|
  {
    if acts == [] then []
    else ActionOps(digest, w, acts[0]) + OpsOf(env, digest, Limits.Next(env, digest, w, acts[0]), acts[1..])
  }

  lemma ActionIsRun(env: Env, digest: string -> string, w: Limits.World, a: Limits.Action)
    ensures Limits.Next(env, digest, w, a).db == Run(env, w.db, ActionOps(digest, w, a))
  {
    match a
    case Serves(op) => RunOne(env, w.db, op);
    case Begins(now) => BeginIsRun(env, digest, w.db, w.driver, now);
    case Finishes(answer, now) => if w.inFlight.Some? { FinishIsRun(env, w.db, w.driver, w.inFlight.value, answer, now); }
    case _ =>
  }

  /** Whatever a driven room goes through, with turns in flight and restarts, its records are what a run of service calls
      leaves. */
  lemma {:induction false} DrivenIsRun(env: Env, digest: string -> string, w: Limits.World, acts: seq<Limits.Action>)
    ensures Limits.Run(env, digest, w, acts).db == Run(env, w.db, OpsOf(env, digest, w, acts))
    decreases |acts|
  {
    if acts != [] {
      var next := Limits.Next(env, digest, w, acts[0]);
      ActionIsRun(env, digest, w, acts[0]);
      DrivenIsRun(env, digest, next, acts[1..]);
      RunConcat(env, w.db, ActionOps(digest, w, acts[0]), OpsOf(env, digest, next, acts[1..]));
    }
  }

  // ---------------------------------------------------------------------------------------------
  // Main results for driven rooms
  // ---------------------------------------------------------------------------------------------

  /** Once CLOSED, also while an adapter is still being called: whatever the driver and others do, the room stays CLOSED
      and sealed, and no event of an agent is added. */
  lemma ClosedWhileDriven(env: Env, digest: string -> string, w: Limits.World, acts: seq<Limits.Action>)
    requires env.Valid() && Lifecycle.Inv(w.db) && w.db.room.state.Closed?
    ensures var db := Limits.Run(env, digest, w, acts).db;
      db.room.state.Closed? && Lifecycle.Sealed(db) && Lifecycle.OnlyPlatformEvents(w.db, db)
  {
    DrivenIsRun(env, digest, w, acts);
    Lifecycle.ClosedForever(env, w.db, OpsOf(env, digest, w, acts));
  }

  /** In every room that is driven from its creation on, each event of an agent is clean. */
  lemma DrivenEventsAreClean(d: Dlp.Detectors, digest: string -> string, org: OrgId, budget: Budget, acts: seq<Limits.Action>, e: Event)
    requires e in Limits.Run(EnvOf(d, digest), digest, Limits.Created(org, budget), acts).db.events && e.sender.Some?
    ensures var db := Limits.Run(EnvOf(d, digest), digest, Limits.Created(org, budget), acts).db;
      && e.content.FromAgent? && db.contracts != []
      && Dlp.Scan(d, BodyJson(e.content.body), None).secretFindings == []
      && forall c :: c in e.classification.categories ==>
           c !in HARD_DENY && (c != General ==> c !in Latest(db.contracts).contract.forbiddenDataClasses)
  {
    var w := Limits.Created(org, budget);
    DrivenIsRun(EnvOf(d, digest), digest, w, acts);
    Stream.AgentEventsAreClean(d, digest, org, budget, OpsOf(EnvOf(d, digest), digest, w, acts), e);
  }
}
