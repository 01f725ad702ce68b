/** What a turn of the orchestrator does to a room, as functions: budgets, loop detection and turn-taking
    (packages/core/src/orchestrator.ts, packages/shared/src/room.ts). The adapter's answer is arbitrary. */
module Turns {
  import opened Wrappers
  import opened Json
  import opened Policy
  import opened Events
  import opened RoomData
  import opened RoomSpec

  // ---------------------------------------------------------------------------------------------
  // Budget
  // ---------------------------------------------------------------------------------------------

  datatype Limit = MaxTurns | MaxToolCalls | MaxSpend | MaxDuration

  function LimitName(l: Limit): string {
    match l
    case MaxTurns => "maxTurns"
    case MaxToolCalls => "maxToolCalls"
    case MaxSpend => "maxModelSpendUsd"
    case MaxDuration => "maxDurationMinutes"
  }

  /** The first limit that is reached. */
  function BudgetExceeded(b: Budget, u: Usage, now: int): Option<Limit> {
    if u.turns >= b.maxTurns then Some(MaxTurns)
    else if u.toolCalls >= b.maxToolCalls then Some(MaxToolCalls)
    else if u.spend >= b.maxSpend then Some(MaxSpend)
    else if u.startedAtMs.Some? && now - u.startedAtMs.value >= b.maxDurationMinutes * 60_000 then Some(MaxDuration)
    else None
  }

  // ---------------------------------------------------------------------------------------------
  // Loop detection
  // ---------------------------------------------------------------------------------------------

  /** The bodies that agents have sent, oldest first. */
  function Spoken(events: seq<Event>): seq<Body> {
    if events == [] then []
    else
      var last := events[|events| - 1];
      Spoken(events[..|events| - 1]) + if last.sender.Some? && last.content.FromAgent? then [last.content.body] else []
  }

  function LastEight<T>(xs: seq<T>): seq<T> { if |xs| <= 8 then xs else xs[|xs| - 8..] }

  /** An event as the loop detector sees it: its type and its body. */
  function Said(b: Body): Value { Obj([Entry("t", Str(TypeName(TypeOf(b)))), Entry("b", BodyJson(b))]) }

  function Digests(digest: string -> string, bodies: seq<Body>): (r: seq<string>)
    ensures |r| == |bodies| && forall i :: 0 <= i < |bodies| ==> r[i] == digest(Text(Said(bodies[i])))
  {
    if bodies == [] then [] else [digest(Text(Said(bodies[0])))] + Digests(digest, bodies[1..])
  }

  function Count<T(==)>(xs: seq<T>, x: T): nat { multiset(xs)[x] }

  predicate Repeats(hs: seq<string>) { exists h :: h in hs && Count(hs, h) >= 3 }

  predicate LoopDetected(digest: string -> string, events: seq<Event>) { Repeats(Digests(digest, LastEight(Spoken(events)))) }

  // ---------------------------------------------------------------------------------------------
  // Turn-taking
  // ---------------------------------------------------------------------------------------------

  /** A registered participant, with the guidance that its last denial left for it. */
  datatype Runtime = Runtime(id: Id, role: Role, guidance: Option<Rule>)

  datatype Driver = Driver(runtimes: seq<Runtime>, lastRan: Option<Id>)

  function FirstOther(rs: seq<Runtime>, id: Id): (r: Option<Runtime>)
    ensures r.Some? ==> r.value in rs && r.value.id != id
    ensures r.None? ==> forall x :: x in rs ==> x.id == id
  {
    if rs == [] then None else if rs[0].id != id then Some(rs[0]) else FirstOther(rs[1..], id)
  }

  function FirstCustomer(rs: seq<Runtime>): (r: Option<Runtime>)
    ensures r.Some? ==> r.value in rs
  {
    if rs == [] then None else if rs[0].role == Customer then Some(rs[0]) else FirstCustomer(rs[1..])
  }

  predicate Registered(rs: seq<Runtime>, id: Id) { exists r :: r in rs && r.id == id }

  /** Who of the registered participants sent the last event. */
  function LastSpeaker(events: seq<Event>, rs: seq<Runtime>): Option<Id> {
    if events == [] then None
    else
      var last := events[|events| - 1];
      if last.sender.Some? && Registered(rs, last.sender.value) then last.sender else LastSpeaker(events[..|events| - 1], rs)
  }

  function OrFirst(r: Option<Runtime>, rs: seq<Runtime>): Runtime
    requires rs != []
  {
    if r.Some? then r.value else rs[0]
  }

  /** Not whoever ran last; on a first turn, not whoever spoke last; and a customer opens the conversation. */
  function NextParticipant(d: Driver, events: seq<Event>): Option<Runtime> {
    var rs := d.runtimes;
    if rs == [] then None
    else if |rs| == 1 then Some(rs[0])
    else if d.lastRan.Some? && FirstOther(rs, d.lastRan.value).Some? then FirstOther(rs, d.lastRan.value)
    else match LastSpeaker(events, rs)
      case None => Some(OrFirst(FirstCustomer(rs), rs))
      case Some(id) => Some(OrFirst(FirstOther(rs, id), rs))
  }

  /** Storing a runtime's guidance. */
  function Guided(rs: seq<Runtime>, id: Id, g: Option<Rule>): (r: seq<Runtime>)
    ensures |r| == |rs| && forall i :: 0 <= i < |rs| ==> r[i] == if rs[i].id == id then rs[i].(guidance := g) else rs[i]
  {
    if rs == [] then [] else [if rs[0].id == id then rs[0].(guidance := g) else rs[0]] + Guided(rs[1..], id, g)
  }

  // ---------------------------------------------------------------------------------------------
  // A turn, before and after the adapter call
  // ---------------------------------------------------------------------------------------------

  datatype Begun = Stopped | Threw | Turning(id: Id)

  /** Why the room is to be paused instead of running a turn. */
  function Obstacle(digest: string -> string, db: Db, now: int): Option<string> {
    match BudgetExceeded(db.room.budget, db.room.usage, now)
    case Some(l) => Some("budget limit reached: " + LimitName(l))
    case None =>
      if LoopDetected(digest, db.events) then Some("loop detected: repeated near-identical agent exchanges") else None
  }

  /** The next participant is remembered; building its input fails without a contract, and uses up its guidance. */
  function Select(db: Db, d: Driver): (Driver, Begun) {
    match NextParticipant(d, db.events)
    case None => (d, Stopped)
    case Some(rt) =>
      if db.contracts == [] then (d.(lastRan := Some(rt.id)), Threw)
      else (Driver(Guided(d.runtimes, rt.id, None), Some(rt.id)), Turning(rt.id))
  }

  /** The part of `runTurn` before the adapter is called. */
  function Begin(digest: string -> string, db: Db, d: Driver, now: int): (Db, Driver, Begun) {
    if !Routes(db.room.state) then (db, d, Stopped)
    else match Obstacle(digest, db, now)
      case Some(reason) => (PauseForBudget(db, reason), d, Stopped)
      case None => (db, Select(db, d).0, Select(db, d).1)
  }

  /** What an adapter returns; any error but a provider failure counts as no events and no cost. */
  datatype Answer = Answer(events: seq<Option<Candidate>>, cost: real)

  function FirstFour<T>(xs: seq<T>): seq<T> { if |xs| <= 4 then xs else xs[..4] }

  /** Submitting candidates in turn; a denial leaves its rule as guidance. */
  function SubmitAll(env: Env, db: Db, rs: seq<Runtime>, id: Id, candidates: seq<Option<Candidate>>, now: int): (Db, seq<Runtime>) {
    if candidates == [] then (db, rs)
    else
      var n := |candidates| - 1;
      var (db1, rs1) := SubmitAll(env, db, rs, id, candidates[..n], now);
      var (db2, reply) := Submit(env, db1, id, candidates[n], now);
      (db2, if reply.Blocked? then Guided(rs1, id, Some(reply.rule)) else rs1)
  }

  /** The part of `runTurn` after the adapter has answered: account on the room as it is now, then submit. */
  function Finish(env: Env, db: Db, d: Driver, id: Id, answer: Answer, now: int): (Db, Driver) {
    var (db', rs) := SubmitAll(env, AccountTurn(db, answer.cost), d.runtimes, id, FirstFour(answer.events), now);
    (db', d.(runtimes := rs))
  }

  /** What happens during one adapter call: other calls are served, and the adapter answers or the provider fails. */
  datatype Call = Call(meanwhile: seq<Op>, answer: Option<Answer>, now: int)

  datatype Progress = Progressed | Halted | Failed

  /** The rest of a turn that was begun: the adapter call, with whatever is served meanwhile, and its answer. */
  function Rest(env: Env, db: Db, d: Driver, begun: Begun, call: Call): (Db, Driver, Progress) {
    match begun
    case Stopped => (db, d, Halted)
    case Threw => (db, d, Failed)
    case Turning(id) =>
      var served := Run(env, db, call.meanwhile);
      if call.answer.None? then (served, d, Failed)
      else
        var (db', d') := Finish(env, served, d, id, call.answer.value, call.now);
        (db', d', Progressed)
  }

  /** `runTurn` from its start to its end. */
  function Turn(env: Env, digest: string -> string, db: Db, d: Driver, call: Call, now: int): (Db, Driver, Progress) {
    var (db', d', begun) := Begin(digest, db, d, now);
    Rest(env, db', d', begun, call)
  }
}
