/** When a turn begins and when a limit stops it, in the terms of the budget itself (packages/core/src/orchestrator.ts,
    packages/shared/src/room.ts). */
module TurnBudget {
  import opened Wrappers
  import opened Policy
  import opened Events
  import opened RoomData
  import opened RoomSpec
  import opened Turns
  import Limits = TurnLimits
  import StartTimes
  import TurnRuns

  /** The duration limit is in minutes, the clock in milliseconds. */
  predicate IsReached(l: Limit, b: Budget, u: Usage, now: int) {
    match l
    case MaxTurns => b.maxTurns <= u.turns
    case MaxToolCalls => b.maxToolCalls <= u.toolCalls
    case MaxSpend => b.maxSpend <= u.spend
    case MaxDuration => u.startedAtMs.Some? && u.startedAtMs.value + b.maxDurationMinutes * 60_000 <= now
  }

  /** The order in which limits are named. */
  predicate NamedBefore(k: Limit, l: Limit) {
    match l
    case MaxTurns => false
    case MaxToolCalls => k.MaxTurns?
    case MaxSpend => k.MaxTurns? || k.MaxToolCalls?
    case MaxDuration => !k.MaxDuration?
  }

  predicate NoneReached(b: Budget, u: Usage, now: int) { forall l :: !IsReached(l, b, u, now) }

  /** What has to hold of the room and of whoever is to run. */
  predicate CanRun(digest: string -> string, db: Db, d: Driver) {
    && (db.room.state == Active || db.room.state == CompletionProposed)
    && !LoopDetected(digest, db.events) && db.contracts != [] && d.runtimes != []
  }

  /** A turn begins exactly in a room that routes events and is below every limit, without a loop, with a contract and
      somebody registered. */
  lemma TurnBeginsIff(digest: string -> string, db: Db, d: Driver, now: int)
    ensures Begin(digest, db, d, now).2.Turning? <==> CanRun(digest, db, d) && NoneReached(db.room.budget, db.room.usage, now)
  {
    var b, u := db.room.budget, db.room.usage;
    if NoneReached(b, u, now) {
      assert !IsReached(MaxTurns, b, u, now) && !IsReached(MaxToolCalls, b, u, now);
      assert !IsReached(MaxSpend, b, u, now) && !IsReached(MaxDuration, b, u, now);
      SelectTurns(db, d);
    } else {
      var l :| IsReached(l, b, u, now);
      assert Routes(db.room.state) ==> Obstacle(digest, db, now).Some?;
    }
  }

  lemma SelectTurns(db: Db, d: Driver)
    ensures Select(db, d).1.Turning? <==> db.contracts != [] && d.runtimes != []
  {
  }

  /** `db'` is `db` paused, with a note of the reason. */
  predicate IsPausedFor(db: Db, db': Db, reason: string) {
    && db' == db.(room := db.room.(state := Paused), history := db.history + [Paused], events := db'.events, nextId := db.nextId + 1)
    && |db'.events| == |db.events| + 1 && db'.events[..|db.events|] == db.events
    && db'.events[|db.events|].content == FromPlatform(RoomPaused(reason)) && db'.events[|db.events|].sender.None?
  }

  /** A limit that is reached stops the turn before anyone is selected, and an ACTIVE room is left PAUSED with a note that
      names the first such limit. */
  lemma ReachedLimitPauses(digest: string -> string, db: Db, d: Driver, now: int, l: Limit)
    requires IsReached(l, db.room.budget, db.room.usage, now)
    requires forall k :: NamedBefore(k, l) ==> !IsReached(k, db.room.budget, db.room.usage, now)
    ensures var (db', d', begun) := Begin(digest, db, d, now);
      && begun == Stopped && d' == d
      && (db.room.state == Active ==>
            IsPausedFor(db, db', "budget limit reached: " +
              if l.MaxTurns? then "maxTurns" else if l.MaxToolCalls? then "maxToolCalls"
              else if l.MaxSpend? then "maxModelSpendUsd" else "maxDurationMinutes"))
      && (db.room.state != Active ==> db' == db)
  {
    var b, u := db.room.budget, db.room.usage;
    assert NamedBefore(MaxTurns, l) ==> !IsReached(MaxTurns, b, u, now);
    assert NamedBefore(MaxToolCalls, l) ==> !IsReached(MaxToolCalls, b, u, now);
    assert NamedBefore(MaxSpend, l) ==> !IsReached(MaxSpend, b, u, now);
    FirstReached(b, u, now, l);
    PausesFor(db, "budget limit reached: " + LimitName(l));
  }

  lemma FirstReached(b: Budget, u: Usage, now: int, l: Limit)
    requires IsReached(l, b, u, now)
    requires NamedBefore(MaxTurns, l) ==> !IsReached(MaxTurns, b, u, now)
    requires NamedBefore(MaxToolCalls, l) ==> !IsReached(MaxToolCalls, b, u, now)
    requires NamedBefore(MaxSpend, l) ==> !IsReached(MaxSpend, b, u, now)
    ensures BudgetExceeded(b, u, now) == Some(l)
  {
  }

  lemma PausesFor(db: Db, reason: string)
    ensures db.room.state == Active ==> IsPausedFor(db, PauseForBudget(db, reason), reason)
    ensures db.room.state != Active ==> PauseForBudget(db, reason) == db
  {
  }

  // ---------------------------------------------------------------------------------------------
  // Who runs
  // ---------------------------------------------------------------------------------------------

  /** The last event of the stream that one of the registered participants sent. */
  predicate SpokeLast(events: seq<Event>, rs: seq<Runtime>, k: nat) {
    && k < |events| && events[k].sender.Some? && Registered(rs, events[k].sender.value)
    && forall j :: k < j < |events| ==> events[j].sender.None? || !Registered(rs, events[j].sender.value)
  }

  lemma {:induction false} LastSpeakerIs(events: seq<Event>, rs: seq<Runtime>)
    ensures LastSpeaker(events, rs).None? ==> forall k: nat :: !SpokeLast(events, rs, k)
    ensures LastSpeaker(events, rs).Some? ==> exists k: nat :: SpokeLast(events, rs, k) && events[k].sender == LastSpeaker(events, rs)
    decreases |events|
  {
    if events != [] {
      var n := |events| - 1;
      var last := events[n];
      if last.sender.Some? && Registered(rs, last.sender.value) {
        assert SpokeLast(events, rs, n);
      } else {
        LastSpeakerIs(events[..n], rs);
        forall k: nat ensures SpokeLast(events, rs, k) <==> SpokeLast(events[..n], rs, k) {}
      }
    }
  }

  /** An orchestrator that has run nobody yet, with two or more to choose from: whoever spoke last is not next, and if none
      of them has spoken, a customer opens, if there is one. */
  lemma FirstSelection(d: Driver, events: seq<Event>, k: nat)
    requires Limits.Distinct(d.runtimes) && |d.runtimes| >= 2 && d.lastRan.None?
    ensures var next := NextParticipant(d, events);
      && next.Some? && next.value in d.runtimes
      && (SpokeLast(events, d.runtimes, k) ==> Some(next.value.id) != events[k].sender)
      && ((forall j: nat :: !SpokeLast(events, d.runtimes, j)) ==>
            (forall r :: r in d.runtimes ==> r.role != Customer) || next.value.role == Customer)
  {
    LastSpeakerIs(events, d.runtimes);
    CustomerIsFound(d.runtimes);
    if SpokeLast(events, d.runtimes, k) {
      var j: nat :| SpokeLast(events, d.runtimes, j) && events[j].sender == LastSpeaker(events, d.runtimes);
      assert j == k;
      assert d.runtimes[0] in d.runtimes && d.runtimes[1] in d.runtimes && d.runtimes[0].id != d.runtimes[1].id;
    }
  }

  lemma {:induction false} CustomerIsFound(rs: seq<Runtime>)
    ensures FirstCustomer(rs).Some? ==> FirstCustomer(rs).value.role == Customer
    ensures FirstCustomer(rs).None? ==> forall r :: r in rs ==> r.role != Customer
  {
    if rs != [] { CustomerIsFound(rs[1..]); }
  }

  // ---------------------------------------------------------------------------------------------
  // What whoever runs is told
  // ---------------------------------------------------------------------------------------------

  predicate IsTold(rs: seq<Runtime>, id: Id, guidance: Option<Rule>) { forall r :: r in rs && r.id == id ==> r.guidance == guidance }

  /** A turn that begins uses up the guidance of the participant who runs, and remembers that it ran. */
  lemma BeginningUsesGuidance(digest: string -> string, db: Db, d: Driver, now: int)
    requires Begin(digest, db, d, now).2.Turning?
    ensures var (_, d', begun) := Begin(digest, db, d, now);
      d'.lastRan == Some(begun.id) && Registered(d.runtimes, begun.id) && IsTold(d'.runtimes, begun.id, None)
  {
    assert NextParticipant(d, db.events).Some?;
    assert NextParticipant(d, db.events).value in d.runtimes;
  }

  /** What the j-th submission of a turn is answered. */
  function ReplyTo(env: Env, db: Db, rs: seq<Runtime>, id: Id, candidates: seq<Option<Candidate>>, now: int, j: nat): Submission
    requires j < |candidates|
  {
    Submit(env, SubmitAll(env, db, rs, id, candidates[..j], now).0, id, candidates[j], now).1
  }

  lemma SameReply(env: Env, db: Db, rs: seq<Runtime>, id: Id, candidates: seq<Option<Candidate>>, now: int, n: nat, j: nat)
    requires j < n <= |candidates|
    ensures ReplyTo(env, db, rs, id, candidates[..n], now, j) == ReplyTo(env, db, rs, id, candidates, now, j)
  {
    assert candidates[..n][..j] == candidates[..j];
  }

  lemma LastReply(env: Env, db: Db, rs: seq<Runtime>, id: Id, candidates: seq<Option<Candidate>>, now: int)
    requires candidates != []
    ensures var n := |candidates| - 1;
      var before, reply := SubmitAll(env, db, rs, id, candidates[..n], now).1, ReplyTo(env, db, rs, id, candidates, now, n);
      SubmitAll(env, db, rs, id, candidates, now).1 == if reply.Blocked? then Guided(before, id, Some(reply.rule)) else before
  {
  }

  /** From the k-th on nothing is denied. */
  predicate NoDenialFrom(env: Env, db: Db, rs: seq<Runtime>, id: Id, candidates: seq<Option<Candidate>>, now: int, k: nat) {
    forall j :: k <= j < |candidates| ==> !ReplyTo(env, db, rs, id, candidates, now, j).Blocked?
  }

  lemma ShorterHasNone(env: Env, db: Db, rs: seq<Runtime>, id: Id, candidates: seq<Option<Candidate>>, now: int, k: nat)
    requires candidates != [] && NoDenialFrom(env, db, rs, id, candidates, now, k)
    ensures NoDenialFrom(env, db, rs, id, candidates[..|candidates| - 1], now, k)
  {
    var n := |candidates| - 1;
    forall j | k <= j < n ensures !ReplyTo(env, db, rs, id, candidates[..n], now, j).Blocked? {
      SameReply(env, db, rs, id, candidates, now, n, j);
    }
  }

  /** Without a denial guidance stays as it is. */
  lemma {:induction false} NoDenialGuides(env: Env, db: Db, rs: seq<Runtime>, id: Id, candidates: seq<Option<Candidate>>, now: int, k: nat)
    requires k <= |candidates| && NoDenialFrom(env, db, rs, id, candidates, now, k)
    ensures SubmitAll(env, db, rs, id, candidates, now).1 == SubmitAll(env, db, rs, id, candidates[..k], now).1
    decreases |candidates|
  {
    if k == |candidates| {
      assert candidates[..k] == candidates;
    } else {
      LastReply(env, db, rs, id, candidates, now);
      ShorterHasNone(env, db, rs, id, candidates, now, k);
      NoDenialGuides(env, db, rs, id, candidates[..|candidates| - 1], now, k);
      assert candidates[..|candidates| - 1][..k] == candidates[..k];
    }
  }

  /** The last denial among a turn's submissions leaves its rule as guidance. */
  lemma LastDenialGuides(env: Env, db: Db, rs: seq<Runtime>, id: Id, candidates: seq<Option<Candidate>>, now: int, k: nat)
    requires k < |candidates| && NoDenialFrom(env, db, rs, id, candidates, now, k + 1)
    requires ReplyTo(env, db, rs, id, candidates, now, k).Blocked?
    ensures IsTold(SubmitAll(env, db, rs, id, candidates, now).1, id, Some(ReplyTo(env, db, rs, id, candidates, now, k).rule))
  {
    NoDenialGuides(env, db, rs, id, candidates, now, k + 1);
    SameReply(env, db, rs, id, candidates, now, k + 1, k);
    LastReply(env, db, rs, id, candidates[..k + 1], now);
  }

  // ---------------------------------------------------------------------------------------------
  // Over whole runs
  // ---------------------------------------------------------------------------------------------

  /** When a driven room was started. */
  function StartOf(env: Env, digest: string -> string, org: OrgId, budget: Budget, acts: seq<Limits.Action>): Option<int> {
    StartTimes.FirstStart(env, CreateRoom(org, budget), TurnRuns.OpsOf(env, digest, Limits.Created(org, budget), acts))
  }

  lemma DrivenStart(env: Env, digest: string -> string, org: OrgId, budget: Budget, acts: seq<Limits.Action>)
    requires env.Valid()
    ensures var room := Limits.Run(env, digest, Limits.Created(org, budget), acts).db.room;
      room.budget == budget && room.usage.startedAtMs == StartOf(env, digest, org, budget, acts)
  {
    TurnRuns.DrivenIsRun(env, digest, Limits.Created(org, budget), acts);
    StartTimes.StartTimeIsFirstStart(env, org, budget, TurnRuns.OpsOf(env, digest, Limits.Created(org, budget), acts));
    Limits.BudgetHolds(env, digest, org, budget, acts);
  }

  /** In every run of a driven room, with restarts and whatever else is called: with no adapter in flight a turn begins
      exactly if the room can run, its counters are below the limits it was created with, and less than
      `maxDurationMinutes` have passed since the first start that took effect, if there was one. */
  lemma DrivenTurnBeginsIff(env: Env, digest: string -> string, org: OrgId, budget: Budget, acts: seq<Limits.Action>, now: int)
    requires env.Valid() && Limits.Run(env, digest, Limits.Created(org, budget), acts).inFlight.None?
    ensures var w := Limits.Run(env, digest, Limits.Created(org, budget), acts);
      var u, start := w.db.room.usage, StartOf(env, digest, org, budget, acts);
      Limits.Next(env, digest, w, Limits.Begins(now)).inFlight.Some? <==>
        && CanRun(digest, w.db, w.driver)
        && u.turns < budget.maxTurns && u.toolCalls < budget.maxToolCalls && u.spend < budget.maxSpend
        && (start.Some? ==> now < start.value + budget.maxDurationMinutes * 60_000)
  {
    var w := Limits.Run(env, digest, Limits.Created(org, budget), acts);
    DrivenStart(env, digest, org, budget, acts);
    TurnBeginsIff(digest, w.db, w.driver, now);
    var u := w.db.room.usage;
    assert NoneReached(budget, u, now) <==>
      && !IsReached(MaxTurns, budget, u, now) && !IsReached(MaxToolCalls, budget, u, now)
      && !IsReached(MaxSpend, budget, u, now) && !IsReached(MaxDuration, budget, u, now);
  }

  /** From the first start plus the duration limit on no turn begins, nobody is selected, and an ACTIVE room is paused. */
  lemma NoTurnAfterDuration(env: Env, digest: string -> string, org: OrgId, budget: Budget, acts: seq<Limits.Action>, now: int)
    requires env.Valid() && Limits.Run(env, digest, Limits.Created(org, budget), acts).inFlight.None?
    requires StartOf(env, digest, org, budget, acts).Some?
    requires StartOf(env, digest, org, budget, acts).value + budget.maxDurationMinutes * 60_000 <= now
    ensures var w := Limits.Run(env, digest, Limits.Created(org, budget), acts);
      var w' := Limits.Next(env, digest, w, Limits.Begins(now));
      && w'.inFlight.None? && w'.ran == w.ran && w'.driver == w.driver
      && w'.db.room.state == if w.db.room.state == Active then Paused else w.db.room.state
  {
    var w := Limits.Run(env, digest, Limits.Created(org, budget), acts);
    DrivenStart(env, digest, org, budget, acts);
    LateBegin(digest, w.db, w.driver, now);
  }

  lemma LateBegin(digest: string -> string, db: Db, d: Driver, now: int)
    requires IsReached(MaxDuration, db.room.budget, db.room.usage, now)
    ensures var (db', d', begun) := Begin(digest, db, d, now);
      begun == Stopped && d' == d && db'.room.state == if db.room.state == Active then Paused else db.room.state
  {
    assert BudgetExceeded(db.room.budget, db.room.usage, now).Some?;
  }
}
