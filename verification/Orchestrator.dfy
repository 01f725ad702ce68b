/** The orchestrator and the runtime's own writes as the program runs them (packages/core/src/orchestrator.ts,
    packages/core/src/runtime.ts). */
module Orchestrator {
  import opened Wrappers
  import opened Json
  import opened Policy
  import opened Events
  import opened RoomData
  import opened RoomStore
  import opened RoomSpec
  import opened Turns
  import Approvals
  import Pipeline
  import Rooms
  import TurnLimits
  import TurnRuns

  // ---------------------------------------------------------------------------------------------
  // Writes of the platform itself
  // ---------------------------------------------------------------------------------------------

  method PauseBecause(store: Store, reason: string)
    modifies store
    ensures store.View() == PauseForBudget(old(store.View()), reason)
  {
    if store.room.state != Active { return; }
    store.UpdateRoom(store.room.(state := Paused));
    store.Note(RoomPaused(reason));
  }

  /** Usage is added to the room as it is now, not as it was when the turn began. */
  method CountTurn(store: Store, cost: real)
    modifies store
    ensures store.View() == AccountTurn(old(store.View()), cost)
  {
    var usage := store.room.usage;
    store.UpdateRoom(store.room.(usage := usage.(turns := usage.turns + 1, spend := usage.spend + cost)));
  }

  method Halt(store: Store)
    modifies store
    ensures store.View() == HaltRoom(old(store.View()))
  {
    if store.room.state == Active { store.UpdateRoom(store.room.(state := Paused)); }
  }

  method ReportFailure(store: Store, detail: string)
    modifies store
    ensures store.View() == ReportAgentFailure(old(store.View()), detail)
  {
    store.Note(AgentFailure(detail));
  }

  method PerformSetup(ghost env: Env, store: Store, op: Op)
    requires SetsUp(op)
    modifies store
    ensures store.View() == Exec(env, old(store.View()), op)
  {
    match op {
      case OpInvite(caller, expiresInMs, now) => var _ := Rooms.CreateInvite(store, caller, expiresInMs, now);
      case OpRedeem(org, inviteId, addressOk, now) => var _ := Rooms.RedeemInvite(store, org, inviteId, addressOk, now);
      case OpPropose(caller, contract) => var _ := Rooms.ProposeContract(store, caller, contract);
      case OpApproveContract(caller, version) => var _ := Rooms.ApproveContract(store, caller, version);
      case OpSetPolicy(caller, policy) => var _ := Rooms.SetParticipantPolicy(store, caller, policy);
      case OpConnect(caller, agent, owned) => var _ := Rooms.ConnectAgentToRoom(store, caller, agent, owned);
    }
  }

  method PerformMove(ghost env: Env, store: Store, op: Op)
    requires !SetsUp(op) && !Works(op)
    modifies store
    ensures store.View() == Exec(env, old(store.View()), op)
  {
    match op {
      case OpStart(caller, now) => var _ := Rooms.StartRoom(store, caller, now);
      case OpPause(caller) => var _ := Rooms.ChangeState(store, caller, Paused);
      case OpResume(caller) => var _ := Rooms.ChangeState(store, caller, Active);
      case OpCancel(caller) => var _ := Rooms.ChangeState(store, caller, Canceled);
      case OpClose(caller, now) => var _ := Rooms.CloseRoom(store, caller, now);
      case OpApproveCompletion(caller, user, now) => var _ := Rooms.ApproveCompletion(store, caller, user, now);
      case OpVerify(caller, evidenceId, user) => var _ := Approvals.VerifyEvidence(store, caller, evidenceId, user);
    }
  }

  method PerformPlatform(ghost env: Env, store: Store, op: Op)
    requires Works(op) && !op.OpSubmit? && !op.OpDecide?
    modifies store
    ensures store.View() == Exec(env, old(store.View()), op)
  {
    match op {
      case OpPauseForBudget(reason) => PauseBecause(store, reason);
      case OpAccount(cost) => CountTurn(store, cost);
      case OpHalt => Halt(store);
      case OpReport(detail) => ReportFailure(store, detail);
    }
  }

  /** Any one service call. */
  method Perform(env: Env, store: Store, op: Op)
    modifies store
    ensures store.View() == Exec(env, old(store.View()), op)
  {
    if op.OpSubmit? {
      var _ := Pipeline.SubmitCandidateEvent(env, store, op.sender, op.candidate, op.now);
    } else if op.OpDecide? {
      var _ := Approvals.DecideApproval(env, store, op.org, op.user, op.approvalId, op.approve, op.now);
    } else if SetsUp(op) {
      PerformSetup(env, store, op);
    } else if Works(op) {
      PerformPlatform(env, store, op);
    } else {
      PerformMove(env, store, op);
    }
  }

  // ---------------------------------------------------------------------------------------------
  // The orchestrator
  // ---------------------------------------------------------------------------------------------

  class RoomOrchestrator {
    const store: Store
    var runtimes: seq<Runtime>
    var lastRan: Option<Id>

    constructor (store: Store)
      ensures this.store == store && runtimes == [] && lastRan == None
    {
      this.store := store;
      runtimes, lastRan := [], None;
    }

    ghost function View(): Driver
      reads this
    {
      Driver(runtimes, lastRan)
    }

    /** Registering again replaces the runtime in its place. */
    method Register(id: Id, role: Role)
      modifies this`runtimes
      ensures Registered(runtimes, id)
      ensures TurnLimits.Distinct(old(runtimes)) ==> TurnLimits.Distinct(runtimes)
      ensures |runtimes| == |old(runtimes)| + if Registered(old(runtimes), id) then 0 else 1
      ensures forall i :: 0 <= i < |old(runtimes)| ==>
        runtimes[i] == if old(runtimes)[i].id == id then Runtime(id, role, None) else old(runtimes)[i]
    {
      var entry := Runtime(id, role, None);
      var listed := runtimes;
      var found := false;
      for i := 0 to |listed|
        invariant |runtimes| == |listed|
        invariant found <==> exists j :: 0 <= j < i && listed[j].id == id
        invariant forall j :: 0 <= j < |listed| ==> runtimes[j] == if j < i && listed[j].id == id then entry else listed[j]
      {
        if listed[i].id == id {
          runtimes := runtimes[i := entry];
          found := true;
        }
      }
      if found {
        var j :| 0 <= j < |listed| && listed[j].id == id;
        assert runtimes[j] in runtimes && listed[j] in listed;
      } else {
        assert !Registered(listed, id);
        runtimes := runtimes + [entry];
        assert runtimes[|listed|] in runtimes;
      }
    }

    method FindOther(id: Id) returns (r: Option<Runtime>)
      ensures r == FirstOther(runtimes, id)
    {
      for i := 0 to |runtimes|
        invariant FirstOther(runtimes, id) == FirstOther(runtimes[i..], id)
      {
        if runtimes[i].id != id { return Some(runtimes[i]); }
        assert runtimes[i..][1..] == runtimes[i + 1..];
      }
      return None;
    }

    method FindCustomer() returns (r: Option<Runtime>)
      ensures r == FirstCustomer(runtimes)
    {
      for i := 0 to |runtimes|
        invariant FirstCustomer(runtimes) == FirstCustomer(runtimes[i..])
      {
        if runtimes[i].role == Customer { return Some(runtimes[i]); }
        assert runtimes[i..][1..] == runtimes[i + 1..];
      }
      return None;
    }

    /** Searches the stream backwards. */
    method FindLastSpeaker() returns (r: Option<Id>)
      ensures r == LastSpeaker(store.events, runtimes)
    {
      var events := store.events;
      var i := |events|;
      assert events[..i] == events;
      while i > 0
        invariant 0 <= i <= |events|
        invariant LastSpeaker(events, runtimes) == LastSpeaker(events[..i], runtimes)
      {
        i := i - 1;
        assert events[..i + 1][..i] == events[..i];
        var sender := events[i].sender;
        if sender.Some? && exists x :: x in runtimes && x.id == sender.value { return sender; }
      }
      return None;
    }

    method ChooseNext() returns (r: Option<Runtime>)
      ensures r == NextParticipant(View(), store.events)
    {
      if |runtimes| == 0 { return None; }
      if |runtimes| == 1 { return Some(runtimes[0]); }
      if lastRan.Some? {
        var other := FindOther(lastRan.value);
        if other.Some? { return other; }
      }
      var speaker := FindLastSpeaker();
      if speaker.None? {
        var customer := FindCustomer();
        return Some(if customer.Some? then customer.value else runtimes[0]);
      }
      var other := FindOther(speaker.value);
      return Some(if other.Some? then other.value else runtimes[0]);
    }

    method AgentBodies() returns (bodies: seq<Body>)
      ensures bodies == Spoken(store.events)
    {
      bodies := [];
      for i := 0 to |store.events|
        invariant bodies == Spoken(store.events[..i])
      {
        assert store.events[..i + 1][..i] == store.events[..i];
        var e := store.events[i];
        if e.sender.Some? && e.content.FromAgent? { bodies := bodies + [e.content.body]; }
      }
      assert store.events[..|store.events|] == store.events;
    }

    static method HashAll(digest: string -> string, bodies: seq<Body>) returns (hs: seq<string>)
      ensures hs == Digests(digest, bodies)
    {
      hs := [];
      for i := 0 to |bodies|
        invariant |hs| == i && forall j :: 0 <= j < i ==> hs[j] == digest(Text(Said(bodies[j])))
      {
        hs := hs + [digest(Text(Said(bodies[i])))];
      }
      assert hs == Digests(digest, bodies);
    }

    static method SomeThrice(hs: seq<string>) returns (some: bool)
      ensures some == Repeats(hs)
    {
      var counts: map<string, nat> := map[];
      for i := 0 to |hs|
        invariant forall h :: h in counts <==> h in hs[..i]
        invariant forall h :: h in counts ==> counts[h] == Count(hs[..i], h)
      {
        assert hs[..i + 1] == hs[..i] + [hs[i]];
        counts := counts[hs[i] := (if hs[i] in counts then counts[hs[i]] else 0) + 1];
      }
      assert hs[..|hs|] == hs;
      some := exists h :: h in counts && counts[h] >= 3;
    }

    /** Counts the digests of the last eight events that agents sent. */
    method DetectLoop(digest: string -> string) returns (looping: bool)
      ensures looping == LoopDetected(digest, store.events)
    {
      var bodies := AgentBodies();
      var hs := HashAll(digest, LastEight(bodies));
      looping := SomeThrice(hs);
    }

    method SetGuidance(id: Id, g: Option<Rule>)
      modifies this`runtimes
      ensures runtimes == Guided(old(runtimes), id, g)
    {
      for i := 0 to |runtimes|
        invariant |runtimes| == |old(runtimes)|
        invariant forall j :: i <= j < |runtimes| ==> runtimes[j] == old(runtimes)[j]
        invariant forall j :: 0 <= j < i ==>
          runtimes[j] == if old(runtimes)[j].id == id then old(runtimes)[j].(guidance := g) else old(runtimes)[j]
      {
        if runtimes[i].id == id { runtimes := runtimes[i := runtimes[i].(guidance := g)]; }
      }
      assert runtimes == Guided(old(runtimes), id, g);
    }

    /** `runTurn` up to the adapter call. */
    method BeginTurn(digest: string -> string, now: int) returns (begun: Begun)
      modifies this, store
      ensures (store.View(), View(), begun) == Begin(digest, old(store.View()), old(View()), now)
    {
      if store.room.state != Active && store.room.state != CompletionProposed { return Stopped; }
      var exceeded := BudgetExceeded(store.room.budget, store.room.usage, now);
      if exceeded.Some? {
        PauseBecause(store, "budget limit reached: " + LimitName(exceeded.value));
        return Stopped;
      }
      var looping := DetectLoop(digest);
      if looping {
        PauseBecause(store, "loop detected: repeated near-identical agent exchanges");
        return Stopped;
      }
      begun := SelectNext();
    }

    method SelectNext() returns (begun: Begun)
      modifies this
      ensures (View(), begun) == Select(store.View(), old(View()))
    {
      var rt := ChooseNext();
      if rt.None? { return Stopped; }
      lastRan := Some(rt.value.id);
      if store.contracts == [] { return Threw; }
      SetGuidance(rt.value.id, None);
      return Turning(rt.value.id);
    }

    /** Every candidate passes the pipeline; the rule of a denial becomes guidance. */
    method SubmitEach(env: Env, id: Id, candidates: seq<Option<Candidate>>, now: int)
      modifies this`runtimes, store
      ensures (store.View(), runtimes) == SubmitAll(env, old(store.View()), old(runtimes), id, candidates, now)
    {
      for i := 0 to |candidates|
        invariant (store.View(), runtimes) == SubmitAll(env, old(store.View()), old(runtimes), id, candidates[..i], now)
      {
        assert candidates[..i + 1][..i] == candidates[..i];
        var r := Pipeline.SubmitCandidateEvent(env, store, id, candidates[i], now);
        if r.Blocked? { SetGuidance(id, Some(r.rule)); }
      }
      assert candidates[..|candidates|] == candidates;
    }

    /** `runTurn` from the adapter's answer on. */
    method FinishTurn(env: Env, id: Id, answer: Answer, now: int)
      modifies this`runtimes, store
      ensures (store.View(), View()) == Finish(env, old(store.View()), old(View()), id, answer, now)
    {
      CountTurn(store, answer.cost);
      SubmitEach(env, id, FirstFour(answer.events), now);
    }

    /** One turn, with whatever else is served while the adapter is being called. */
    method RunTurn(env: Env, digest: string -> string, call: Call, now: int) returns (p: Progress)
      modifies this, store
      ensures (store.View(), View(), p) == Turn(env, digest, old(store.View()), old(View()), call, now)
    {
      var begun := BeginTurn(digest, now);
      if begun.Stopped? { return Halted; }
      if begun.Threw? { return Failed; }
      ServeMeanwhile(env, call.meanwhile);
      if call.answer.None? { return Failed; }
      FinishTurn(env, begun.id, call.answer.value, call.now);
      return Progressed;
    }

    method ServeMeanwhile(env: Env, ops: seq<Op>)
      modifies store
      ensures store.View() == Run(env, old(store.View()), ops)
    {
      assert ops[0..] == ops;
      for i := 0 to |ops|
        invariant Run(env, store.View(), ops[i..]) == Run(env, old(store.View()), ops)
      {
        assert ops[i..][1..] == ops[i + 1..];
        Perform(env, store, ops[i]);
      }
    }

    /** What callers count on: a turn that makes progress adds exactly one to the counter, which was below the limit; what
        any turn does to the room is a run of service calls, with one account exactly if it makes progress; and with somebody
        registered a turn that stops leaves a room that is not ACTIVE. */
    method TakeTurn(env: Env, digest: string -> string, call: Call, now: int) returns (p: Progress, ghost ops: seq<Op>)
      requires env.Valid() && forall op :: op in call.meanwhile ==> !op.OpAccount?
      modifies this, store
      ensures store.View() == Run(env, old(store.View()), ops)
      ensures store.room.budget == old(store.room.budget)
      ensures p == Progressed ==> store.room.usage.turns == old(store.room.usage.turns) + 1 <= store.room.budget.maxTurns
      ensures p != Progressed ==> store.room.usage.turns == old(store.room.usage.turns)
      ensures TurnRuns.Accounts(ops) == if p == Progressed then 1 else 0
      ensures |runtimes| == |old(runtimes)|
      ensures p == Halted && old(runtimes) != [] ==> store.room.state != Active
    {
      TurnLimits.TurnCounts(env, digest, store.View(), View(), call, now);
      TurnRuns.TurnIsRun(env, digest, store.View(), View(), call, now);
      TurnRuns.TurnAccounts(env, digest, store.View(), View(), call, now);
      TurnRuns.TurnKeepsRuntimes(env, digest, store.View(), View(), call, now);
      TurnRuns.HaltedIsNotActive(env, digest, store.View(), View(), call, now);
      ops := TurnRuns.TurnOps(digest, store.View(), View(), call, now);
      p := RunTurn(env, digest, call, now);
    }

    /** Turns until one makes no progress or `maxIterations` are done. The loop ends whatever that number is, even if it
        is unlimited, because every turn uses up the turn budget. */
    method RunLoop(env: Env, digest: string -> string, calls: nat -> Call, clock: nat -> int, maxIterations: Option<nat>)
      returns (turns: nat, ghost ops: seq<Op>)
      requires env.Valid() && forall i, op :: op in calls(i).meanwhile ==> !op.OpAccount?
      modifies this, store
      ensures maxIterations.Some? ==> turns <= maxIterations.value
      ensures store.View() == Run(env, old(store.View()), ops)
      ensures store.room.usage.turns == old(store.room.usage.turns) + turns
      ensures turns == 0 || store.room.usage.turns <= store.room.budget.maxTurns
    {
      turns, ops := 0, [];
      while maxIterations.None? || turns < maxIterations.value
        invariant maxIterations.Some? ==> turns <= maxIterations.value
        invariant store.View() == Run(env, old(store.View()), ops)
        invariant store.room.budget == old(store.room.budget)
        invariant store.room.usage.turns == old(store.room.usage.turns) + turns
        invariant turns == 0 || store.room.usage.turns <= store.room.budget.maxTurns
        decreases store.room.budget.maxTurns - store.room.usage.turns
      {
        var p, more := TakeTurn(env, digest, calls(turns), clock(turns));
        TurnRuns.RunConcat(env, old(store.View()), ops, more);
        ops := ops + more;
        if p != Progressed { return; }
        turns := turns + 1;
      }
    }
  }
}
