/** Which calls move a room where, and what setting up, closing and completing a room leave in its records
    (packages/shared/src/room.ts, packages/core/src/rooms.ts). */
module RoomMoves {
  import opened Wrappers
  import opened Policy
  import opened Events
  import opened RoomData
  import opened RoomSpec
  import Effects = RoomEffects
  import Lifecycle = RoomLifecycle

  // ---------------------------------------------------------------------------------------------
  // Edges and ways
  // ---------------------------------------------------------------------------------------------

  /** Where the edges to a state come from. */
  function Sources(to: RoomState): set<RoomState> {
    match to
    case Draft => {}
    case Invited => {Draft}
    case Negotiating => {Invited}
    case Ready => {Negotiating}
    case Active => {Ready, Paused, CompletionProposed}
    case Paused => {Active, Quarantined}
    case CompletionProposed => {Active}
    case Completed => {CompletionProposed}
    case Closed => {Completed, Canceled, Quarantined}
    case Canceled => {Draft, Invited, Negotiating, Ready, Active, Paused, CompletionProposed, Quarantined}
    case Quarantined => {Negotiating, Ready, Active, Paused, CompletionProposed}
  }

  lemma EdgesByTarget(from: RoomState, to: RoomState)
    ensures CanTransition(from, to) <==> from in Sources(to)
  {
  }

  predicate Working(s: RoomState) { s.Active? || s.Paused? || s.CompletionProposed? || s.Quarantined? }

  /** How far a room has come; once it works it may go to and fro between four states. */
  function Stage(s: RoomState): nat {
    match s
    case Draft => 0
    case Invited => 1
    case Negotiating => 2
    case Ready => 3
    case Completed => 5
    case Canceled => 5
    case Closed => 6
    case _ => 4
  }

  /** A later stage, or another of the working states. */
  predicate Ahead(from: RoomState, to: RoomState) { Stage(from) < Stage(to) || (Working(from) && Working(to)) }

  /** A way along edges. */
  predicate IsWay(way: seq<RoomState>, from: RoomState, to: RoomState) {
    && |way| >= 2 && way[0] == from && way[|way| - 1] == to
    && forall i :: 0 < i < |way| ==> CanTransition(way[i - 1], way[i])
  }

  lemma {:induction false} WaysLeadAhead(way: seq<RoomState>, from: RoomState, to: RoomState)
    requires IsWay(way, from, to)
    ensures Ahead(from, to)
    decreases |way|
  {
    if |way| > 2 {
      var n := |way| - 1;
      assert IsWay(way[..n], from, way[n - 1]);
      WaysLeadAhead(way[..n], from, way[n - 1]);
    }
  }

  lemma Joined(a: seq<RoomState>, b: seq<RoomState>, from: RoomState, via: RoomState, to: RoomState)
    requires IsWay(a, from, via) && IsWay(b, via, to)
    ensures IsWay(a + b[1..], from, to)
  {
  }

  /** Every working state leads to every other. */
  lemma WorkingWay(from: RoomState, to: RoomState) returns (way: seq<RoomState>)
    requires Working(from) && Working(to)
    ensures IsWay(way, from, to)
  {
    var home := if from == Active then [Active, Paused, Active] else if from == Quarantined then [Quarantined, Paused, Active] else [from, Active];
    var out := if to == Active then [Active, Paused, Active] else [Active, to];
    assert IsWay(home, from, Active) && IsWay(out, Active, to);
    Joined(home, out, from, Active, to);
    way := home + out[1..];
  }

  /** From every stage to the next. */
  lemma StageWay(from: RoomState, to: RoomState) returns (way: seq<RoomState>)
    requires Stage(to) == Stage(from) + 1 || (from == Ready && Working(to))
    ensures IsWay(way, from, to)
  {
    if CanTransition(from, to) {
      way := [from, to];
    } else if from == Ready {
      way := WorkingWay(Active, to);
      Joined([Ready, Active], way, Ready, Active, to);
      way := [Ready, Active] + way[1..];
    } else {
      way := WorkingWay(from, CompletionProposed);
      Joined(way, [CompletionProposed, to], from, CompletionProposed, to);
      way := way + [CompletionProposed, to][1..];
    }
  }

  /** Some state of each stage. */
  function SomeOf(stage: nat): RoomState {
    if stage == 0 then Draft else if stage == 1 then Invited else if stage == 2 then Negotiating else if stage == 3 then Ready
    else if stage == 4 then Active else if stage == 5 then Canceled else Closed
  }

  lemma {:induction false} FarWay(from: RoomState, to: RoomState) returns (way: seq<RoomState>)
    requires Stage(from) < Stage(to)
    ensures IsWay(way, from, to)
    decreases Stage(to)
  {
    if Stage(to) == Stage(from) + 1 {
      way := StageWay(from, to);
    } else {
      var via := SomeOf(Stage(to) - 1);
      var more := StageWay(via, to);
      way := FarWay(from, via);
      Joined(way, more, from, via, to);
      way := way + more[1..];
    }
  }

  /** A room can come from one state to another exactly if that is ahead: it never goes back to being set up, once COMPLETED it
      can only be closed, and there is no way out of CLOSED. */
  lemma CanComeToIff(from: RoomState, to: RoomState)
    ensures (exists way :: IsWay(way, from, to)) <==> Ahead(from, to)
  {
    forall way | IsWay(way, from, to) ensures Ahead(from, to) { WaysLeadAhead(way, from, to); }
    if Stage(from) < Stage(to) { var way := FarWay(from, to); }
    else if Working(from) && Working(to) { var way := WorkingWay(from, to); }
  }

  /** Over every run no stored state is behind an earlier one. */
  lemma HistoryNeverGoesBack(env: Env, org: OrgId, budget: Budget, ops: seq<Op>, i: nat, j: nat)
    requires env.Valid() && i < j < |Run(env, CreateRoom(org, budget), ops).history|
    ensures var h := Run(env, CreateRoom(org, budget), ops).history; h[j] == h[i] || Ahead(h[i], h[j])
  {
    Lifecycle.StoredStatesAreLegal(env, org, budget, ops);
    var db := Run(env, CreateRoom(org, budget), ops);
    NoneIsBehind(db.history, db.room.state, i, j);
  }

  lemma {:induction false} NoneIsBehind(h: seq<RoomState>, current: RoomState, i: nat, j: nat)
    requires Lifecycle.LegalHistory(h, current) && i < j < |h|
    ensures h[j] == h[i] || Ahead(h[i], h[j])
    decreases j
  {
    if i < j - 1 { NoneIsBehind(h, current, i, j - 1); }
  }

  // ---------------------------------------------------------------------------------------------
  // Which call moves a room where
  // ---------------------------------------------------------------------------------------------

  predicate CanBeQuarantined(s: RoomState) { s.Negotiating? || s.Ready? || s.Active? || s.Paused? || s.CompletionProposed? }

  /** The calls that may move a room from the one state to the other. */
  predicate Moves(op: Op, from: RoomState, to: RoomState) {
    match to
    case Draft => false
    case Invited => op.OpInvite? && from == Draft
    case Negotiating => op.OpRedeem? && from == Invited
    case Ready => (op.OpApproveContract? || op.OpSetPolicy? || op.OpConnect?) && from == Negotiating
    case Active => (op.OpStart? && from == Ready) || (op.OpResume? && (from.Ready? || from.Paused? || from.CompletionProposed?))
    case Paused => (op.OpPause? && (from.Active? || from.Quarantined?)) || ((op.OpPauseForBudget? || op.OpHalt?) && from == Active)
    case CompletionProposed => (op.OpSubmit? || op.OpDecide?) && from == Active
    case Completed => op.OpApproveCompletion? && from == CompletionProposed
    case Closed => op.OpClose? && from != Closed
    case Canceled => op.OpCancel? && !from.Completed? && !from.Canceled? && !from.Closed?
    case Quarantined => op.OpSubmit? && CanBeQuarantined(from)
  }

  predicate MovesOrStays(op: Op, db: Db, db': Db) { db'.room.state == db.room.state || Moves(op, db.room.state, db'.room.state) }

  /** A proposal lets the room go on only when every required criterion of the latest contract has evidence. */
  predicate EvidenceComplete(db: Db) {
    db.contracts != [] && forall c :: c in Latest(db.contracts).contract.completionCriteria && c.evidenceRequired ==> c.id in db.criteria
  }

  /** Criteria stay, and a proposal came with complete evidence. */
  predicate Proceeds(db: Db, db': Db) {
    && db'.contracts == db.contracts && db.criteria.Keys <= db'.criteria.Keys
    && (db'.room.state == CompletionProposed && db.room.state != CompletionProposed ==> EvidenceComplete(db'))
  }

  lemma SideEffectsMove(db: Db, sender: Id, body: Body)
    ensures var db' := SideEffects(db, sender, body);
      Proceeds(db, db') && (db'.room.state == db.room.state || (db.room.state == Active && db'.room.state == CompletionProposed))
  {
  }

  lemma EffectMoves(env: Env, db: Db, e: Effects.Effect)
    requires Effects.EffectOk(env, db, e)
    ensures var db' := Effects.Apply(env, db, e);
      && Proceeds(db, db')
      && (|| db'.room.state == db.room.state || (db.room.state == Active && db'.room.state == CompletionProposed)
          || (e.Blocking? && db'.room.state == Quarantined && CanBeQuarantined(db.room.state)))
  {
    match e
    case Releasing(sender, body, labels) => SideEffectsMove(Released(db, sender, body, labels), sender, body);
    case Authorizing(id, user, now) =>
      var a := db.approvals[id];
      var released := Released(Decided(db, id, Approved, user, now), a.requestedBy, a.body, env.scan(a.body, None).classification);
      SideEffectsMove(Noted(released, ActionAuthorized(id, ActionOf(a.body), db.nextId)), a.requestedBy, a.body);
    case _ =>
  }

  /** What submissions and decisions do to the state. */
  predicate Advances(db: Db, db': Db) {
    && Proceeds(db, db')
    && (|| db'.room.state == db.room.state || (db.room.state == Active && db'.room.state == CompletionProposed)
        || (db'.room.state == Quarantined && CanBeQuarantined(db.room.state)))
  }

  lemma SubmitAdvances(env: Env, db: Db, sender: Id, candidate: Option<Candidate>, now: int)
    requires env.Valid()
    ensures Advances(db, Submit(env, db, sender, candidate, now).0)
  {
    var e := Effects.SubmitEffect(env, db, sender, candidate, now);
    EffectMoves(env, db, e);
  }

  lemma DecideGoes(env: Env, db: Db, org: OrgId, user: UserId, id: Id, approve: bool, now: int)
    ensures Goes(db, DecideApproval(env, db, org, user, id, approve, now).0, Active, CompletionProposed)
  {
    var e := Effects.DecideEffect(env, db, org, user, id, approve, now);
    EffectMoves(env, db, e);
  }

  lemma SubmissionMoves(env: Env, db: Db, op: Op)
    requires env.Valid() && op.OpSubmit?
    ensures MovesOrStays(op, db, Exec(env, db, op)) && Proceeds(db, Exec(env, db, op))
  {
    SubmitAdvances(env, db, op.sender, op.candidate, op.now);
    assert Exec(env, db, op) == Submit(env, db, op.sender, op.candidate, op.now).0;
  }

  lemma DecisionMoves(env: Env, db: Db, op: Op)
    requires op.OpDecide?
    ensures MovesOrStays(op, db, Exec(env, db, op)) && Proceeds(db, Exec(env, db, op))
  {
    DecideGoes(env, db, op.org, op.user, op.approvalId, op.approve, op.now);
  }

  lemma PlatformMoves(env: Env, db: Db, op: Op)
    requires op.OpPauseForBudget? || op.OpAccount? || op.OpHalt? || op.OpReport?
    ensures MovesOrStays(op, db, Exec(env, db, op)) && Proceeds(db, Exec(env, db, op))
  {
  }

  lemma JoiningMoves(env: Env, db: Db, op: Op)
    requires op.OpInvite? || op.OpRedeem?
    ensures MovesOrStays(op, db, Exec(env, db, op)) && Proceeds(db, Exec(env, db, op))
  {
  }

  lemma ProposalMoves(env: Env, db: Db, op: Op)
    requires op.OpPropose?
    ensures var db' := Exec(env, db, op); db'.room == db.room && (db'.contracts == db.contracts || Negotiable(db.room.state))
    ensures Exec(env, db, op).criteria == db.criteria
  {
  }

  /** The state stays, or goes from the one to the other. */
  predicate Goes(db: Db, db': Db, from: RoomState, to: RoomState) {
    Proceeds(db, db') && (db'.room.state == db.room.state || (db.room.state == from && db'.room.state == to))
  }

  lemma MarkReadyGoes(db: Db, p: Participant)
    ensures Goes(db, MarkReady(StoreParticipant(db, p)), Negotiating, Ready)
  {
  }

  lemma ApproveContractGoes(db: Db, caller: Id, version: int)
    ensures Goes(db, ApproveContract(db, caller, version).0, Negotiating, Ready)
  {
    var p := Find(db.participants, caller);
    if p.Some? { MarkReadyGoes(db, p.value.(contractApproved := Some(version))); }
  }

  lemma SetPolicyGoes(db: Db, caller: Id, policy: Option<ParticipantPolicy>)
    ensures Goes(db, SetPolicy(db, caller, policy).0, Negotiating, Ready)
  {
    var p := Find(db.participants, caller);
    if p.Some? { MarkReadyGoes(db, p.value.(policy := policy)); }
  }

  lemma ConnectGoes(db: Db, caller: Id, agent: Id, owned: bool)
    ensures Goes(db, ConnectAgent(db, caller, agent, owned).0, Negotiating, Ready)
  {
    var p := Find(db.participants, caller);
    if p.Some? { MarkReadyGoes(db, p.value.(agent := Some(agent))); }
  }

  lemma TermsMove(env: Env, db: Db, op: Op)
    requires op.OpApproveContract? || op.OpSetPolicy? || op.OpConnect?
    ensures Goes(db, Exec(env, db, op), Negotiating, Ready)
  {
    match op
    case OpApproveContract(caller, version) => ApproveContractGoes(db, caller, version);
    case OpSetPolicy(caller, policy) => SetPolicyGoes(db, caller, policy);
    case OpConnect(caller, agent, owned) => ConnectGoes(db, caller, agent, owned);
  }

  lemma ChangeStateMoves(db: Db, caller: Id, to: RoomState)
    ensures var db' := ChangeState(db, caller, to).0;
      && db'.contracts == db.contracts && db'.criteria == db.criteria
      && (db'.room.state == db.room.state || (CanTransition(db.room.state, to) && db'.room.state == to))
  {
    assert ChangeState(db, caller, to).0 == db || ChangeState(db, caller, to).0 == Moved(db, to);
  }

  lemma StartGoes(db: Db, caller: Id, now: int)
    ensures Goes(db, StartRoom(db, caller, now).0, Ready, Active)
  {
  }

  lemma ChangeMoves(env: Env, db: Db, op: Op)
    requires op.OpPause? || op.OpResume? || op.OpCancel?
    ensures MovesOrStays(op, db, Exec(env, db, op)) && Proceeds(db, Exec(env, db, op))
  {
    match op
    case OpPause(caller) => ChangeStateMoves(db, caller, Paused);
    case OpResume(caller) => ChangeStateMoves(db, caller, Active);
    case OpCancel(caller) => ChangeStateMoves(db, caller, Canceled);
  }

  lemma CloseMoves(db: Db, caller: Id, now: int)
    ensures var db' := CloseRoom(db, caller, now).0;
      Proceeds(db, db') && (db'.room.state == db.room.state || (db.room.state != Closed && db'.room.state == Closed))
  {
  }

  lemma CompletionGoes(db: Db, caller: Id, user: UserId, now: int)
    ensures Goes(db, ApproveCompletion(db, caller, user, now).0, CompletionProposed, Completed)
  {
  }

  lemma VerifyGoes(db: Db, caller: Id, evidenceId: Id, user: UserId)
    ensures Goes(db, VerifyEvidence(db, caller, evidenceId, user).0, Draft, Draft)
  {
  }

  lemma EndingMoves(env: Env, db: Db, op: Op)
    requires op.OpClose? || op.OpApproveCompletion?
    ensures MovesOrStays(op, db, Exec(env, db, op)) && Proceeds(db, Exec(env, db, op))
  {
    if op.OpClose? { CloseMoves(db, op.caller, op.now); } else { CompletionGoes(db, op.caller, op.user, op.now); }
  }

  lemma StartingMoves(env: Env, db: Db, op: Op)
    requires op.OpStart? || op.OpVerify?
    ensures MovesOrStays(op, db, Exec(env, db, op)) && Proceeds(db, Exec(env, db, op))
  {
    if op.OpStart? { StartGoes(db, op.caller, op.now); } else { VerifyGoes(db, op.caller, op.evidenceId, op.user); }
  }

  /** Every call moves a room only where the table says. */
  lemma StepMoves(env: Env, db: Db, op: Op)
    requires env.Valid()
    ensures MovesOrStays(op, db, Exec(env, db, op)) && (!op.OpPropose? ==> Proceeds(db, Exec(env, db, op)))
  {
    if op.OpSubmit? { SubmissionMoves(env, db, op); }
    else if op.OpDecide? { DecisionMoves(env, db, op); }
    else if Works(op) { PlatformMoves(env, db, op); }
    else if op.OpInvite? || op.OpRedeem? { JoiningMoves(env, db, op); }
    else if op.OpPropose? { ProposalMoves(env, db, op); }
    else if SetsUp(op) { TermsMove(env, db, op); }
    else if op.OpPause? || op.OpResume? || op.OpCancel? { ChangeMoves(env, db, op); }
    else if op.OpClose? || op.OpApproveCompletion? { EndingMoves(env, db, op); }
    else { StartingMoves(env, db, op); }
  }

  /** A room with completion proposed has evidence for every required criterion of its contract. */
  lemma {:induction false} ProposedMeansEvidenceFrom(env: Env, db: Db, ops: seq<Op>)
    requires env.Valid() && (db.room.state == CompletionProposed ==> EvidenceComplete(db))
    ensures Run(env, db, ops).room.state == CompletionProposed ==> EvidenceComplete(Run(env, db, ops))
    decreases |ops|
  {
    if ops != [] {
      StepMoves(env, db, ops[0]);
      if ops[0].OpPropose? { ProposalMoves(env, db, ops[0]); }
      ProposedMeansEvidenceFrom(env, Exec(env, db, ops[0]), ops[1..]);
    }
  }

  lemma ProposedMeansEvidence(env: Env, org: OrgId, budget: Budget, ops: seq<Op>)
    requires env.Valid() && Run(env, CreateRoom(org, budget), ops).room.state == CompletionProposed
    ensures EvidenceComplete(Run(env, CreateRoom(org, budget), ops))
  {
    ProposedMeansEvidenceFrom(env, CreateRoom(org, budget), ops);
  }

  /** The other way round: where a participant's completion proposal is let pass, an ACTIVE room moves on exactly if the
      evidence is complete, and otherwise the stream tells of the rejection. */
  lemma ProposalIsDecidedByEvidence(db: Db, sender: Id, body: Body)
    requires body.CompletionProposal?
    ensures var db' := SideEffects(db, sender, body);
      && (EvidenceComplete(db) ==>
            db'.room.state == (if db.room.state == Active then CompletionProposed else db.room.state) && db'.events == db.events)
      && (!EvidenceComplete(db) ==>
            && db'.room == db.room && |db'.events| == |db.events| + 1 && db.events <= db'.events
            && db'.events[|db.events|].content == FromPlatform(CompletionRejected))
  {
  }

  /** Evidence for a criterion of the contract is recorded as claimed by its sender, and makes the criterion's state "evidence
      submitted" unless it is verified; evidence for anything else changes nothing. */
  lemma EvidenceIsClaimed(db: Db, sender: Id, body: Body)
    requires body.EvidenceSubmission?
    ensures var db', id := SideEffects(db, sender, body), body.criterionId;
      if db.contracts != [] && exists c :: c in Latest(db.contracts).contract.completionCriteria && c.id == id then
        && db'.(evidence := db.evidence, criteria := db.criteria, nextId := db.nextId) == db
        && db'.evidence == db.evidence[db.nextId := Evidence(id, sender, Claimed, None)] && db'.nextId == db.nextId + 1
        && db'.criteria == db.criteria[id := if id in db.criteria && db.criteria[id] == Verified then Verified else EvidenceSubmitted]
      else db' == db
  {
    var id := body.criterionId;
    if id in db.criteria && db.criteria[id] == Verified { assert db.criteria[id := Verified] == db.criteria; }
  }
}
