/** Room states over whole runs: every stored state follows an edge, closing always works, and a closed room stays closed. */
module RoomLifecycle {
  import opened Wrappers
  import opened Policy
  import opened Events
  import opened RoomData
  import opened RoomSpec
  import opened RoomEffects

  /** Each stored state repeats the one before it or follows a legal edge, and the last one is current. */
  predicate LegalHistory(h: seq<RoomState>, current: RoomState) {
    && h != [] && h[|h| - 1] == current
    && forall i :: 0 < i < |h| ==> h[i] == h[i - 1] || CanTransition(h[i - 1], h[i])
  }

  predicate Joined(s: RoomState) { !s.Draft? && !s.Invited? && !s.Canceled? && !s.Closed? }

  /** One or two participants of different organizations; from negotiation on, until closing, two. */
  predicate PartiesOk(db: Db) {
    && 1 <= |db.participants| <= 2
    && (|db.participants| == 2 ==>
          db.participants[0].id != db.participants[1].id && db.participants[0].org != db.participants[1].org)
    && (forall p :: p in db.participants ==> p.id < db.nextId)
    && (Joined(db.room.state) ==> |db.participants| == 2)
  }

  predicate InviteOk(i: Invite) {
    i.maxRedemptions == 1 && 0 <= i.redemptions <= 1 && (i.redeemedAt.Some? <==> i.redemptions == 1)
  }

  predicate InvitesOk(db: Db) { forall id :: id in db.invites ==> InviteOk(db.invites[id]) }

  predicate Redeemable(i: Invite) { i.revokedAt.None? && i.redemptions < i.maxRedemptions }

  /** Nothing of a closed room can still be decided or redeemed. */
  predicate Sealed(db: Db) {
    && (forall id :: id in db.approvals ==> db.approvals[id].status != Pending)
    && (forall id :: id in db.invites ==> !Redeemable(db.invites[id]))
  }

  predicate Inv(db: Db) {
    && LegalHistory(db.history, db.room.state) && PartiesOk(db) && InvitesOk(db)
    && (db.room.state == Closed ==> Sealed(db))
  }

  // ---------------------------------------------------------------------------------------------
  // One step
  // ---------------------------------------------------------------------------------------------

  /** The room state was left alone, or one legal state was stored. */
  predicate StateMoves(db: Db, db': Db) {
    || (db'.history == db.history && db'.room.state == db.room.state)
    || (db'.history == db.history + [db'.room.state]
        && (db'.room.state == db.room.state || CanTransition(db.room.state, db'.room.state)))
  }

  predicate SameParty(p: Participant, p': Participant) { p'.id == p.id && p'.org == p.org }

  /** What every call but inviting, redeeming and closing does: no new participant or invite, at most one legal state,
      never CLOSED, and no new pending approval except in a room that routes events. */
  predicate Quiet(db: Db, db': Db) {
    && |db'.participants| == |db.participants|
    && (forall i :: 0 <= i < |db.participants| ==> SameParty(db.participants[i], db'.participants[i]))
    && db.nextId <= db'.nextId && db'.invites == db.invites
    && StateMoves(db, db') && (db'.room.state == Closed ==> db.room.state == Closed)
    && (!Joined(db.room.state) ==> !Joined(db'.room.state))
    && (forall id :: id in db'.approvals && db'.approvals[id].status == Pending ==>
          Routes(db.room.state) || (id in db.approvals && db.approvals[id].status == Pending))
  }

  lemma MoveKeepsHistory(db: Db, db': Db)
    requires LegalHistory(db.history, db.room.state) && StateMoves(db, db')
    ensures LegalHistory(db'.history, db'.room.state)
  {
  }

  lemma QuietKeepsParties(db: Db, db': Db)
    requires PartiesOk(db) && Quiet(db, db')
    ensures PartiesOk(db')
  {
    assert forall p :: p in db'.participants ==> exists i :: 0 <= i < |db.participants| && p.id == db.participants[i].id;
  }

  lemma QuietKeepsInv(db: Db, db': Db)
    requires Inv(db) && Quiet(db, db')
    ensures Inv(db')
  {
    MoveKeepsHistory(db, db');
    QuietKeepsParties(db, db');
  }

  /** `p'` is a newer record of participant `p`. */
  predicate Renews(db: Db, p: Participant, p': Participant) { PartiesOk(db) && p in db.participants && SameParty(p, p') }

  lemma RenewalKeepsParties(db: Db, p: Participant, p': Participant)
    requires Renews(db, p, p')
    ensures forall i :: 0 <= i < |db.participants| ==> SameParty(db.participants[i], StoreParticipant(db, p').participants[i])
  {
    assert forall i :: 0 <= i < |db.participants| && db.participants[i].id == p.id ==> db.participants[i] == p;
  }

  lemma MarkReadyIsQuiet(db: Db, p: Participant, p': Participant)
    requires Renews(db, p, p')
    ensures Quiet(db, MarkReady(StoreParticipant(db, p')))
  {
    RenewalKeepsParties(db, p, p');
  }

  lemma ProposeIsQuiet(db: Db, caller: Id, contract: Option<Contract>)
    ensures Quiet(db, ProposeContract(db, caller, contract).0)
  {
  }

  lemma ApproveContractIsQuiet(db: Db, caller: Id, version: int)
    requires PartiesOk(db)
    ensures Quiet(db, ApproveContract(db, caller, version).0)
  {
    var p := Find(db.participants, caller);
    if p.Some? { MarkReadyIsQuiet(db, p.value, p.value.(contractApproved := Some(version))); }
  }

  lemma SetPolicyIsQuiet(db: Db, caller: Id, policy: Option<ParticipantPolicy>)
    requires PartiesOk(db)
    ensures Quiet(db, SetPolicy(db, caller, policy).0)
  {
    var p := Find(db.participants, caller);
    if p.Some? { MarkReadyIsQuiet(db, p.value, p.value.(policy := policy)); }
  }

  lemma ConnectIsQuiet(db: Db, caller: Id, agent: Id, owned: bool)
    requires PartiesOk(db)
    ensures Quiet(db, ConnectAgent(db, caller, agent, owned).0)
  {
    var p := Find(db.participants, caller);
    if p.Some? { MarkReadyIsQuiet(db, p.value, p.value.(agent := Some(agent))); }
  }

  lemma NothingIsQuiet(db: Db)
    ensures Quiet(db, db)
  {
  }

  lemma StoreIsQuiet(db: Db, room: Room)
    requires (room.state.Closed? ==> db.room.state.Closed?) && (Joined(room.state) ==> Joined(db.room.state))
    requires room.state == db.room.state || CanTransition(db.room.state, room.state)
    ensures Quiet(db, StoreRoom(db, room))
  {
  }

  lemma StoreParticipantIsQuiet(db: Db, p: Participant, p': Participant, room: Room)
    requires Renews(db, p, p') && Quiet(db, StoreRoom(db, room))
    ensures Quiet(db, StoreParticipant(db, p')) && Quiet(db, StoreRoom(StoreParticipant(db, p'), room))
  {
    RenewalKeepsParties(db, p, p');
  }

  lemma CompletionIsQuiet(db: Db, caller: Id, user: UserId, now: int)
    requires PartiesOk(db)
    ensures Quiet(db, ApproveCompletion(db, caller, user, now).0)
  {
    NothingIsQuiet(db);
    var p := Find(db.participants, caller);
    if p.Some? && db.room.state.CompletionProposed? {
      var room := db.room.(state := Completed, completedAt := Some(now));
      StoreIsQuiet(db, room);
      StoreParticipantIsQuiet(db, p.value, p.value.(completionApprovedBy := Some(user)), room);
    }
  }

  lemma VerifyIsQuiet(db: Db, caller: Id, evidenceId: Id, user: UserId)
    ensures Quiet(db, VerifyEvidence(db, caller, evidenceId, user).0)
  {
  }

  lemma ChangeIsQuiet(db: Db, caller: Id, to: RoomState)
    requires to.Paused? || to.Active? || to.Canceled?
    ensures Quiet(db, ChangeState(db, caller, to).0)
  {
    NothingIsQuiet(db);
    if CanTransition(db.room.state, to) { StoreIsQuiet(db, db.room.(state := to)); }
  }

  lemma NoteIsQuiet(db: Db, db': Db, notice: Notice)
    requires Quiet(db, db')
    ensures Quiet(db, Noted(db', notice))
  {
  }

  lemma SystemIsQuiet(db: Db, reason: string, cost: real)
    ensures Quiet(db, PauseForBudget(db, reason)) && Quiet(db, AccountTurn(db, cost))
    ensures Quiet(db, HaltRoom(db)) && Quiet(db, ReportAgentFailure(db, reason))
  {
    NothingIsQuiet(db);
    NoteIsQuiet(db, db, AgentFailure(reason));
    StoreIsQuiet(db, AccountTurn(db, cost).room);
    if db.room.state.Active? {
      StoreIsQuiet(db, db.room.(state := Paused));
      NoteIsQuiet(db, Moved(db, Paused), RoomPaused(reason));
    }
  }

  lemma BlockIsQuiet(db: Db, sender: Id, body: Body, rule: Rule, secret: bool)
    ensures Quiet(db, Block(db, sender, body, rule, secret))
  {
  }

  lemma HoldIsQuiet(env: Env, db: Db, sender: Participant, body: Body, now: int)
    requires Routes(db.room.state)
    ensures Quiet(db, Hold(env, db, sender, body, now))
  {
  }

  lemma SideEffectsIsQuiet(db: Db, sender: Id, body: Body)
    ensures Quiet(db, SideEffects(db, sender, body))
  {
  }

  /** Participants, invites, room and history stay; approvals only leave PENDING. */
  predicate OnlySettles(db: Db, db': Db) {
    && db'.participants == db.participants && db'.invites == db.invites && db'.room == db.room && db'.history == db.history
    && db.nextId <= db'.nextId
    && (forall id :: id in db'.approvals && db'.approvals[id].status == Pending ==> id in db.approvals && db.approvals[id].status == Pending)
  }

  lemma QuietAfterSettling(db: Db, db1: Db, db2: Db)
    requires OnlySettles(db, db1) && Quiet(db1, db2)
    ensures Quiet(db, db2)
  {
  }

  lemma EffectIsQuiet(env: Env, db: Db, e: Effect)
    requires EffectOk(env, db, e)
    ensures Quiet(db, Apply(env, db, e))
  {
    match e
    case Nothing =>
    case Blocking(sender, body, rule, secret) => BlockIsQuiet(db, sender, body, rule, secret);
    case Holding(holder, body, now) => HoldIsQuiet(env, db, holder, body, now);
    case Releasing(sender, body, labels) =>
      SideEffectsIsQuiet(Released(db, sender, body, labels), sender, body);
      QuietAfterSettling(db, Released(db, sender, body, labels), Apply(env, db, e));
    case Settling(_, _) =>
    case Rejecting(_, _, _) =>
    case Authorizing(id, user, now) => AuthorizeIsQuiet(env, db, id, user, now);
  }

  lemma AuthorizeIsQuiet(env: Env, db: Db, id: Id, user: UserId, now: int)
    requires id in db.approvals
    ensures Quiet(db, Authorize(env, db, id, user, now))
  {
    var a := db.approvals[id];
    var released := Released(Decided(db, id, Approved, user, now), a.requestedBy, a.body, env.scan(a.body, None).classification);
    var noted := Noted(released, ActionAuthorized(id, ActionOf(a.body), db.nextId));
    SideEffectsIsQuiet(noted, a.requestedBy, a.body);
    QuietAfterSettling(db, noted, Authorize(env, db, id, user, now));
  }

  lemma StartKeeps(db: Db, caller: Id, now: int)
    requires Inv(db)
    ensures Inv(StartRoom(db, caller, now).0)
  {
    if StartRoom(db, caller, now).1.Ok? {
      var active := Moved(db, Active);
      QuietKeepsInv(db, active);
      QuietKeepsInv(active, StartRoom(db, caller, now).0);
    }
  }

  lemma InviteKeeps(db: Db, caller: Id, expiresInMs: int, now: int)
    requires Inv(db)
    ensures Inv(CreateInvite(db, caller, expiresInMs, now).0)
  {
    var db' := CreateInvite(db, caller, expiresInMs, now).0;
    MoveKeepsHistory(db, db');
  }

  lemma RedeemKeeps(db: Db, org: OrgId, inviteId: Id, addressOk: bool, now: int)
    requires Inv(db)
    ensures Inv(RedeemInvite(db, org, inviteId, addressOk, now).0)
  {
    var db' := RedeemInvite(db, org, inviteId, addressOk, now).0;
    MoveKeepsHistory(db, db');
  }

  lemma CloseKeeps(db: Db, caller: Id, now: int)
    requires Inv(db)
    ensures Inv(CloseRoom(db, caller, now).0)
  {
    var db' := CloseRoom(db, caller, now).0;
    if CloseRoom(db, caller, now).1.Ok? {
      var current := if ClosesDirectly(db.room.state) then db else Moved(db, Canceled);
      MoveKeepsHistory(db, current);
      MoveKeepsHistory(current, db');
    }
  }

  lemma StepKeepsInv(env: Env, db: Db, op: Op)
    requires env.Valid() && Inv(db)
    ensures Inv(Exec(env, db, op))
  {
    match op
    case OpInvite(caller, expiresInMs, now) => InviteKeeps(db, caller, expiresInMs, now);
    case OpRedeem(org, inviteId, addressOk, now) => RedeemKeeps(db, org, inviteId, addressOk, now);
    case OpStart(caller, now) => StartKeeps(db, caller, now);
    case OpClose(caller, now) => CloseKeeps(db, caller, now);
    case _ =>
      OtherStepIsQuiet(env, db, op);
      QuietKeepsInv(db, Exec(env, db, op));
  }

  lemma TermsStepIsQuiet(env: Env, db: Db, op: Op)
    requires PartiesOk(db) && SetsUp(op) && !op.OpInvite? && !op.OpRedeem?
    ensures Quiet(db, Exec(env, db, op))
  {
    match op
    case OpPropose(caller, contract) => ProposeIsQuiet(db, caller, contract);
    case OpApproveContract(caller, version) => ApproveContractIsQuiet(db, caller, version);
    case OpSetPolicy(caller, policy) => SetPolicyIsQuiet(db, caller, policy);
    case OpConnect(caller, agent, owned) => ConnectIsQuiet(db, caller, agent, owned);
  }

  lemma MoveStepIsQuiet(env: Env, db: Db, op: Op)
    requires PartiesOk(db) && !SetsUp(op) && !Works(op) && !op.OpStart? && !op.OpClose?
    ensures Quiet(db, Exec(env, db, op))
  {
    match op
    case OpPause(caller) => ChangeIsQuiet(db, caller, Paused);
    case OpResume(caller) => ChangeIsQuiet(db, caller, Active);
    case OpCancel(caller) => ChangeIsQuiet(db, caller, Canceled);
    case OpApproveCompletion(caller, user, now) => CompletionIsQuiet(db, caller, user, now);
    case OpVerify(caller, evidenceId, user) => VerifyIsQuiet(db, caller, evidenceId, user);
  }

  lemma SubmitIsQuiet(env: Env, db: Db, sender: Id, candidate: Option<Candidate>, now: int)
    requires env.Valid()
    ensures Quiet(db, Submit(env, db, sender, candidate, now).0)
  {
    var e := SubmitEffect(env, db, sender, candidate, now);
    EffectIsQuiet(env, db, e);
  }

  lemma DecideIsQuiet(env: Env, db: Db, org: OrgId, user: UserId, id: Id, approve: bool, now: int)
    ensures Quiet(db, DecideApproval(env, db, org, user, id, approve, now).0)
  {
    var e := DecideEffect(env, db, org, user, id, approve, now);
    EffectIsQuiet(env, db, e);
  }

  lemma SubmissionStepIsQuiet(env: Env, db: Db, op: Op)
    requires env.Valid() && op.OpSubmit?
    ensures Quiet(db, Exec(env, db, op))
  {
    SubmitIsQuiet(env, db, op.sender, op.candidate, op.now);
  }

  lemma DecisionStepIsQuiet(env: Env, db: Db, op: Op)
    requires op.OpDecide?
    ensures Quiet(db, Exec(env, db, op))
  {
    DecideIsQuiet(env, db, op.org, op.user, op.approvalId, op.approve, op.now);
  }

  lemma PlatformStepIsQuiet(env: Env, db: Db, op: Op)
    requires Works(op) && !op.OpSubmit? && !op.OpDecide?
    ensures Quiet(db, Exec(env, db, op))
  {
    var reason := if op.OpPauseForBudget? then op.reason else if op.OpReport? then op.detail else "";
    SystemIsQuiet(db, reason, if op.OpAccount? then op.cost else 0.0);
  }

  lemma WorkStepIsQuiet(env: Env, db: Db, op: Op)
    requires env.Valid() && Works(op)
    ensures Quiet(db, Exec(env, db, op))
  {
    if op.OpSubmit? { SubmissionStepIsQuiet(env, db, op); }
    else if op.OpDecide? { DecisionStepIsQuiet(env, db, op); }
    else { PlatformStepIsQuiet(env, db, op); }
  }

  lemma OtherStepIsQuiet(env: Env, db: Db, op: Op)
    requires env.Valid() && PartiesOk(db) && !op.OpInvite? && !op.OpRedeem? && !op.OpStart? && !op.OpClose?
    ensures Quiet(db, Exec(env, db, op))
  {
    if SetsUp(op) { TermsStepIsQuiet(env, db, op); } else if Works(op) { WorkStepIsQuiet(env, db, op); } else { MoveStepIsQuiet(env, db, op); }
  }

  lemma {:induction false} RunKeepsInv(env: Env, db: Db, ops: seq<Op>)
    requires env.Valid() && Inv(db)
    ensures Inv(Run(env, db, ops))
    decreases |ops|
  {
    if ops != [] {
      StepKeepsInv(env, db, ops[0]);
      RunKeepsInv(env, Exec(env, db, ops[0]), ops[1..]);
    }
  }

  lemma CreatedIsInv(org: OrgId, budget: Budget)
    ensures Inv(CreateRoom(org, budget))
  {
  }

  // ---------------------------------------------------------------------------------------------
  // Main results
  // ---------------------------------------------------------------------------------------------

  /** Over every run, whatever is called in whatever order, each stored room state follows a legal edge. */
  lemma StoredStatesAreLegal(env: Env, org: OrgId, budget: Budget, ops: seq<Op>)
    requires env.Valid()
    ensures var db := Run(env, CreateRoom(org, budget), ops); LegalHistory(db.history, db.room.state)
  {
    CreatedIsInv(org, budget);
    RunKeepsInv(env, CreateRoom(org, budget), ops);
  }

  /** Over every run a room has at most two participants, of different organizations, and each of its invites was
      redeemed at most once, namely exactly when it has a redemption time. */
  lemma PartiesAndInvites(env: Env, org: OrgId, budget: Budget, ops: seq<Op>)
    requires env.Valid()
    ensures var db := Run(env, CreateRoom(org, budget), ops);
      && 1 <= |db.participants| <= 2
      && (|db.participants| == 2 ==> db.participants[0].org != db.participants[1].org)
      && (forall id :: id in db.invites ==> db.invites[id].redemptions == if db.invites[id].redeemedAt.Some? then 1 else 0)
  {
    CreatedIsInv(org, budget);
    RunKeepsInv(env, CreateRoom(org, budget), ops);
  }

  /** A participant can close the room in every state but CLOSED, and nothing is left to decide or redeem. */
  lemma ClosingSucceeds(db: Db, caller: Id, now: int)
    requires Inv(db) && Find(db.participants, caller).Some?
    ensures CloseRoom(db, caller, now).1.Ok? <==> !db.room.state.Closed?
    ensures CloseRoom(db, caller, now).1.Ok? ==> CloseRoom(db, caller, now).0.room.state.Closed? && Sealed(CloseRoom(db, caller, now).0)
  {
    CloseKeeps(db, caller, now);
  }

  /** `db'` only adds events of the platform. */
  predicate OnlyPlatformEvents(db: Db, db': Db) {
    && db.events <= db'.events
    && forall i :: |db.events| <= i < |db'.events| ==> db'.events[i].sender.None?
  }

  lemma ClosedEffect(env: Env, db: Db, e: Effect)
    requires db.room.state.Closed? && Sealed(db) && EffectOk(env, db, e)
    ensures OnlyPlatformEvents(db, Apply(env, db, e))
  {
    assert e.Nothing? || e.Blocking?;
  }

  lemma ClosedSetup(env: Env, db: Db, op: Op)
    requires db.room.state.Closed?
    requires op.OpInvite? || op.OpPropose? || op.OpApproveContract? || op.OpSetPolicy? || op.OpConnect?
    ensures Exec(env, db, op).room.state.Closed? && OnlyPlatformEvents(db, Exec(env, db, op))
  {
  }

  lemma ClosedStays(db: Db, caller: Id, to: RoomState, now: int)
    requires db.room.state.Closed?
    ensures ChangeState(db, caller, to).0 == db && StartRoom(db, caller, now).0 == db && CloseRoom(db, caller, now).0 == db
  {
  }

  lemma ClosedMove(env: Env, db: Db, op: Op)
    requires db.room.state.Closed? && !SetsUp(op) && !Works(op)
    ensures Exec(env, db, op).room.state.Closed? && OnlyPlatformEvents(db, Exec(env, db, op))
  {
    match op
    case OpStart(caller, now) => ClosedStays(db, caller, Active, now);
    case OpPause(caller) => ClosedStays(db, caller, Paused, 0);
    case OpResume(caller) => ClosedStays(db, caller, Active, 0);
    case OpCancel(caller) => ClosedStays(db, caller, Canceled, 0);
    case OpClose(caller, now) => ClosedStays(db, caller, Closed, now);
    case _ =>
  }

  lemma ClosedSubmit(env: Env, db: Db, sender: Id, candidate: Option<Candidate>, now: int)
    requires env.Valid() && db.room.state.Closed? && Sealed(db)
    ensures var db' := Submit(env, db, sender, candidate, now).0; db'.room.state.Closed? && OnlyPlatformEvents(db, db')
  {
    var e := SubmitEffect(env, db, sender, candidate, now);
    EffectIsQuiet(env, db, e);
    ClosedEffect(env, db, e);
  }

  lemma ClosedDecide(env: Env, db: Db, org: OrgId, user: UserId, id: Id, approve: bool, now: int)
    requires db.room.state.Closed? && Sealed(db)
    ensures var db' := DecideApproval(env, db, org, user, id, approve, now).0; db'.room.state.Closed? && OnlyPlatformEvents(db, db')
  {
    var e := DecideEffect(env, db, org, user, id, approve, now);
    EffectIsQuiet(env, db, e);
    ClosedEffect(env, db, e);
  }

  lemma ClosedWork(env: Env, db: Db, op: Op)
    requires env.Valid() && db.room.state.Closed? && Sealed(db) && Works(op)
    ensures Exec(env, db, op).room.state.Closed? && OnlyPlatformEvents(db, Exec(env, db, op))
  {
    match op
    case OpSubmit(sender, candidate, now) => ClosedSubmit(env, db, sender, candidate, now);
    case OpDecide(org, user, id, approve, now) => ClosedDecide(env, db, org, user, id, approve, now);
    case _ =>
  }

  lemma ClosedRedeem(db: Db, org: OrgId, inviteId: Id, addressOk: bool, now: int)
    requires Sealed(db)
    ensures RedeemInvite(db, org, inviteId, addressOk, now).0 == db
  {
    assert InviteProblem(db, inviteId, addressOk, now).Some?;
  }

  lemma ClosedStep(env: Env, db: Db, op: Op)
    requires env.Valid() && db.room.state.Closed? && Sealed(db)
    ensures Exec(env, db, op).room.state.Closed? && OnlyPlatformEvents(db, Exec(env, db, op))
  {
    if op.OpRedeem? { ClosedRedeem(db, op.org, op.inviteId, op.addressOk, op.now); }
    else if SetsUp(op) { ClosedSetup(env, db, op); }
    else if Works(op) { ClosedWork(env, db, op); }
    else { ClosedMove(env, db, op); }
  }

  /** Once CLOSED: whatever follows, the turn of an agent still in flight included, the room stays CLOSED, has no pending
      approval and no redeemable invite, and no event of an agent is added. */
  lemma {:induction false} ClosedForever(env: Env, db: Db, ops: seq<Op>)
    requires env.Valid() && Inv(db) && db.room.state.Closed?
    ensures var db' := Run(env, db, ops); db'.room.state.Closed? && Sealed(db') && OnlyPlatformEvents(db, db')
    decreases |ops|
  {
    if ops != [] {
      var next := Exec(env, db, ops[0]);
      StepKeepsInv(env, db, ops[0]);
      ClosedStep(env, db, ops[0]);
      ClosedForever(env, next, ops[1..]);
    }
  }

  /** Redeeming an invite stores the invite and the participant before it checks the room's state: a refused call leaves
      them behind exactly when only that last check fails. */
  lemma RefusedRedemption(db: Db, org: OrgId, inviteId: Id, addressOk: bool, now: int)
    requires RedeemInvite(db, org, inviteId, addressOk, now).1.Err?
    ensures RedeemInvite(db, org, inviteId, addressOk, now).0 != db <==>
      && InviteProblem(db, inviteId, addressOk, now).None? && org != db.invites[inviteId].invitingOrg
      && (forall p :: p in db.participants ==> p.org != org) && |db.participants| < 2
      && !db.room.state.Invited?
  {
    var db' := RedeemInvite(db, org, inviteId, addressOk, now).0;
    assert db' == db || db'.nextId == db.nextId + 1;
  }

  /** It happens: after the creator cancels, an invited organization is refused but has become a participant. */
  lemma CanceledRoomIsJoined(env: Env, budget: Budget)
    ensures var db := Run(env, CreateRoom("a", budget), [OpInvite(0, 10, 0), OpCancel(0)]);
      var (db', reply) := RedeemInvite(db, "b", 1, true, 5);
      db.room.state == Canceled && reply == Err(BadState) && |db'.participants| == 2 && db'.participants[1].org == "b"
  {
    var db0 := CreateRoom("a", budget);
    var db1 := Exec(env, db0, OpInvite(0, 10, 0));
    var db2 := Exec(env, db1, OpCancel(0));
    assert Run(env, db0, [OpInvite(0, 10, 0), OpCancel(0)]) == db2 by {
      assert [OpInvite(0, 10, 0), OpCancel(0)][1..] == [OpCancel(0)];
      assert [OpCancel(0)][1..] == [];
      assert Run(env, db1, [OpCancel(0)]) == Run(env, db2, []);
    }
  }
}
