/** Contract agreement over whole runs, and the one way around it. */
module RoomContracts {
  import opened Wrappers
  import opened Policy
  import opened Events
  import opened RoomData
  import opened RoomSpec
  import opened RoomEffects
  import Lifecycle = RoomLifecycle

  predicate Numbered(cs: seq<ContractVersion>) { forall i :: 0 <= i < |cs| ==> cs[i].version == i + 1 }

  /** An approval always names the latest version. */
  predicate ApprovalsCurrent(db: Db) {
    forall p :: p in db.participants && p.contractApproved.Some? ==>
      db.contracts != [] && p.contractApproved == Some(LatestVersion(db.contracts))
  }

  /** Negotiation is over, and both sides still stand by the contract. */
  predicate Frozen(db: Db) { !Negotiable(db.room.state) && Agreed(db) }

  predicate Inv(db: Db) {
    && Numbered(db.contracts) && ApprovalsCurrent(db)
    && db.history != [] && db.history[|db.history| - 1] == db.room.state
    && (db.room.state == Negotiating ==> !Agreed(db))
    && (Ready in db.history ==> Frozen(db))
  }

  /** States that agents work in, or that follow their work. */
  predicate Executing(s: RoomState) { s.Ready? || s.Active? || s.Paused? || s.CompletionProposed? || s.Completed? }

  predicate Safe(db: Db) { Executing(db.room.state) ==> Agreed(db) }

  /** A room was quarantined while it was still negotiating. */
  predicate QuarantinedEarly(h: seq<RoomState>) { exists i :: 0 < i < |h| && h[i - 1] == Negotiating && h[i] == Quarantined }

  predicate Explained(db: Db) {
    (Executing(db.room.state) || db.room.state == Quarantined) && !Agreed(db) ==> QuarantinedEarly(db.history)
  }

  lemma {:induction false} LatestIsLast(cs: seq<ContractVersion>)
    requires Numbered(cs) && cs != []
    ensures Latest(cs) == cs[|cs| - 1] && LatestVersion(cs) == |cs|
  {
    if |cs| > 1 { LatestIsLast(cs[..|cs| - 1]); }
  }

  // ---------------------------------------------------------------------------------------------
  // Calls that leave the terms alone
  // ---------------------------------------------------------------------------------------------

  predicate SameTerm(p: Participant, p': Participant) {
    p'.contractApproved == p.contractApproved && p'.policy == p.policy && p'.agent == p.agent
  }

  predicate SameTerms(db: Db, db': Db) {
    && db'.contracts == db.contracts && |db'.participants| == |db.participants|
    && forall i :: 0 <= i < |db.participants| ==> SameTerm(db.participants[i], db'.participants[i])
  }

  /** At most one state is stored, along an edge, and neither NEGOTIATING nor READY. */
  predicate Proceeds(db: Db, db': Db) {
    || (db'.history == db.history && db'.room.state == db.room.state)
    || (db'.history == db.history + [db'.room.state]
        && (db'.room.state == db.room.state
            || (CanTransition(db.room.state, db'.room.state) && !db'.room.state.Negotiating? && !db'.room.state.Ready?
                && (Negotiable(db'.room.state) ==> Negotiable(db.room.state)))))
  }

  predicate Bystander(db: Db, db': Db) { SameTerms(db, db') && Proceeds(db, db') }

  lemma SameTermsAgree(db: Db, db': Db)
    requires SameTerms(db, db')
    ensures Agreed(db') <==> Agreed(db)
    ensures ApprovalsCurrent(db) ==> ApprovalsCurrent(db')
  {
    if db.contracts != [] {
      var v := LatestVersion(db.contracts);
      assert forall i :: 0 <= i < |db.participants| ==> (IsReady(db'.participants[i], v) <==> IsReady(db.participants[i], v));
      assert (forall p :: p in db.participants ==> IsReady(p, v)) <==> forall i :: 0 <= i < |db.participants| ==> IsReady(db.participants[i], v);
      assert (forall p :: p in db'.participants ==> IsReady(p, v)) <==> forall i :: 0 <= i < |db'.participants| ==> IsReady(db'.participants[i], v);
    }
  }

  lemma BystanderKeeps(db: Db, db': Db)
    requires Inv(db) && Bystander(db, db')
    ensures Inv(db') && db'.contracts == db.contracts && (Frozen(db) ==> Frozen(db'))
  {
    SameTermsAgree(db, db');
  }

  /** Leaving quarantine for PAUSED is the one such step that lets an unagreed room work. */
  predicate Escapes(db: Db, to: RoomState) { db.room.state == Quarantined && to == Paused && !Agreed(db) }

  lemma BystanderIsSafe(db: Db, db': Db)
    requires Inv(db) && Safe(db) && Bystander(db, db')
    ensures Safe(db') <==> !Escapes(db, db'.room.state)
  {
    SameTermsAgree(db, db');
  }

  lemma BystanderExplains(db: Db, db': Db)
    requires Inv(db) && Explained(db) && Bystander(db, db')
    ensures Explained(db')
  {
    SameTermsAgree(db, db');
    EarlyIsRemembered(db.history, db'.history);
    if db.room.state == Negotiating && db'.room.state == Quarantined {
      var i := |db.history|;
      assert db'.history[i - 1] == Negotiating && db'.history[i] == Quarantined;
    }
  }

  lemma EarlyIsRemembered(h: seq<RoomState>, h': seq<RoomState>)
    requires h <= h'
    ensures QuarantinedEarly(h) ==> QuarantinedEarly(h')
  {
    if QuarantinedEarly(h) {
      var i :| 0 < i < |h| && h[i - 1] == Negotiating && h[i] == Quarantined;
      assert h'[i - 1] == Negotiating && h'[i] == Quarantined;
    }
  }

  /** What every step keeps. */
  predicate Kept(db: Db, db': Db) {
    Inv(db') && (Frozen(db) ==> Frozen(db') && db'.contracts == db.contracts) && (Explained(db) ==> Explained(db'))
  }

  lemma BystanderIsKept(db: Db, db': Db)
    requires Inv(db) && Bystander(db, db')
    ensures Kept(db, db') && (Safe(db) ==> (Safe(db') <==> !Escapes(db, db'.room.state)))
  {
    BystanderKeeps(db, db');
    if Safe(db) { BystanderIsSafe(db, db'); }
    if Explained(db) { BystanderExplains(db, db'); }
  }

  lemma NothingIsBystander(db: Db)
    ensures Bystander(db, db)
  {
  }

  lemma StoreIsBystander(db: Db, room: Room)
    requires room.state == db.room.state || (CanTransition(db.room.state, room.state) && !room.state.Negotiating? && !room.state.Ready?
                                             && (Negotiable(room.state) ==> Negotiable(db.room.state)))
    ensures Bystander(db, StoreRoom(db, room))
  {
  }

  lemma NoteIsBystander(db: Db, db': Db, notice: Notice)
    requires Bystander(db, db')
    ensures Bystander(db, Noted(db', notice))
  {
  }

  lemma InviteIsBystander(db: Db, caller: Id, expiresInMs: int, now: int)
    ensures Bystander(db, CreateInvite(db, caller, expiresInMs, now).0)
  {
  }

  lemma ChangeIsBystander(db: Db, caller: Id, to: RoomState)
    requires to.Paused? || to.Active? || to.Canceled?
    ensures Bystander(db, ChangeState(db, caller, to).0)
  {
    NothingIsBystander(db);
    if CanTransition(db.room.state, to) { StoreIsBystander(db, db.room.(state := to)); }
  }

  lemma StartIsKept(db: Db, caller: Id, now: int)
    requires Inv(db)
    ensures Kept(db, StartRoom(db, caller, now).0) && (Safe(db) ==> Safe(StartRoom(db, caller, now).0))
  {
    NothingIsBystander(db);
    BystanderIsKept(db, db);
    if StartRoom(db, caller, now).1.Ok? {
      var active := Moved(db, Active);
      var room := active.room.(startedAt := Some(now), usage := active.room.usage.(startedAtMs := Some(now)));
      StoreIsBystander(db, db.room.(state := Active));
      StoreIsBystander(active, room);
      BystanderIsKept(db, active);
      BystanderIsKept(active, StoreRoom(active, room));
    }
  }

  lemma CloseIsKept(db: Db, caller: Id, now: int)
    requires Inv(db)
    ensures Kept(db, CloseRoom(db, caller, now).0) && (Safe(db) ==> Safe(CloseRoom(db, caller, now).0))
  {
    NothingIsBystander(db);
    BystanderIsKept(db, db);
    if CloseRoom(db, caller, now).1.Ok? {
      var current := if ClosesDirectly(db.room.state) then db else Moved(db, Canceled);
      if !ClosesDirectly(db.room.state) { StoreIsBystander(db, db.room.(state := Canceled)); }
      BystanderIsKept(db, current);
      ClosingIsBystander(db, current, caller, now);
      BystanderIsKept(current, CloseRoom(db, caller, now).0);
    }
  }

  lemma ClosingIsBystander(db: Db, current: Db, caller: Id, now: int)
    requires CloseRoom(db, caller, now).1.Ok? && current == if ClosesDirectly(db.room.state) then db else Moved(db, Canceled)
    ensures Bystander(current, CloseRoom(db, caller, now).0)
  {
  }

  /** Storing a changed record of a participant: the others stay as they are. */
  lemma StoreTouchesOne(db: Db, p: Participant, p': Participant)
    requires Lifecycle.PartiesOk(db) && p in db.participants && p'.id == p.id
    ensures |StoreParticipant(db, p').participants| == |db.participants|
    ensures forall i :: 0 <= i < |db.participants| ==>
      StoreParticipant(db, p').participants[i] == if db.participants[i] == p then p' else db.participants[i]
  {
  }

  lemma CompletionIsBystander(db: Db, caller: Id, user: UserId, now: int)
    requires Lifecycle.PartiesOk(db)
    ensures Bystander(db, ApproveCompletion(db, caller, user, now).0)
  {
    NothingIsBystander(db);
    var p := Find(db.participants, caller);
    if p.Some? && db.room.state.CompletionProposed? {
      var p' := p.value.(completionApprovedBy := Some(user));
      StoreTouchesOne(db, p.value, p');
      assert Bystander(db, StoreParticipant(db, p'));
      StoreIsBystander(StoreParticipant(db, p'), db.room.(state := Completed, completedAt := Some(now)));
    }
  }

  lemma VerifyIsBystander(db: Db, caller: Id, evidenceId: Id, user: UserId)
    ensures Bystander(db, VerifyEvidence(db, caller, evidenceId, user).0)
  {
  }

  lemma SystemIsBystander(db: Db, reason: string, cost: real)
    ensures Bystander(db, PauseForBudget(db, reason)) && Bystander(db, AccountTurn(db, cost))
    ensures Bystander(db, HaltRoom(db)) && Bystander(db, ReportAgentFailure(db, reason))
  {
    NothingIsBystander(db);
    NoteIsBystander(db, db, AgentFailure(reason));
    StoreIsBystander(db, AccountTurn(db, cost).room);
    if db.room.state.Active? {
      StoreIsBystander(db, db.room.(state := Paused));
      NoteIsBystander(db, Moved(db, Paused), RoomPaused(reason));
    }
  }

  lemma SideEffectsIsBystander(db: Db, db': Db, sender: Id, body: Body)
    requires SameTerms(db, db') && db'.room == db.room && db'.history == db.history
    ensures Bystander(db, SideEffects(db', sender, body))
    ensures SideEffects(db', sender, body).room.state == Paused ==> db.room.state == Paused
  {
  }

  lemma EffectIsBystander(env: Env, db: Db, e: Effect)
    requires EffectOk(env, db, e)
    ensures Bystander(db, Apply(env, db, e)) && (Apply(env, db, e).room.state == Paused ==> db.room.state == Paused)
  {
    NothingIsBystander(db);
    match e
    case Releasing(sender, body, labels) => SideEffectsIsBystander(db, Released(db, sender, body, labels), sender, body);
    case Authorizing(id, user, now) =>
      var a := db.approvals[id];
      var released := Released(Decided(db, id, Approved, user, now), a.requestedBy, a.body, env.scan(a.body, None).classification);
      SideEffectsIsBystander(db, Noted(released, ActionAuthorized(id, ActionOf(a.body), db.nextId)), a.requestedBy, a.body);
    case _ =>
  }

  // ---------------------------------------------------------------------------------------------
  // Calls that change the terms
  // ---------------------------------------------------------------------------------------------

  /** `p'` is a newer record of participant `p` that is no less ready and approves nothing but the latest contract. */
  predicate Advances(db: Db, p: Participant, p': Participant) {
    && p in db.participants && p'.id == p.id
    && (p'.contractApproved.Some? ==> db.contracts != [] && p'.contractApproved == Some(LatestVersion(db.contracts)))
    && (db.contracts != [] && IsReady(p, LatestVersion(db.contracts)) ==> IsReady(p', LatestVersion(db.contracts)))
  }

  lemma AdvancingKeepsAgreement(db: Db, p: Participant, p': Participant)
    requires Lifecycle.PartiesOk(db) && Advances(db, p, p')
    ensures ApprovalsCurrent(db) ==> ApprovalsCurrent(StoreParticipant(db, p'))
    ensures Agreed(db) ==> Agreed(StoreParticipant(db, p'))
  {
    StoreTouchesOne(db, p, p');
  }

  lemma AdvancingIsKept(db: Db, p: Participant, p': Participant)
    requires Lifecycle.PartiesOk(db) && Inv(db) && Advances(db, p, p')
    ensures Kept(db, MarkReady(StoreParticipant(db, p'))) && (Safe(db) ==> Safe(MarkReady(StoreParticipant(db, p'))))
  {
    AdvancingKeepsAgreement(db, p, p');
    var stored := StoreParticipant(db, p');
    var db' := MarkReady(stored);
    EarlyIsRemembered(db.history, db'.history);
  }

  lemma ApproveIsKept(db: Db, caller: Id, version: int)
    requires Lifecycle.PartiesOk(db) && Inv(db)
    ensures var db' := ApproveContract(db, caller, version).0; Kept(db, db') && (Safe(db) ==> Safe(db'))
  {
    var p := Find(db.participants, caller);
    if ApproveContract(db, caller, version).1.Ok? {
      AdvancingIsKept(db, p.value, p.value.(contractApproved := Some(version)));
    }
  }

  lemma PolicyIsKept(db: Db, caller: Id, policy: Option<ParticipantPolicy>)
    requires Lifecycle.PartiesOk(db) && Inv(db)
    ensures var db' := SetPolicy(db, caller, policy).0; Kept(db, db') && (Safe(db) ==> Safe(db'))
  {
    var p := Find(db.participants, caller);
    if SetPolicy(db, caller, policy).1.Ok? {
      AdvancingIsKept(db, p.value, p.value.(policy := policy));
    }
  }

  lemma ConnectIsKept(db: Db, caller: Id, agent: Id, owned: bool)
    requires Lifecycle.PartiesOk(db) && Inv(db)
    ensures var db' := ConnectAgent(db, caller, agent, owned).0; Kept(db, db') && (Safe(db) ==> Safe(db'))
  {
    var p := Find(db.participants, caller);
    if ConnectAgent(db, caller, agent, owned).1.Ok? {
      AdvancingIsKept(db, p.value, p.value.(agent := Some(agent)));
    }
  }

  lemma NumberedGrows(cs: seq<ContractVersion>, contract: Contract)
    requires Numbered(cs)
    ensures Numbered(cs + [ContractVersion(LatestVersion(cs) + 1, contract)])
  {
    if cs != [] { LatestIsLast(cs); }
  }

  /** A new version voids every approval, so nothing is agreed any more. */
  lemma VoidedDisagrees(db: Db)
    requires forall i :: 0 <= i < |db.participants| ==> db.participants[i].contractApproved.None?
    ensures !Agreed(db) && ApprovalsCurrent(db)
  {
    if |db.participants| == 2 { assert db.participants[0] in db.participants; }
  }

  lemma ProposeIsKept(db: Db, caller: Id, contract: Option<Contract>)
    requires Inv(db)
    ensures var db' := ProposeContract(db, caller, contract).0; Kept(db, db') && (Safe(db) ==> Safe(db'))
  {
    if ProposeContract(db, caller, contract).1.Err? {
      NothingIsBystander(db);
      BystanderIsKept(db, db);
    } else {
      NumberedGrows(db.contracts, contract.value);
      VoidedDisagrees(ProposeContract(db, caller, contract).0);
    }
  }

  lemma RedeemIsKept(db: Db, org: OrgId, inviteId: Id, addressOk: bool, now: int)
    requires Inv(db)
    ensures var db' := RedeemInvite(db, org, inviteId, addressOk, now).0; Kept(db, db') && (Safe(db) ==> Safe(db'))
  {
    var db' := RedeemInvite(db, org, inviteId, addressOk, now).0;
    if db' != db {
      var joined := db'.participants[|db.participants|];
      assert joined in db'.participants && joined.contractApproved.None?;
      assert !Agreed(db') && !Agreed(db);
      EarlyIsRemembered(db.history, db'.history);
    }
  }

  // ---------------------------------------------------------------------------------------------
  // Runs
  // ---------------------------------------------------------------------------------------------

  /** The calls that change the terms, or that store two states. */
  predicate Special(op: Op) {
    op.OpRedeem? || op.OpPropose? || op.OpApproveContract? || op.OpSetPolicy? || op.OpConnect? || op.OpStart? || op.OpClose?
  }

  lemma SpecialIsKept(env: Env, db: Db, op: Op)
    requires Lifecycle.PartiesOk(db) && Inv(db) && Special(op)
    ensures Kept(db, Exec(env, db, op)) && (Safe(db) ==> Safe(Exec(env, db, op)))
  {
    match op
    case OpRedeem(org, inviteId, addressOk, now) => RedeemIsKept(db, org, inviteId, addressOk, now);
    case OpPropose(caller, contract) => ProposeIsKept(db, caller, contract);
    case OpApproveContract(caller, version) => ApproveIsKept(db, caller, version);
    case OpSetPolicy(caller, policy) => PolicyIsKept(db, caller, policy);
    case OpConnect(caller, agent, owned) => ConnectIsKept(db, caller, agent, owned);
    case OpStart(caller, now) => StartIsKept(db, caller, now);
    case OpClose(caller, now) => CloseIsKept(db, caller, now);
  }

  lemma SubmitIsBystander(env: Env, db: Db, sender: Id, candidate: Option<Candidate>, now: int)
    requires env.Valid()
    ensures var db' := Submit(env, db, sender, candidate, now).0; Bystander(db, db') && (db'.room.state == Paused ==> db.room.state == Paused)
  {
    var e := SubmitEffect(env, db, sender, candidate, now);
    EffectIsBystander(env, db, e);
  }

  lemma DecideIsBystander(env: Env, db: Db, org: OrgId, user: UserId, id: Id, approve: bool, now: int)
    ensures var db' := DecideApproval(env, db, org, user, id, approve, now).0; Bystander(db, db') && (db'.room.state == Paused ==> db.room.state == Paused)
  {
    var e := DecideEffect(env, db, org, user, id, approve, now);
    EffectIsBystander(env, db, e);
  }

  lemma SubmissionIsBystander(env: Env, db: Db, op: Op)
    requires env.Valid() && op.OpSubmit?
    ensures Bystander(db, Exec(env, db, op))
    ensures (op.OpSubmit? || op.OpDecide?) && Exec(env, db, op).room.state == Paused ==> db.room.state == Paused
  {
    SubmitIsBystander(env, db, op.sender, op.candidate, op.now);
    assert Exec(env, db, op) == Submit(env, db, op.sender, op.candidate, op.now).0;
  }

  lemma DecisionIsBystander(env: Env, db: Db, op: Op)
    requires op.OpDecide?
    ensures Bystander(db, Exec(env, db, op))
    ensures (op.OpSubmit? || op.OpDecide?) && Exec(env, db, op).room.state == Paused ==> db.room.state == Paused
  {
    DecideIsBystander(env, db, op.org, op.user, op.approvalId, op.approve, op.now);
  }

  lemma PlatformIsBystander(env: Env, db: Db, op: Op)
    requires Works(op) && !op.OpSubmit? && !op.OpDecide?
    ensures Bystander(db, Exec(env, db, op))
    ensures (op.OpSubmit? || op.OpDecide?) && Exec(env, db, op).room.state == Paused ==> db.room.state == Paused
  {
    var reason := if op.OpPauseForBudget? then op.reason else if op.OpReport? then op.detail else "";
    SystemIsBystander(db, reason, if op.OpAccount? then op.cost else 0.0);
  }

  lemma WorkIsBystander(env: Env, db: Db, op: Op)
    requires env.Valid() && Works(op)
    ensures Bystander(db, Exec(env, db, op))
    ensures (op.OpSubmit? || op.OpDecide?) && Exec(env, db, op).room.state == Paused ==> db.room.state == Paused
  {
    if op.OpSubmit? { SubmissionIsBystander(env, db, op); }
    else if op.OpDecide? { DecisionIsBystander(env, db, op); }
    else { PlatformIsBystander(env, db, op); }
  }

  lemma MoveIsBystander(env: Env, db: Db, op: Op)
    requires Lifecycle.PartiesOk(db) && !Special(op) && !Works(op)
    ensures Bystander(db, Exec(env, db, op))
  {
    match op
    case OpInvite(caller, expiresInMs, now) => InviteIsBystander(db, caller, expiresInMs, now);
    case OpPause(caller) => ChangeIsBystander(db, caller, Paused);
    case OpResume(caller) => ChangeIsBystander(db, caller, Active);
    case OpCancel(caller) => ChangeIsBystander(db, caller, Canceled);
    case OpApproveCompletion(caller, user, now) => CompletionIsBystander(db, caller, user, now);
    case OpVerify(caller, evidenceId, user) => VerifyIsBystander(db, caller, evidenceId, user);
  }

  lemma OtherIsBystander(env: Env, db: Db, op: Op)
    requires env.Valid() && Lifecycle.PartiesOk(db) && !Special(op)
    ensures Bystander(db, Exec(env, db, op))
    ensures (op.OpSubmit? || op.OpDecide?) && Exec(env, db, op).room.state == Paused ==> db.room.state == Paused
  {
    if Works(op) { WorkIsBystander(env, db, op); } else { MoveIsBystander(env, db, op); }
  }

  lemma StepIsKept(env: Env, db: Db, op: Op)
    requires env.Valid() && Lifecycle.PartiesOk(db) && Inv(db)
    ensures Kept(db, Exec(env, db, op))
  {
    if Special(op) {
      SpecialIsKept(env, db, op);
    } else {
      OtherIsBystander(env, db, op);
      BystanderIsKept(db, Exec(env, db, op));
    }
  }

  lemma {:induction false} RunIsKept(env: Env, db: Db, ops: seq<Op>)
    requires env.Valid() && Lifecycle.Inv(db) && Inv(db)
    ensures Kept(db, Run(env, db, ops))
    decreases |ops|
  {
    if ops == [] {
      NothingIsBystander(db);
      BystanderIsKept(db, db);
    } else {
      StepIsKept(env, db, ops[0]);
      Lifecycle.StepKeepsInv(env, db, ops[0]);
      RunIsKept(env, Exec(env, db, ops[0]), ops[1..]);
    }
  }

  // ---------------------------------------------------------------------------------------------
  // Main results
  // ---------------------------------------------------------------------------------------------

  /** Over every run: contract versions count up from 1, an approval always names the latest, a negotiating room never
      already meets the test for READY, and a room that has ever been READY is agreed and no longer negotiable. */
  lemma AgreementOverRuns(env: Env, org: OrgId, budget: Budget, ops: seq<Op>)
    requires env.Valid()
    ensures var db := Run(env, CreateRoom(org, budget), ops);
      && (forall i :: 0 <= i < |db.contracts| ==> db.contracts[i].version == i + 1)
      && (forall p :: p in db.participants && p.contractApproved.Some? ==> p.contractApproved.value == |db.contracts| > 0)
      && (db.room.state == Negotiating ==> !Agreed(db))
      && (Ready in db.history ==> Agreed(db) && !Negotiable(db.room.state))
  {
    var db0 := CreateRoom(org, budget);
    Lifecycle.CreatedIsInv(org, budget);
    RunIsKept(env, db0, ops);
    var db := Run(env, db0, ops);
    if db.contracts != [] { LatestIsLast(db.contracts); }
  }

  /** From the first READY on, whatever is called, the contract stays what it is and both sides keep their approval of
      it, a policy and an agent. */
  lemma FrozenFromReady(env: Env, db: Db, ops: seq<Op>)
    requires env.Valid() && Lifecycle.Inv(db) && Inv(db) && Ready in db.history
    ensures Run(env, db, ops).contracts == db.contracts && Frozen(Run(env, db, ops))
  {
    RunIsKept(env, db, ops);
  }

  /** Exactly one kind of call puts an unagreed room to work: pausing a room that was quarantined without agreement. */
  lemma AgreementIsBypassedIff(env: Env, db: Db, op: Op)
    requires env.Valid() && Lifecycle.Inv(db) && Inv(db) && Safe(db)
    ensures Safe(Exec(env, db, op)) <==>
      !(op.OpPause? && Find(db.participants, op.caller).Some? && db.room.state == Quarantined && !Agreed(db))
  {
    if Special(op) {
      SpecialIsKept(env, db, op);
    } else {
      OtherIsBystander(env, db, op);
      BystanderIsKept(db, Exec(env, db, op));
      if db.room.state == Quarantined { EscapesOnlyByPause(env, db, op); }
    }
  }

  lemma EscapesOnlyByPause(env: Env, db: Db, op: Op)
    requires env.Valid() && Lifecycle.PartiesOk(db) && db.room.state == Quarantined && !Special(op)
    ensures Exec(env, db, op).room.state == Paused <==> op.OpPause? && Find(db.participants, op.caller).Some?
  {
    OtherIsBystander(env, db, op);
  }

  /** Over every run: a room that works, or is quarantined, without agreement went from NEGOTIATING to QUARANTINED. */
  lemma UnagreedWasQuarantinedEarly(env: Env, org: OrgId, budget: Budget, ops: seq<Op>)
    requires env.Valid()
    ensures Explained(Run(env, CreateRoom(org, budget), ops))
  {
    Lifecycle.CreatedIsInv(org, budget);
    RunIsKept(env, CreateRoom(org, budget), ops);
  }

  // ---------------------------------------------------------------------------------------------
  // It happens
  // ---------------------------------------------------------------------------------------------

  /** A body with a secret from a participant with a policy is blocked in every room state. */
  lemma SecretIsBlocked(env: Env, db: Db, sender: Participant, body: Body)
    requires Find(db.participants, sender.id) == Some(sender) && sender.policy.Some? && db.contracts != []
    requires !body.DataResponse? && |env.scan(body, None).secretFindings| > 0
    ensures Submit(env, db, sender.id, Some(Candidate(body, None)), 0) ==
      (Block(db, sender.id, body, SecretDisclosure, true), Blocked(SecretDisclosure))
  {
  }

  lemma BlockCounts(db: Db, sender: Id, body: Body)
    ensures var db' := Block(db, sender, body, SecretDisclosure, true);
      && SecretBlocks(db'.events, sender) == SecretBlocks(db.events, sender) + 1
      && db'.participants == db.participants && db'.contracts == db.contracts
      && db'.room.state ==
           if SecretBlocks(db.events, sender) >= 2 && CanTransition(db.room.state, Quarantined) then Quarantined else db.room.state
  {
    var notice := PolicyBlock(TypeOf(body), sender, SecretDisclosure);
    assert Noted(db, notice).events[..|db.events|] == db.events;
  }

  lemma TwoSteps(env: Env, db: Db, a: Op, b: Op)
    ensures Run(env, db, [a, b]) == Exec(env, Exec(env, db, a), b)
  {
    assert [a, b][1..] == [b] && [b][1..] == [];
    assert Run(env, Exec(env, db, a), [b]) == Run(env, Exec(env, Exec(env, db, a), b), []);
  }

  lemma ThreeSteps(env: Env, db: Db, a: Op, b: Op, c: Op)
    ensures Run(env, db, [a, b, c]) == Exec(env, Exec(env, Exec(env, db, a), b), c)
  {
    assert [a, b, c][1..] == [b, c];
    TwoSteps(env, Exec(env, db, a), b, c);
  }

  lemma Said(env: Env, db: Db, sender: Participant, body: Body) returns (db': Db)
    requires Find(db.participants, sender.id) == Some(sender) && sender.policy.Some? && db.contracts != []
    requires !body.DataResponse? && |env.scan(body, None).secretFindings| > 0
    ensures db' == Exec(env, db, OpSubmit(sender.id, Some(Candidate(body, None)), 0))
    ensures db'.participants == db.participants && db'.contracts == db.contracts
    ensures SecretBlocks(db'.events, sender.id) == SecretBlocks(db.events, sender.id) + 1
    ensures db'.room.state ==
      if SecretBlocks(db.events, sender.id) >= 2 && CanTransition(db.room.state, Quarantined) then Quarantined else db.room.state
  {
    SecretIsBlocked(env, db, sender, body);
    BlockCounts(db, sender.id, body);
    db' := Block(db, sender.id, body, SecretDisclosure, true);
  }

  lemma PauseAndResume(env: Env, db: Db, caller: Id)
    requires db.room.state == Quarantined && Find(db.participants, caller).Some?
    ensures var db' := Exec(env, Exec(env, db, OpPause(caller)), OpResume(caller));
      db'.room.state == Active && db'.participants == db.participants && db'.contracts == db.contracts
  {
  }

  /** In any negotiating room, three secrets from one participant and a pause and resume by anyone put agents to work on
      a contract that the two sides have not agreed. */
  lemma SecretsBypassAgreement(env: Env, db: Db, sender: Participant, body: Body)
    requires Inv(db) && db.room.state == Negotiating
    requires Find(db.participants, sender.id) == Some(sender) && sender.policy.Some? && db.contracts != []
    requires !body.DataResponse? && |env.scan(body, None).secretFindings| > 0
    ensures var say := OpSubmit(sender.id, Some(Candidate(body, None)), 0);
      var db' := Run(env, Run(env, db, [say, say, say]), [OpPause(sender.id), OpResume(sender.id)]);
      db'.room.state == Active && !Agreed(db') && db'.participants == db.participants && db'.contracts == db.contracts
  {
    var say := OpSubmit(sender.id, Some(Candidate(body, None)), 0);
    var db1 := Said(env, db, sender, body);
    var db2 := Said(env, db1, sender, body);
    var db3 := Said(env, db2, sender, body);
    ThreeSteps(env, db, say, say, say);
    TwoSteps(env, db3, OpPause(sender.id), OpResume(sender.id));
    PauseAndResume(env, db3, sender.id);
  }
}
