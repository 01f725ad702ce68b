/** Completion over whole runs: human verification is never undone, and a completed room was approved by both sides on
    evidence that a human verified. */
module RoomCompletion {
  import opened Wrappers
  import opened Policy
  import opened Events
  import opened RoomData
  import opened RoomSpec
  import opened RoomEffects
  import Lifecycle = RoomLifecycle

  predicate IsProof(e: Evidence, criterion: string) {
    e.criterionId == criterion && e.verification == HumanVerified && e.verifiedBy.Some?
  }

  predicate IsVerified(db: Db, criterion: string) { criterion in db.criteria && db.criteria[criterion] == Verified }

  predicate HasProof(db: Db, criterion: string) { exists id :: id in db.evidence && IsProof(db.evidence[id], criterion) }

  /** Behind every verified criterion is a record that a human verified. */
  predicate Backed(db: Db) { forall c :: c in db.criteria && IsVerified(db, c) ==> HasProof(db, c) }

  predicate EvidenceOk(db: Db) {
    forall id :: id in db.evidence ==> id < db.nextId && (db.evidence[id].verification == HumanVerified ==> db.evidence[id].verifiedBy.Some?)
  }

  /** Who has approved completion did so when everything was verified, and it still is. */
  predicate MarksOk(db: Db) { SomeMark(db.participants) ==> !Negotiable(db.room.state) && AllVerified(db) }

  predicate Marked(p: Participant) { p.completionApprovedBy.Some? }

  predicate SomeMark(ps: seq<Participant>) { exists i :: 0 <= i < |ps| && Marked(ps[i]) }

  predicate Done(db: Db) {
    && (db.room.state == Completed || db.room.state == Closed) && |db.participants| == 2 && BothApprovedCompletion(db) && AllVerified(db)
  }

  predicate Inv(db: Db) {
    && Backed(db) && EvidenceOk(db) && MarksOk(db)
    && db.history != [] && db.history[|db.history| - 1] == db.room.state
    && (Completed in db.history ==> Done(db)) && (db.room.completedAt.Some? <==> Completed in db.history)
  }

  /** No verified criterion loses its verification. */
  predicate KeepsVerified(db: Db, db': Db) { forall c :: c in db.criteria && IsVerified(db, c) ==> IsVerified(db', c) }

  predicate Kept(db: Db, db': Db) { Inv(db') && KeepsVerified(db, db') }

  // ---------------------------------------------------------------------------------------------
  // Calls that have nothing to do with completion
  // ---------------------------------------------------------------------------------------------

  /** Verified criteria and their proofs stay; no criterion becomes verified. */
  predicate SameProofs(db: Db, db': Db) {
    && (forall c :: c in db'.criteria && IsVerified(db', c) ==> IsVerified(db, c))
    && (forall id :: id in db.evidence ==> id in db'.evidence && db'.evidence[id] == db.evidence[id])
    && (forall id :: id in db'.evidence ==> id < db'.nextId && (id in db.evidence || db'.evidence[id].verification == Claimed))
    && KeepsVerified(db, db')
  }

  predicate SameMarks(db: Db, db': Db) {
    && |db'.participants| == |db.participants|
    && forall i :: 0 <= i < |db.participants| ==> db'.participants[i].completionApprovedBy == db.participants[i].completionApprovedBy
  }

  /** At most one state is stored, along an edge and not COMPLETED. */
  predicate Proceeds(db: Db, db': Db) {
    && db'.room.completedAt == db.room.completedAt
    && (Negotiable(db'.room.state) ==> Negotiable(db.room.state))
    && (|| (db'.history == db.history && db'.room.state == db.room.state)
        || (db'.history == db.history + [db'.room.state]
            && (db'.room.state == db.room.state || (CanTransition(db.room.state, db'.room.state) && !db'.room.state.Completed?))))
  }

  predicate Bystander(db: Db, db': Db) {
    db'.contracts == db.contracts && SameProofs(db, db') && SameMarks(db, db') && Proceeds(db, db')
  }

  lemma VerifiedStays(db: Db, db': Db)
    requires db'.contracts == db.contracts && KeepsVerified(db, db') && AllVerified(db)
    ensures AllVerified(db')
  {
    forall c | c in Latest(db.contracts).contract.completionCriteria && c.evidenceRequired ensures IsVerified(db', c.id) {
      assert IsVerified(db, c.id);
    }
  }

  lemma ProofsStay(db: Db, db': Db)
    requires Backed(db) && EvidenceOk(db) && SameProofs(db, db')
    ensures Backed(db') && EvidenceOk(db')
  {
    forall c | c in db'.criteria && IsVerified(db', c) ensures HasProof(db', c) {
      var id :| id in db.evidence && IsProof(db.evidence[id], c);
      assert id in db'.evidence && IsProof(db'.evidence[id], c);
    }
  }

  lemma AllMarked(db: Db)
    ensures BothApprovedCompletion(db) <==> forall i :: 0 <= i < |db.participants| ==> Marked(db.participants[i])
  {
    if BothApprovedCompletion(db) {
      assert forall i :: 0 <= i < |db.participants| ==> db.participants[i] in db.participants;
    }
  }

  lemma MarksStay(db: Db, db': Db)
    requires SameMarks(db, db')
    ensures BothApprovedCompletion(db) <==> BothApprovedCompletion(db')
    ensures SomeMark(db'.participants) <==> SomeMark(db.participants)
  {
    AllMarked(db);
    AllMarked(db');
    assert forall i :: 0 <= i < |db.participants| ==> (Marked(db'.participants[i]) <==> Marked(db.participants[i]));
  }

  lemma BystanderIsKept(db: Db, db': Db)
    requires Inv(db) && Bystander(db, db')
    ensures Kept(db, db')
  {
    ProofsStay(db, db');
    MarksStay(db, db');
    if AllVerified(db) { VerifiedStays(db, db'); }
  }

  lemma KeptTwice(db: Db, db1: Db, db2: Db)
    requires Kept(db, db1) && Kept(db1, db2)
    ensures Kept(db, db2)
  {
  }

  lemma NothingIsBystander(db: Db)
    requires EvidenceOk(db)
    ensures Bystander(db, db)
  {
  }

  lemma StoreIsBystander(db: Db, db1: Db, room: Room)
    requires Bystander(db, db1) && db1.room == db.room && db1.history == db.history
    requires room.completedAt == db.room.completedAt && (Negotiable(room.state) ==> Negotiable(db.room.state))
    requires room.state == db.room.state || (CanTransition(db.room.state, room.state) && !room.state.Completed?)
    ensures Bystander(db, StoreRoom(db1, room))
  {
  }

  lemma NoteIsBystander(db: Db, db1: Db, notice: Notice)
    requires Bystander(db, db1)
    ensures Bystander(db, Noted(db1, notice))
  {
  }

  lemma ParticipantIsBystander(db: Db, p: Participant, p': Participant)
    requires EvidenceOk(db) && Lifecycle.PartiesOk(db) && p in db.participants
    requires p'.id == p.id && p'.completionApprovedBy == p.completionApprovedBy
    ensures Bystander(db, MarkReady(StoreParticipant(db, p')))
  {
    NothingIsBystander(db);
    var stored := StoreParticipant(db, p');
    assert forall i :: 0 <= i < |db.participants| && db.participants[i].id == p.id ==> db.participants[i] == p;
    assert Bystander(db, stored);
    if stored.room.state == Negotiating { StoreIsBystander(db, stored, stored.room.(state := Ready)); }
  }

  lemma ApproveContractIsBystander(db: Db, caller: Id, version: int)
    requires EvidenceOk(db) && Lifecycle.PartiesOk(db)
    ensures Bystander(db, ApproveContract(db, caller, version).0)
  {
    NothingIsBystander(db);
    if ApproveContract(db, caller, version).1.Ok? {
      var p := Find(db.participants, caller).value;
      ParticipantIsBystander(db, p, p.(contractApproved := Some(version)));
    }
  }

  lemma SetPolicyIsBystander(db: Db, caller: Id, policy: Option<ParticipantPolicy>)
    requires EvidenceOk(db) && Lifecycle.PartiesOk(db)
    ensures Bystander(db, SetPolicy(db, caller, policy).0)
  {
    NothingIsBystander(db);
    if SetPolicy(db, caller, policy).1.Ok? {
      var p := Find(db.participants, caller).value;
      ParticipantIsBystander(db, p, p.(policy := policy));
    }
  }

  lemma ConnectIsBystander(db: Db, caller: Id, agent: Id, owned: bool)
    requires EvidenceOk(db) && Lifecycle.PartiesOk(db)
    ensures Bystander(db, ConnectAgent(db, caller, agent, owned).0)
  {
    NothingIsBystander(db);
    if ConnectAgent(db, caller, agent, owned).1.Ok? {
      var p := Find(db.participants, caller).value;
      ParticipantIsBystander(db, p, p.(agent := Some(agent)));
    }
  }

  lemma InviteIsBystander(db: Db, caller: Id, expiresInMs: int, now: int)
    requires EvidenceOk(db)
    ensures Bystander(db, CreateInvite(db, caller, expiresInMs, now).0)
  {
    NothingIsBystander(db);
    if CreateInvite(db, caller, expiresInMs, now).1.Ok? {
      var db1 := CreateInvite(db, caller, expiresInMs, now).0;
      assert SameMarks(db, db1) && SameProofs(db, db1);
    }
  }

  lemma ChangeIsBystander(db: Db, caller: Id, to: RoomState)
    requires EvidenceOk(db) && (to.Paused? || to.Active? || to.Canceled?)
    ensures Bystander(db, ChangeState(db, caller, to).0)
  {
    NothingIsBystander(db);
    if CanTransition(db.room.state, to) { StoreIsBystander(db, db, db.room.(state := to)); }
  }

  lemma SystemIsBystander(db: Db, reason: string, cost: real)
    requires EvidenceOk(db)
    ensures Bystander(db, PauseForBudget(db, reason)) && Bystander(db, AccountTurn(db, cost))
    ensures Bystander(db, HaltRoom(db)) && Bystander(db, ReportAgentFailure(db, reason))
  {
    NothingIsBystander(db);
    NoteIsBystander(db, db, AgentFailure(reason));
    StoreIsBystander(db, db, AccountTurn(db, cost).room);
    if db.room.state.Active? {
      StoreIsBystander(db, db, db.room.(state := Paused));
      NoteIsBystander(db, Moved(db, Paused), RoomPaused(reason));
    }
  }

  lemma StartIsKept(db: Db, caller: Id, now: int)
    requires Inv(db)
    ensures Kept(db, StartRoom(db, caller, now).0)
  {
    NothingIsBystander(db);
    BystanderIsKept(db, db);
    if StartRoom(db, caller, now).1.Ok? {
      var active := Moved(db, Active);
      StoreIsBystander(db, db, db.room.(state := Active));
      BystanderIsKept(db, active);
      NothingIsBystander(active);
      StoreIsBystander(active, active, StartRoom(db, caller, now).0.room);
      BystanderIsKept(active, StartRoom(db, caller, now).0);
    }
  }

  lemma CloseIsKept(db: Db, caller: Id, now: int)
    requires Inv(db)
    ensures Kept(db, CloseRoom(db, caller, now).0)
  {
    NothingIsBystander(db);
    BystanderIsKept(db, db);
    if CloseRoom(db, caller, now).1.Ok? {
      var current := if ClosesDirectly(db.room.state) then db else Moved(db, Canceled);
      if !ClosesDirectly(db.room.state) { StoreIsBystander(db, db, db.room.(state := Canceled)); }
      BystanderIsKept(db, current);
      NothingIsBystander(current);
      var closed := current.room.(state := Closed, closedAt := Some(now));
      StoreIsBystander(current, current, closed);
      ClosedIsBystander(db, current, caller, now);
      BystanderIsKept(current, CloseRoom(db, caller, now).0);
    }
  }

  lemma ClosedIsBystander(db: Db, current: Db, caller: Id, now: int)
    requires CloseRoom(db, caller, now).1.Ok? && current == if ClosesDirectly(db.room.state) then db else Moved(db, Canceled)
    requires Bystander(current, StoreRoom(current, current.room.(state := Closed, closedAt := Some(now))))
    ensures Bystander(current, CloseRoom(db, caller, now).0)
  {
  }

  lemma SideEffectsIsBystander(db: Db, db1: Db, sender: Id, body: Body)
    requires Bystander(db, db1) && db1.room == db.room && db1.history == db.history
    ensures Bystander(db, SideEffects(db1, sender, body))
  {
    match body
    case EvidenceSubmission(criterionId, _, _, _) => ClaimIsBystander(db, db1, sender, body);
    case CompletionProposal(_) =>
      NoteIsBystander(db, db1, CompletionRejected);
      if db.room.state == Active { StoreIsBystander(db, db1, db1.room.(state := CompletionProposed)); }
    case _ =>
  }

  lemma ClaimAdds(db: Db, db1: Db, claim: Evidence)
    requires SameProofs(db, db1) && claim.verification == Claimed
    ensures SameProofs(db, db1.(evidence := db1.evidence[db1.nextId := claim], nextId := db1.nextId + 1))
  {
  }

  lemma StatusAdds(db: Db, db1: Db, criterion: string)
    requires SameProofs(db, db1) && !IsVerified(db1, criterion)
    ensures SameProofs(db, db1.(criteria := db1.criteria[criterion := EvidenceSubmitted]))
  {
  }

  /** A claim adds a record and leaves verified criteria alone. */
  lemma ClaimIsBystander(db: Db, db1: Db, sender: Id, body: Body)
    requires Bystander(db, db1) && db1.room == db.room && db1.history == db.history && body.EvidenceSubmission?
    ensures Bystander(db, SideEffects(db1, sender, body))
  {
    if HasCriterion(db1, body.criterionId) {
      var claim := Evidence(body.criterionId, sender, Claimed, None);
      var db2 := db1.(evidence := db1.evidence[db1.nextId := claim], nextId := db1.nextId + 1);
      ClaimAdds(db, db1, claim);
      if !IsVerified(db2, body.criterionId) { StatusAdds(db, db2, body.criterionId); }
    }
  }

  lemma ReleasedIsBystander(db: Db, db1: Db, sender: Id, body: Body, labels: Classification)
    requires Bystander(db, db1)
    ensures Bystander(db, Released(db1, sender, body, labels))
  {
  }

  lemma EffectIsBystander(env: Env, db: Db, e: Effect)
    requires EvidenceOk(db) && EffectOk(env, db, e)
    ensures Bystander(db, Apply(env, db, e))
  {
    NothingIsBystander(db);
    match e
    case Nothing =>
    case Blocking(sender, body, rule, secret) =>
      var noted := Noted(db, PolicyBlock(TypeOf(body), sender, rule));
      NoteIsBystander(db, db, PolicyBlock(TypeOf(body), sender, rule));
      if CanTransition(db.room.state, Quarantined) { StoreIsBystander(db, noted, db.room.(state := Quarantined)); }
    case Holding(holder, body, now) => HoldIsBystander(env, db, holder, body, now);
    case Releasing(sender, body, labels) =>
      ReleasedIsBystander(db, db, sender, body, labels);
      SideEffectsIsBystander(db, Released(db, sender, body, labels), sender, body);
    case Settling(_, _) =>
    case Rejecting(id, user, now) =>
      NoteIsBystander(db, Decided(db, id, Rejected, user, now), ActionRejected(id, ActionOf(db.approvals[id].body)));
    case Authorizing(id, user, now) => AuthorizeIsBystander(env, db, id, user, now);
  }

  lemma HoldIsBystander(env: Env, db: Db, sender: Participant, body: Body, now: int)
    requires EvidenceOk(db)
    ensures Bystander(db, Hold(env, db, sender, body, now))
  {
    NothingIsBystander(db);
  }

  lemma AuthorizeIsBystander(env: Env, db: Db, id: Id, user: UserId, now: int)
    requires EvidenceOk(db) && id in db.approvals
    ensures Bystander(db, Authorize(env, db, id, user, now))
  {
    NothingIsBystander(db);
    var a := db.approvals[id];
    var labels := env.scan(a.body, None).classification;
    var decided := Decided(db, id, Approved, user, now);
    var released := Released(decided, a.requestedBy, a.body, labels);
    assert Bystander(db, decided);
    ReleasedIsBystander(db, decided, a.requestedBy, a.body, labels);
    NoteIsBystander(db, released, ActionAuthorized(id, ActionOf(a.body), db.nextId));
    SideEffectsIsBystander(db, Noted(released, ActionAuthorized(id, ActionOf(a.body), db.nextId)), a.requestedBy, a.body);
  }

  // ---------------------------------------------------------------------------------------------
  // Calls about completion
  // ---------------------------------------------------------------------------------------------

  /** A human's verification makes the criterion verified, with this record behind it. */
  lemma VerifyIsKept(db: Db, caller: Id, evidenceId: Id, user: UserId)
    requires Inv(db)
    ensures Kept(db, VerifyEvidence(db, caller, evidenceId, user).0)
  {
    var db' := VerifyEvidence(db, caller, evidenceId, user).0;
    if db' != db {
      forall c | c in db'.criteria && IsVerified(db', c) ensures HasProof(db', c) {
        if c == db.evidence[evidenceId].criterionId {
          assert IsProof(db'.evidence[evidenceId], c);
        } else {
          var id :| id in db.evidence && IsProof(db.evidence[id], c);
          assert id in db'.evidence && IsProof(db'.evidence[id], c);
        }
      }
      if AllVerified(db) { VerifiedStays(db, db'); }
    }
  }

  lemma MarkIsKept(db: Db, p: Participant)
    requires Inv(db) && db.room.state == CompletionProposed && AllVerified(db)
    ensures Kept(db, StoreParticipant(db, p))
  {
  }

  lemma CompleteIsKept(db: Db, now: int)
    requires Inv(db) && db.room.state == CompletionProposed && AllVerified(db) && BothApprovedCompletion(db) && |db.participants| == 2
    ensures Kept(db, StoreRoom(db, db.room.(state := Completed, completedAt := Some(now))))
  {
    var db' := StoreRoom(db, db.room.(state := Completed, completedAt := Some(now)));
    assert db'.history[|db.history|] == Completed;
  }

  lemma CompletionIsKept(db: Db, caller: Id, user: UserId, now: int)
    requires Lifecycle.PartiesOk(db) && Inv(db)
    ensures Kept(db, ApproveCompletion(db, caller, user, now).0)
  {
    if ApproveCompletion(db, caller, user, now).1.Err? {
      NothingIsBystander(db);
      BystanderIsKept(db, db);
    } else {
      var stored := StoreParticipant(db, Find(db.participants, caller).value.(completionApprovedBy := Some(user)));
      MarkIsKept(db, Find(db.participants, caller).value.(completionApprovedBy := Some(user)));
      if BothApprovedCompletion(stored) {
        CompleteIsKept(stored, now);
        KeptTwice(db, stored, ApproveCompletion(db, caller, user, now).0);
      }
    }
  }

  lemma JoiningAddsNoMark(ps: seq<Participant>, p: Participant)
    requires !Marked(p)
    ensures SomeMark(ps + [p]) ==> SomeMark(ps)
  {
    var all := ps + [p];
    if SomeMark(all) {
      var i :| 0 <= i < |all| && Marked(all[i]);
      assert i < |ps| && Marked(ps[i]);
    }
  }

  /** Somebody else is added, and the room moves on or stays. */
  lemma JoinIsKept(db: Db, db': Db, p: Participant)
    requires Inv(db) && !Marked(p) && |db.participants| < 2 && db.nextId <= db'.nextId
    requires db'.participants == db.participants + [p]
    requires db'.contracts == db.contracts && db'.evidence == db.evidence && db'.criteria == db.criteria
    requires Proceeds(db, db')
    ensures Kept(db, db')
  {
    JoiningAddsNoMark(db.participants, p);
    if AllVerified(db) { VerifiedStays(db, db'); }
    forall c | c in db'.criteria && IsVerified(db', c) ensures HasProof(db', c) { assert IsVerified(db, c); }
  }

  /** Whoever joins has approved nothing, and nobody joins a completed room. */
  lemma RedeemIsKept(db: Db, org: OrgId, inviteId: Id, addressOk: bool, now: int)
    requires Inv(db)
    ensures Kept(db, RedeemInvite(db, org, inviteId, addressOk, now).0)
  {
    var db' := RedeemInvite(db, org, inviteId, addressOk, now).0;
    if |db'.participants| == |db.participants| {
      NothingIsBystander(db);
      BystanderIsKept(db, db);
    } else {
      JoinIsKept(db, db', db'.participants[|db.participants|]);
    }
  }

  lemma NewContractIsKept(db: Db, db': Db)
    requires Inv(db) && Negotiable(db.room.state) && SameMarks(db, db')
    requires db' == db.(contracts := db'.contracts, participants := db'.participants)
    ensures Kept(db, db')
  {
    MarksStay(db, db');
    assert forall c :: HasProof(db, c) ==> HasProof(db', c);
  }

  /** A new contract can only come before anyone has approved completion. */
  lemma ProposeIsKept(db: Db, caller: Id, contract: Option<Contract>)
    requires Inv(db)
    ensures Kept(db, ProposeContract(db, caller, contract).0)
  {
    if ProposeContract(db, caller, contract).1.Err? {
      NothingIsBystander(db);
      BystanderIsKept(db, db);
    } else {
      NewContractIsKept(db, ProposeContract(db, caller, contract).0);
    }
  }

  // ---------------------------------------------------------------------------------------------
  // Runs
  // ---------------------------------------------------------------------------------------------

  predicate AboutCompletion(op: Op) {
    op.OpRedeem? || op.OpPropose? || op.OpStart? || op.OpClose? || op.OpApproveCompletion? || op.OpVerify?
  }

  lemma CompletionCallIsKept(env: Env, db: Db, op: Op)
    requires Lifecycle.PartiesOk(db) && Inv(db) && AboutCompletion(op)
    ensures Kept(db, Exec(env, db, op))
  {
    match op
    case OpRedeem(org, inviteId, addressOk, now) => RedeemIsKept(db, org, inviteId, addressOk, now);
    case OpPropose(caller, contract) => ProposeIsKept(db, caller, contract);
    case OpStart(caller, now) => StartIsKept(db, caller, now);
    case OpClose(caller, now) => CloseIsKept(db, caller, now);
    case OpApproveCompletion(caller, user, now) => CompletionIsKept(db, caller, user, now);
    case OpVerify(caller, evidenceId, user) => VerifyIsKept(db, caller, evidenceId, user);
  }

  lemma SubmitIsBystander(env: Env, db: Db, sender: Id, candidate: Option<Candidate>, now: int)
    requires env.Valid() && EvidenceOk(db)
    ensures Bystander(db, Submit(env, db, sender, candidate, now).0)
  {
    var e := SubmitEffect(env, db, sender, candidate, now);
    EffectIsBystander(env, db, e);
  }

  lemma DecideIsBystander(env: Env, db: Db, org: OrgId, user: UserId, id: Id, approve: bool, now: int)
    requires EvidenceOk(db)
    ensures Bystander(db, DecideApproval(env, db, org, user, id, approve, now).0)
  {
    var e := DecideEffect(env, db, org, user, id, approve, now);
    EffectIsBystander(env, db, e);
  }

  lemma SubmissionIsBystander(env: Env, db: Db, op: Op)
    requires env.Valid() && EvidenceOk(db) && op.OpSubmit?
    ensures Bystander(db, Exec(env, db, op))
  {
    SubmitIsBystander(env, db, op.sender, op.candidate, op.now);
  }

  lemma DecisionIsBystander(env: Env, db: Db, op: Op)
    requires EvidenceOk(db) && op.OpDecide?
    ensures Bystander(db, Exec(env, db, op))
  {
    DecideIsBystander(env, db, op.org, op.user, op.approvalId, op.approve, op.now);
  }

  lemma PlatformIsBystander(env: Env, db: Db, op: Op)
    requires EvidenceOk(db) && Works(op) && !op.OpSubmit? && !op.OpDecide?
    ensures Bystander(db, Exec(env, db, op))
  {
    var reason := if op.OpPauseForBudget? then op.reason else if op.OpReport? then op.detail else "";
    SystemIsBystander(db, reason, if op.OpAccount? then op.cost else 0.0);
  }

  lemma WorkIsBystander(env: Env, db: Db, op: Op)
    requires env.Valid() && EvidenceOk(db) && Works(op)
    ensures Bystander(db, Exec(env, db, op))
  {
    if op.OpSubmit? { SubmissionIsBystander(env, db, op); }
    else if op.OpDecide? { DecisionIsBystander(env, db, op); }
    else { PlatformIsBystander(env, db, op); }
  }

  lemma SetupIsBystander(env: Env, db: Db, op: Op)
    requires Lifecycle.PartiesOk(db) && EvidenceOk(db) && !AboutCompletion(op) && !Works(op)
    ensures Bystander(db, Exec(env, db, op))
  {
    match op
    case OpInvite(caller, expiresInMs, now) => InviteIsBystander(db, caller, expiresInMs, now);
    case OpApproveContract(caller, version) => ApproveContractIsBystander(db, caller, version);
    case OpSetPolicy(caller, policy) => SetPolicyIsBystander(db, caller, policy);
    case OpConnect(caller, agent, owned) => ConnectIsBystander(db, caller, agent, owned);
    case OpPause(caller) => ChangeIsBystander(db, caller, Paused);
    case OpResume(caller) => ChangeIsBystander(db, caller, Active);
    case OpCancel(caller) => ChangeIsBystander(db, caller, Canceled);
  }

  lemma OtherIsBystander(env: Env, db: Db, op: Op)
    requires env.Valid() && Lifecycle.PartiesOk(db) && EvidenceOk(db) && !AboutCompletion(op)
    ensures Bystander(db, Exec(env, db, op))
  {
    if Works(op) { WorkIsBystander(env, db, op); } else { SetupIsBystander(env, db, op); }
  }

  lemma StepIsKept(env: Env, db: Db, op: Op)
    requires env.Valid() && Lifecycle.PartiesOk(db) && Inv(db)
    ensures Kept(db, Exec(env, db, op))
  {
    if AboutCompletion(op) {
      CompletionCallIsKept(env, db, op);
    } else {
      OtherIsBystander(env, db, op);
      BystanderIsKept(db, Exec(env, db, op));
    }
  }

  lemma {:induction false} RunIsKept(env: Env, db: Db, ops: seq<Op>)
    requires env.Valid() && Lifecycle.Inv(db) && Inv(db)
    ensures Kept(db, Run(env, db, ops))
    decreases |ops|
  {
    if ops == [] {
      NothingIsBystander(db);
      BystanderIsKept(db, db);
    } else {
      var next := Exec(env, db, ops[0]);
      StepIsKept(env, db, ops[0]);
      Lifecycle.StepKeepsInv(env, db, ops[0]);
      RunIsKept(env, next, ops[1..]);
      KeptTwice(db, next, Run(env, next, ops[1..]));
    }
  }

  // ---------------------------------------------------------------------------------------------
  // Main results
  // ---------------------------------------------------------------------------------------------

  /** Over every run: once COMPLETED has been stored the room is COMPLETED or CLOSED, it has two participants, of different
      organizations, who both approved, and every evidence-required criterion of the latest contract is verified, with a
      record of that criterion behind it that a named human verified. `completedAt` tells exactly whether that happened. */
  lemma CompletedMeansVerified(env: Env, org: OrgId, budget: Budget, ops: seq<Op>)
    requires env.Valid()
    ensures var db := Run(env, CreateRoom(org, budget), ops);
      && (db.room.completedAt.Some? <==> Completed in db.history)
      && (Completed in db.history ==>
            && (db.room.state == Completed || db.room.state == Closed)
            && |db.participants| == 2 && db.participants[0].org != db.participants[1].org && db.contracts != []
            && (forall p :: p in db.participants ==> p.completionApprovedBy.Some?)
            && forall c :: c in Latest(db.contracts).contract.completionCriteria && c.evidenceRequired ==>
                 IsVerified(db, c.id) && HasProof(db, c.id))
  {
    Lifecycle.CreatedIsInv(org, budget);
    Lifecycle.RunKeepsInv(env, CreateRoom(org, budget), ops);
    RunIsKept(env, CreateRoom(org, budget), ops);
  }

  /** No sequence of calls undoes a human's verification of a criterion. */
  lemma VerifiedForever(env: Env, db: Db, ops: seq<Op>, criterion: string)
    requires env.Valid() && Lifecycle.Inv(db) && Inv(db) && IsVerified(db, criterion)
    ensures IsVerified(Run(env, db, ops), criterion) && HasProof(Run(env, db, ops), criterion)
  {
    RunIsKept(env, db, ops);
  }

  /** Exactly one call verifies a criterion: a participant's verification of a record that names it. */
  lemma OnlyHumansVerify(env: Env, db: Db, op: Op, criterion: string)
    requires env.Valid() && Lifecycle.PartiesOk(db) && Inv(db) && !IsVerified(db, criterion)
    ensures IsVerified(Exec(env, db, op), criterion) <==>
      && op.OpVerify? && Find(db.participants, op.caller).Some? && op.evidenceId in db.evidence
      && db.evidence[op.evidenceId].criterionId == criterion
  {
    if AboutCompletion(op) {
      CompletionCallKeepsCriteria(env, db, op);
    } else {
      OtherIsBystander(env, db, op);
    }
  }

  lemma CompletionCallKeepsCriteria(env: Env, db: Db, op: Op)
    requires AboutCompletion(op)
    ensures !op.OpVerify? ==> Exec(env, db, op).criteria == db.criteria
  {
  }
}
