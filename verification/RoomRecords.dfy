/** When the calls that set up, close and complete a room succeed, and what they leave in its records
    (packages/core/src/rooms.ts). */
module RoomRecords {
  import opened Wrappers
  import opened Policy
  import opened Events
  import opened RoomData
  import opened RoomSpec
  import Lifecycle = RoomLifecycle

  // ---------------------------------------------------------------------------------------------
  // Joining
  // ---------------------------------------------------------------------------------------------

  predicate HasOrg(ps: seq<Participant>, org: OrgId) { exists p :: p in ps && p.org == org }

  /** A redemption succeeds exactly for an invite that is known, not revoked, not past its expiry and not used up, by whoever has
      its address, of an organization that neither sent it nor takes part, while there is one participant and the room is
      INVITED. */
  lemma RedemptionSucceedsIff(db: Db, org: OrgId, inviteId: Id, addressOk: bool, now: int)
    ensures RedeemInvite(db, org, inviteId, addressOk, now).1.Ok? <==>
      && inviteId in db.invites && addressOk && db.room.state == Invited
      && var i := db.invites[inviteId];
      && i.revokedAt.None? && now <= i.expiresAt && i.redemptions < i.maxRedemptions
      && org != i.invitingOrg && !HasOrg(db.participants, org) && |db.participants| < 2
  {
  }

  /** A new invite lets in, until its expiry, exactly one other organization once, while the room waits for one. */
  lemma InviteLetsInOnce(db: Db, caller: Participant, expiresInMs: int, now: int, org: OrgId, addressOk: bool, at: int, again: OrgId, later: int)
    requires Find(db.participants, caller.id) == Some(caller) && (db.room.state == Draft || db.room.state == Invited)
    ensures var (invited, reply) := CreateInvite(db, caller.id, expiresInMs, now);
      && reply == Ok(db.nextId) && invited.room.state == Invited
      && var (joined, answer) := RedeemInvite(invited, org, db.nextId, addressOk, at);
      && (answer.Ok? <==>
            addressOk && at <= now + expiresInMs && org != caller.org && !HasOrg(db.participants, org) && |db.participants| < 2)
      && (answer.Ok? ==>
            && joined.room.state == Negotiating
            && joined.participants == db.participants + [Participant(answer.value, org, Provider, None, None, None, None)]
            && RedeemInvite(joined, again, db.nextId, true, later) == (joined, Err(BadState)))
  {
    var (invited, reply) := CreateInvite(db, caller.id, expiresInMs, now);
    RedemptionSucceedsIff(invited, org, db.nextId, addressOk, at);
  }

  /** Nobody else can invite, and nobody once the room negotiates. */
  lemma InvitingSucceedsIff(db: Db, caller: Id, expiresInMs: int, now: int)
    ensures CreateInvite(db, caller, expiresInMs, now).1.Ok? <==>
      (exists p :: p in db.participants && p.id == caller) && (db.room.state == Draft || db.room.state == Invited)
    ensures CreateInvite(db, caller, expiresInMs, now).1.Err? ==> CreateInvite(db, caller, expiresInMs, now).0 == db
  {
  }

  // ---------------------------------------------------------------------------------------------
  // Agreeing
  // ---------------------------------------------------------------------------------------------

  /** Everything about a participant but what has been approved. */
  predicate SameButApproval(p: Participant, q: Participant) { q.(contractApproved := None) == p.(contractApproved := None) }

  /** A proposal succeeds exactly from a participant, with a valid contract, before the room is READY; then the new contract is
      the latest version, nobody has approved it, and all else that anybody settled stands. */
  lemma ProposalSucceedsIff(db: Db, caller: Id, contract: Option<Contract>)
    ensures var (db', reply) := ProposeContract(db, caller, contract);
      && (reply.Ok? <==>
            && (exists p :: p in db.participants && p.id == caller) && contract.Some?
            && (db.room.state == Draft || db.room.state == Invited || db.room.state == Negotiating))
      && (reply.Err? ==> db' == db)
      && (reply.Ok? ==>
            && db'.(contracts := db.contracts, participants := db.participants) == db
            && |db'.contracts| == |db.contracts| + 1 && db.contracts <= db'.contracts
            && Latest(db'.contracts) == ContractVersion(reply.value, contract.value)
            && (db.contracts != [] ==> reply.value == Latest(db.contracts).version + 1) && (db.contracts == [] ==> reply.value == 1)
            && |db'.participants| == |db.participants|
            && forall i :: 0 <= i < |db.participants| ==>
                 db'.participants[i].contractApproved.None? && SameButApproval(db.participants[i], db'.participants[i]))
  {
    var (db', reply) := ProposeContract(db, caller, contract);
    if reply.Ok? { assert db'.contracts[..|db.contracts|] == db.contracts; }
  }

  /** What a room needs to be READY. */
  predicate IsSetUp(db: Db) {
    && |db.participants| == 2 && db.contracts != []
    && forall i :: 0 <= i < 2 ==>
         && db.participants[i].contractApproved == Some(Latest(db.contracts).version)
         && db.participants[i].policy.Some? && db.participants[i].agent.Some?
  }

  /** `q` takes the place of `p`. */
  predicate Replaces(ps: seq<Participant>, ps': seq<Participant>, p: Participant, q: Participant) {
    |ps'| == |ps| && forall i :: 0 <= i < |ps| ==> ps'[i] == if ps[i] == p then q else ps[i]
  }

  lemma StoringReplaces(db: Db, p: Participant, q: Participant)
    requires Lifecycle.PartiesOk(db) && p in db.participants && q.id == p.id
    ensures Replaces(db.participants, StoreParticipant(db, q).participants, p, q)
  {
  }

  /** Only that has changed, and from NEGOTIATING, exactly with everything set up, the state to READY. */
  predicate IsSettled(db: Db, db': Db, p: Participant, q: Participant) {
    && Replaces(db.participants, db'.participants, p, q)
    && db'.(participants := db.participants, room := db.room, history := db.history) == db
    && db'.room == (if db.room.state == Negotiating && IsSetUp(db') then db.room.(state := Ready) else db.room)
    && db'.history == (if db.room.state == Negotiating && IsSetUp(db') then db.history + [Ready] else db.history)
  }

  lemma StoredIsSettled(db: Db, p: Participant, q: Participant)
    requires Lifecycle.PartiesOk(db) && p in db.participants && q.id == p.id
    ensures IsSettled(db, MarkReady(StoreParticipant(db, q)), p, q)
  {
    StoringReplaces(db, p, q);
    AgreedIsSetUp(StoreParticipant(db, q));
    MarkingIs(db, StoreParticipant(db, q));
  }

  lemma MarkingIs(db: Db, stored: Db)
    requires stored == db.(participants := stored.participants) && (Agreed(stored) <==> IsSetUp(stored))
    ensures var db' := MarkReady(stored);
      && db'.(participants := db.participants, room := db.room, history := db.history) == db && db'.participants == stored.participants
      && db'.room == (if db.room.state == Negotiating && IsSetUp(db') then db.room.(state := Ready) else db.room)
      && db'.history == (if db.room.state == Negotiating && IsSetUp(db') then db.history + [Ready] else db.history)
  {
  }

  lemma AgreedIsSetUp(db: Db)
    ensures Agreed(db) <==> IsSetUp(db)
  {
    if |db.participants| == 2 { assert db.participants[0] in db.participants && db.participants[1] in db.participants; }
  }

  /** Approving succeeds exactly for the latest version, and makes the room READY exactly if nothing else is missing. */
  lemma ContractApprovalSucceedsIff(db: Db, p: Participant, version: int)
    requires Lifecycle.PartiesOk(db) && Find(db.participants, p.id) == Some(p)
    ensures var (db', reply) := ApproveContract(db, p.id, version);
      && (reply.Ok? <==> db.contracts != [] && version == Latest(db.contracts).version)
      && (reply.Err? ==> db' == db)
      && (reply.Ok? ==> IsSettled(db, db', p, p.(contractApproved := Some(version))))
  {
    StoredIsSettled(db, p, p.(contractApproved := Some(version)));
  }

  /** A policy can be set exactly while the room is being set up, READY, paused or quarantined. */
  lemma PolicySucceedsIff(db: Db, p: Participant, policy: Option<ParticipantPolicy>)
    requires Lifecycle.PartiesOk(db) && Find(db.participants, p.id) == Some(p)
    ensures var (db', reply) := SetPolicy(db, p.id, policy);
      && (reply.Ok? <==> policy.Some? && db.room.state in {Draft, Invited, Negotiating, Ready, Paused, Quarantined})
      && (reply.Err? ==> db' == db)
      && (reply.Ok? ==> IsSettled(db, db', p, p.(policy := policy)))
  {
    StoredIsSettled(db, p, p.(policy := policy));
  }

  /** An agent can be connected at any time, exactly if it is the organization's own. */
  lemma ConnectingSucceedsIff(db: Db, p: Participant, agent: Id, owned: bool)
    requires Lifecycle.PartiesOk(db) && Find(db.participants, p.id) == Some(p)
    ensures var (db', reply) := ConnectAgent(db, p.id, agent, owned);
      && (reply.Ok? <==> owned) && (reply.Err? ==> db' == db)
      && (reply.Ok? ==> IsSettled(db, db', p, p.(agent := Some(agent))))
  {
    StoredIsSettled(db, p, p.(agent := Some(agent)));
  }

  // ---------------------------------------------------------------------------------------------
  // Moving
  // ---------------------------------------------------------------------------------------------

  /** A participant can pause, resume, cancel and start a room exactly in these states. */
  lemma MovingSucceedsIff(db: Db, caller: Id, now: int)
    ensures var known, s := exists p :: p in db.participants && p.id == caller, db.room.state;
      && (ChangeState(db, caller, Paused).1.Ok? <==> known && (s == Active || s == Quarantined))
      && (ChangeState(db, caller, Active).1.Ok? <==> known && (s == Ready || s == Paused || s == CompletionProposed))
      && (ChangeState(db, caller, Canceled).1.Ok? <==> known && s != Completed && s != Canceled && s != Closed)
      && (StartRoom(db, caller, now).1.Ok? <==> known && s == Ready)
  {
  }

  /** Starting sets the start time in both places, and nothing else. */
  lemma StartLeaves(db: Db, caller: Id, now: int)
    requires StartRoom(db, caller, now).1.Ok?
    ensures var db' := StartRoom(db, caller, now).0;
      && db'.room == db.room.(state := Active, startedAt := Some(now), usage := db.room.usage.(startedAtMs := Some(now)))
      && db'.(room := db.room, history := db.history) == db
  {
  }

  /** Halting pauses an ACTIVE room, and nothing else. */
  lemma HaltLeaves(db: Db)
    ensures HaltRoom(db) ==
      if db.room.state == Active then db.(room := db.room.(state := Paused), history := db.history + [Paused]) else db
  {
  }

  /** Closing leaves the room CLOSED, by way of CANCELED unless it is COMPLETED, CANCELED or QUARANTINED; every pending approval
      is INVALIDATED and every open invite revoked; approvals that were decided, invites that were redeemed or revoked, and
      everything else stay as they are. */
  lemma ClosingLeaves(db: Db, caller: Id, now: int)
    requires Find(db.participants, caller).Some? && db.room.state != Closed
    ensures var (db', reply) := CloseRoom(db, caller, now);
      && reply.Ok? && db'.room == db.room.(state := Closed, closedAt := Some(now))
      && db'.history == db.history
           + (if db.room.state in {Completed, Canceled, Quarantined} then [Closed] else [Canceled, Closed])
      && db'.approvals.Keys == db.approvals.Keys && db'.invites.Keys == db.invites.Keys
      && (forall id :: id in db.approvals ==>
            db'.approvals[id] == if db.approvals[id].status == Pending then db.approvals[id].(status := Invalidated) else db.approvals[id])
      && (forall id :: id in db.invites ==>
            db'.invites[id] == if db.invites[id].redeemedAt.None? && db.invites[id].revokedAt.None?
                               then db.invites[id].(revokedAt := Some(now)) else db.invites[id])
      && db'.(room := db.room, history := db.history, approvals := db.approvals, invites := db.invites) == db
  {
  }

  // ---------------------------------------------------------------------------------------------
  // Completing
  // ---------------------------------------------------------------------------------------------

  predicate OthersApproved(ps: seq<Participant>, p: Participant) {
    forall i :: 0 <= i < |ps| && ps[i] != p ==> ps[i].completionApprovedBy.Some?
  }

  lemma LastApprovalIs(db: Db, db': Db, p: Participant, q: Participant)
    requires Replaces(db.participants, db'.participants, p, q) && q.completionApprovedBy.Some?
    ensures BothApprovedCompletion(db') <==> OthersApproved(db.participants, p)
  {
    if BothApprovedCompletion(db') {
      forall i | 0 <= i < |db.participants| && db.participants[i] != p ensures db.participants[i].completionApprovedBy.Some? {
        assert db'.participants[i] in db'.participants;
      }
    }
  }

  /** Approving completion succeeds exactly with completion proposed and every required criterion of the latest contract
      verified; it records who approved, and completes the room exactly if everybody else had approved before. */
  lemma CompletionSucceedsIff(db: Db, p: Participant, user: UserId, now: int)
    requires Lifecycle.PartiesOk(db) && Find(db.participants, p.id) == Some(p)
    ensures var (db', reply) := ApproveCompletion(db, p.id, user, now);
      && (reply.Ok? <==>
            && db.room.state == CompletionProposed && db.contracts != []
            && forall c :: c in Latest(db.contracts).contract.completionCriteria && c.evidenceRequired ==>
                 c.id in db.criteria && db.criteria[c.id] == Verified)
      && (reply.Err? ==> db' == db)
      && (reply.Ok? ==>
            && Replaces(db.participants, db'.participants, p, p.(completionApprovedBy := Some(user)))
            && db'.(participants := db.participants, room := db.room, history := db.history) == db
            && db'.room == if OthersApproved(db.participants, p)
                           then db.room.(state := Completed, completedAt := Some(now)) else db.room)
  {
    var q := p.(completionApprovedBy := Some(user));
    StoringReplaces(db, p, q);
    LastApprovalIs(db, StoreParticipant(db, q), p, q);
  }

  /** A human's verification marks that record and verifies its criterion, and nothing else. */
  lemma VerificationLeaves(db: Db, p: Participant, evidenceId: Id, user: UserId)
    requires Find(db.participants, p.id) == Some(p)
    ensures var (db', reply) := VerifyEvidence(db, p.id, evidenceId, user);
      && (reply.Ok? <==> evidenceId in db.evidence) && (reply.Err? ==> db' == db)
      && (reply.Ok? ==>
            var e := db.evidence[evidenceId];
            && db'.(evidence := db.evidence, criteria := db.criteria) == db
            && db'.evidence == db.evidence[evidenceId := e.(verification := HumanVerified, verifiedBy := Some(user))]
            && db'.criteria == db.criteria[e.criterionId := Verified])
  {
  }
}
