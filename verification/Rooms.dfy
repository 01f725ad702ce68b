/** The room services as the program runs them, store call by store call (packages/core/src/rooms.ts). Each is proved to
    do what its function in RoomSpec says. */
module Rooms {
  import opened Wrappers
  import opened Policy
  import opened Events
  import opened RoomData
  import opened RoomStore
  import Spec = RoomSpec

  method Transition(store: Store, to: RoomState) returns (ok: bool)
    modifies store
    ensures ok == CanTransition(old(store.room.state), to)
    ensures store.View() == if ok then Spec.Moved(old(store.View()), to) else old(store.View())
  {
    ok := CanTransition(store.room.state, to);
    if ok { store.UpdateRoom(store.room.(state := to)); }
  }

  method CreateInvite(store: Store, caller: Id, expiresInMs: int, now: int) returns (r: Result<Id>)
    modifies store
    ensures (store.View(), r) == Spec.CreateInvite(old(store.View()), caller, expiresInMs, now)
  {
    var p := store.GetParticipant(caller);
    if p.None? { return Err(NotFound); }
    if store.room.state != Draft && store.room.state != Invited { return Err(BadState); }
    var id := store.CreateInvite(Invite(p.value.org, now + expiresInMs, None, None, 1, 0));
    if store.room.state == Draft { var _ := Transition(store, Invited); }
    return Ok(id);
  }

  method LoadRedeemableInvite(store: Store, inviteId: Id, addressOk: bool, now: int) returns (r: Result<Invite>)
    ensures r == match Spec.InviteProblem(store.View(), inviteId, addressOk, now)
                 case Some(e) => Err(e)
                 case None => Ok(store.invites[inviteId])
  {
    if inviteId !in store.invites { return Err(NotFound); }
    var invite := store.invites[inviteId];
    if invite.revokedAt.Some? { return Err(BadState); }
    if invite.expiresAt < now { return Err(BadState); }
    if invite.redemptions >= invite.maxRedemptions { return Err(BadState); }
    if !addressOk { return Err(Forbidden); }
    return Ok(invite);
  }

  method RedeemInvite(store: Store, org: OrgId, inviteId: Id, addressOk: bool, now: int) returns (r: Result<Id>)
    modifies store
    ensures (store.View(), r) == Spec.RedeemInvite(old(store.View()), org, inviteId, addressOk, now)
  {
    var found := LoadRedeemableInvite(store, inviteId, addressOk, now);
    if found.Err? { return Err(found.error); }
    var invite := found.value;
    if org == invite.invitingOrg { return Err(Validation); }
    if exists p :: p in store.participants && p.org == org { return Err(Conflict); }
    if |store.participants| >= 2 { return Err(Conflict); }
    store.UpdateInvite(inviteId, invite.(redemptions := invite.redemptions + 1, redeemedAt := Some(now)));
    var id := store.NewId();
    store.CreateParticipant(Participant(id, org, Provider, None, None, None, None));
    var ok := Transition(store, Negotiating);
    return if ok then Ok(id) else Err(BadState);
  }

  method ProposeContract(store: Store, caller: Id, contract: Option<Contract>) returns (r: Result<int>)
    modifies store
    ensures (store.View(), r) == Spec.ProposeContract(old(store.View()), caller, contract)
  {
    var p := store.GetParticipant(caller);
    if p.None? { return Err(NotFound); }
    if store.room.state != Draft && store.room.state != Invited && store.room.state != Negotiating { return Err(BadState); }
    if contract.None? { return Err(Validation); }
    var version := AddVersion(store, contract.value);
    VoidApprovals(store);
    return Ok(version);
  }

  method AddVersion(store: Store, contract: Contract) returns (version: int)
    modifies store`contracts
    ensures version == LatestVersion(old(store.contracts)) + 1
    ensures store.View() == old(store.View()).(contracts := old(store.contracts) + [ContractVersion(version, contract)])
  {
    var latest := store.LatestContractVersion();
    version := (if latest.None? then 0 else latest.value.version) + 1;
    store.CreateContractVersion(ContractVersion(version, contract));
  }

  /** A new version voids all previous approvals. */
  method VoidApprovals(store: Store)
    modifies store`participants
    ensures store.View() == old(store.View()).(participants := Spec.Unapproved(old(store.participants)))
  {
    var listed := store.participants;
    for i := 0 to |listed|
      invariant |store.participants| == |listed|
      invariant forall j :: 0 <= j < |listed| ==>
        store.participants[j] == if j < i then listed[j].(contractApproved := None) else listed[j]
    {
      if listed[i].contractApproved.Some? {
        store.participants := store.participants[i := listed[i].(contractApproved := None)];
      }
    }
    assert store.participants == Spec.Unapproved(listed);
  }

  method ApproveContract(store: Store, caller: Id, version: int) returns (r: Result<()>)
    modifies store
    ensures (store.View(), r) == Spec.ApproveContract(old(store.View()), caller, version)
  {
    var p := store.GetParticipant(caller);
    if p.None? { return Err(NotFound); }
    var latest := store.LatestContractVersion();
    if latest.None? { return Err(BadState); }
    if latest.value.version != version { return Err(Conflict); }
    store.UpdateParticipant(p.value.(contractApproved := Some(version)));
    MaybeMarkReady(store);
    return Ok(());
  }

  method SetParticipantPolicy(store: Store, caller: Id, policy: Option<ParticipantPolicy>) returns (r: Result<()>)
    modifies store
    ensures (store.View(), r) == Spec.SetPolicy(old(store.View()), caller, policy)
  {
    var p := store.GetParticipant(caller);
    if p.None? { return Err(NotFound); }
    if Spec.PolicyFrozen(store.room.state) { return Err(BadState); }
    if policy.None? { return Err(Validation); }
    store.UpdateParticipant(p.value.(policy := policy));
    MaybeMarkReady(store);
    return Ok(());
  }

  method ConnectAgentToRoom(store: Store, caller: Id, agent: Id, owned: bool) returns (r: Result<()>)
    modifies store
    ensures (store.View(), r) == Spec.ConnectAgent(old(store.View()), caller, agent, owned)
  {
    var p := store.GetParticipant(caller);
    if p.None? { return Err(NotFound); }
    if !owned { return Err(NotFound); }
    store.UpdateParticipant(p.value.(agent := Some(agent)));
    MaybeMarkReady(store);
    return Ok(());
  }

  method MaybeMarkReady(store: Store)
    modifies store
    ensures store.View() == Spec.MarkReady(old(store.View()))
  {
    if store.room.state != Negotiating { return; }
    var latest := store.LatestContractVersion();
    if latest.None? { return; }
    var ready := |store.participants| == 2;
    for i := 0 to |store.participants|
      invariant ready <==> |store.participants| == 2 && forall j :: 0 <= j < i ==> Spec.IsReady(store.participants[j], latest.value.version)
    {
      var p := store.participants[i];
      ready := ready && p.contractApproved == Some(latest.value.version) && p.policy.Some? && p.agent.Some?;
    }
    assert ready <==> Spec.Agreed(store.View()) by {
      if |store.participants| == 2 && !ready {
        var j :| 0 <= j < 2 && !Spec.IsReady(store.participants[j], latest.value.version);
        assert store.participants[j] in store.participants;
      }
    }
    if ready { var _ := Transition(store, Ready); }
  }

  method StartRoom(store: Store, caller: Id, now: int) returns (r: Result<()>)
    modifies store
    ensures (store.View(), r) == Spec.StartRoom(old(store.View()), caller, now)
  {
    var p := store.GetParticipant(caller);
    if p.None? { return Err(NotFound); }
    if store.room.state != Ready { return Err(BadState); }
    var _ := Transition(store, Active);
    store.UpdateRoom(store.room.(startedAt := Some(now), usage := store.room.usage.(startedAtMs := Some(now))));
    return Ok(());
  }

  /** `pauseRoom`, `resumeRoom` and `cancelRoom`. */
  method ChangeState(store: Store, caller: Id, to: RoomState) returns (r: Result<()>)
    modifies store
    ensures (store.View(), r) == Spec.ChangeState(old(store.View()), caller, to)
  {
    var p := store.GetParticipant(caller);
    if p.None? { return Err(NotFound); }
    var ok := Transition(store, to);
    return if ok then Ok(()) else Err(BadState);
  }

  method CloseRoom(store: Store, caller: Id, now: int) returns (r: Result<()>)
    modifies store
    ensures (store.View(), r) == Spec.CloseRoom(old(store.View()), caller, now)
  {
    var p := store.GetParticipant(caller);
    if p.None? { return Err(NotFound); }
    if store.room.state != Completed && store.room.state != Canceled && store.room.state != Quarantined {
      var ok := Transition(store, Canceled);
      if !ok { return Err(BadState); }
    }
    if !CanTransition(store.room.state, Closed) { return Err(BadState); }
    store.UpdateRoom(store.room.(state := Closed, closedAt := Some(now)));
    InvalidateApprovals(store);
    RevokeInvites(store, now);
    return Ok(());
  }

  function AllVoided(approvals: map<Id, Approval>): map<Id, Approval> { map id | id in approvals :: Spec.Voided(approvals[id]) }

  function AllRevoked(invites: map<Id, Invite>, now: int): map<Id, Invite> { map id | id in invites :: Spec.Revoked(invites[id], now) }

  method InvalidateApprovals(store: Store)
    modifies store`approvals
    ensures store.View() == old(store.View()).(approvals := AllVoided(old(store.approvals)))
  {
    var listed := store.approvals;
    var todo := listed.Keys;
    while todo != {}
      invariant todo <= listed.Keys == store.approvals.Keys
      invariant forall id :: id in listed ==> store.approvals[id] == if id in todo then listed[id] else Spec.Voided(listed[id])
    {
      var id :| id in todo;
      if listed[id].status == Pending { store.UpdateApproval(id, listed[id].(status := Invalidated)); }
      todo := todo - {id};
    }
  }

  method RevokeInvites(store: Store, now: int)
    modifies store`invites
    ensures store.View() == old(store.View()).(invites := AllRevoked(old(store.invites), now))
  {
    var listed := store.invites;
    var todo := listed.Keys;
    while todo != {}
      invariant todo <= listed.Keys == store.invites.Keys
      invariant forall id :: id in listed ==> store.invites[id] == if id in todo then listed[id] else Spec.Revoked(listed[id], now)
    {
      var id :| id in todo;
      if listed[id].revokedAt.None? && listed[id].redeemedAt.None? { store.UpdateInvite(id, listed[id].(revokedAt := Some(now))); }
      todo := todo - {id};
    }
  }

  method QuarantineRoom(store: Store)
    modifies store
    ensures store.View() == Spec.Quarantine(old(store.View()))
  {
    if CanTransition(store.room.state, Quarantined) { store.UpdateRoom(store.room.(state := Quarantined)); }
  }

  method CompletionStatus(store: Store) returns (satisfied: bool, verified: bool)
    ensures satisfied == Spec.Satisfied(store.View()) && verified == Spec.AllVerified(store.View())
  {
    var latest := store.LatestContractVersion();
    if latest.None? { return false, false; }
    var criteria := latest.value.contract.completionCriteria;
    satisfied, verified := true, true;
    for i := 0 to |criteria|
      invariant satisfied <==> forall j :: 0 <= j < i && criteria[j].evidenceRequired ==> criteria[j].id in store.criteria
      invariant verified <==> forall j :: 0 <= j < i && criteria[j].evidenceRequired ==>
        criteria[j].id in store.criteria && store.criteria[criteria[j].id] == Verified
    {
      var c := criteria[i];
      var state := if c.id in store.criteria then Some(store.criteria[c.id]) else None;
      satisfied := satisfied && (!c.evidenceRequired || state.Some?);
      verified := verified && (!c.evidenceRequired || state == Some(Verified));
    }
  }

  method ApproveCompletion(store: Store, caller: Id, user: UserId, now: int) returns (r: Result<()>)
    modifies store
    ensures (store.View(), r) == Spec.ApproveCompletion(old(store.View()), caller, user, now)
  {
    var p := store.GetParticipant(caller);
    if p.None? { return Err(NotFound); }
    if store.room.state != CompletionProposed { return Err(BadState); }
    var satisfied, verified := CompletionStatus(store);
    if !satisfied { return Err(BadState); }
    if !verified { return Err(BadState); }
    store.UpdateParticipant(p.value.(completionApprovedBy := Some(user)));
    if forall q :: q in store.participants ==> q.completionApprovedBy.Some? {
      store.UpdateRoom(store.room.(state := Completed, completedAt := Some(now)));
    }
    return Ok(());
  }
}
