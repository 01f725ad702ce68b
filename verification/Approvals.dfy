/** Human decisions as the program runs them (packages/core/src/approvals.ts). */
module Approvals {
  import opened Wrappers
  import opened Events
  import opened RoomData
  import opened RoomStore
  import Pipeline
  import Spec = RoomSpec

  method DecideApproval(env: Env, store: Store, org: OrgId, user: UserId, id: Id, approve: bool, now: int) returns (r: Result<Status>)
    modifies store
    ensures (store.View(), r) == Spec.DecideApproval(env, old(store.View()), org, user, id, approve, now)
  {
    if id !in store.approvals { return Err(NotFound); }
    var approval := store.approvals[id];
    if org != approval.approverOrg { return Err(Forbidden); }
    if approval.status != Pending { return Err(Conflict); }
    if approval.expiresAt < now {
      store.UpdateApproval(id, approval.(status := Expired));
      return Err(BadState);
    }
    var sender := store.GetParticipant(approval.requestedBy);
    if sender.None? { return Err(NotFound); }
    if !approve {
      r := Reject(store, id, user, now);
      return;
    }
    if env.hash(approval.body) != approval.parametersHash {
      var _ := store.ClaimApproval(id, Pending, (a: Approval) => a.(status := Invalidated));
      return Err(Conflict);
    }
    var dlp := env.scan(approval.body, None);
    if |dlp.secretFindings| > 0 {
      var _ := store.ClaimApproval(id, Pending, (a: Approval) => a.(status := Invalidated));
      return Err(Forbidden);
    }
    r := Approve(env, store, id, user, now);
  }

  method Reject(store: Store, id: Id, user: UserId, now: int) returns (r: Result<Status>)
    requires id in store.approvals
    modifies store
    ensures (store.View(), r) ==
      if old(store.approvals)[id].status != Pending then (old(store.View()), Err(Conflict))
      else (Spec.Noted(Spec.Decided(old(store.View()), id, Rejected, user, now), ActionRejected(id, ActionOf(old(store.approvals)[id].body))),
            Ok(Rejected))
  {
    var approval := store.approvals[id];
    var claimed := store.ClaimApproval(id, Pending, (a: Approval) => a.(status := Rejected, decidedBy := Some(user), decidedAt := Some(now)));
    if !claimed { return Err(Conflict); }
    store.Note(ActionRejected(id, ActionOf(approval.body)));
    return Ok(Rejected);
  }

  /** Claim once, release the body, name the released event, and let it take effect. */
  method Approve(env: Env, store: Store, id: Id, user: UserId, now: int) returns (r: Result<Status>)
    requires id in store.approvals
    modifies store
    ensures (store.View(), r) ==
      if old(store.approvals)[id].status != Pending then (old(store.View()), Err(Conflict))
      else (Spec.Authorize(env, old(store.View()), id, user, now), Ok(Approved))
  {
    var approval := store.approvals[id];
    var claimed := store.ClaimApproval(id, Pending,
      (a: Approval) => a.(status := Approved, decidedBy := Some(user), decidedAt := Some(now), consumedAt := Some(now)));
    if !claimed { return Err(Conflict); }
    var e := Pipeline.PersistAllowedEvent(store, approval.requestedBy, approval.body, env.scan(approval.body, None).classification);
    store.Note(ActionAuthorized(id, ActionOf(approval.body), e.id));
    Pipeline.ApplySideEffects(store, approval.requestedBy, approval.body);
    return Ok(Approved);
  }

  /** Human verification of submitted evidence. */
  method VerifyEvidence(store: Store, caller: Id, evidenceId: Id, user: UserId) returns (r: Result<()>)
    modifies store
    ensures (store.View(), r) == Spec.VerifyEvidence(old(store.View()), caller, evidenceId, user)
  {
    var p := store.GetParticipant(caller);
    if p.None? { return Err(NotFound); }
    if evidenceId !in store.evidence { return Err(NotFound); }
    var evidence := store.evidence[evidenceId];
    store.UpdateEvidence(evidenceId, evidence.(verification := HumanVerified, verifiedBy := Some(user)));
    store.UpsertCriterionStatus(evidence.criterionId, Verified);
    return Ok(());
  }
}
