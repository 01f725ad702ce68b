/** What a human decision leaves behind: in the approval's record, alone and over every interleaving, and in the stream
    (packages/core/src/approvals.ts, packages/database/src/memory.ts). */
module DecisionRecords {
  import opened Wrappers
  import opened Events
  import opened RoomData
  import Race = ApprovalRace
  import Spec = RoomSpec

  // ---------------------------------------------------------------------------------------------
  // One decision
  // ---------------------------------------------------------------------------------------------

  /** Only the record of `id` is changed, and it still holds the same request. */
  predicate OnlyRecord(before: map<Id, Approval>, after: map<Id, Approval>, id: Id) {
    && id in before && after.Keys == before.Keys && SameRequest(before[id], after[id])
    && forall k :: k in before && k != id ==> after[k] == before[k]
  }

  /** A decision succeeds only for the right organization, on a pending approval and in time, and stores what it answers, who
      decided and when; only an approval is consumed. */
  lemma DecisionIsRecorded(env: Env, db: Db, org: OrgId, user: UserId, id: Id, approve: bool, now: int)
    requires Spec.DecideApproval(env, db, org, user, id, approve, now).1.Ok?
    ensures var (db', reply) := Spec.DecideApproval(env, db, org, user, id, approve, now);
      && reply.value == (if approve then Approved else Rejected)
      && OnlyRecord(db.approvals, db'.approvals, id)
      && db.approvals[id].status == Pending && now <= db.approvals[id].expiresAt && org == db.approvals[id].approverOrg
      && db'.approvals[id].status == reply.value
      && db'.approvals[id].decidedBy == Some(user) && db'.approvals[id].decidedAt == Some(now)
      && db'.approvals[id].consumedAt == if approve then Some(now) else db.approvals[id].consumedAt
  {
    var a := db.approvals[id];
    if approve {
      var released := Spec.Released(Spec.Decided(db, id, Approved, user, now), a.requestedBy, a.body, env.scan(a.body, None).classification);
      EffectsLeaveRecords(Spec.Noted(released, ActionAuthorized(id, ActionOf(a.body), db.nextId)), a.requestedBy, a.body);
    }
  }

  lemma EffectsLeaveRecords(db: Db, sender: Id, body: Body)
    ensures Spec.SideEffects(db, sender, body).approvals == db.approvals
  {
  }

  /** A decision that is refused says nothing, and changes at most the status of a pending approval: to EXPIRED past its
      expiry, and otherwise, when a participant asked for it and approval is refused because its body no longer has its hash
      or has a secret, to INVALIDATED. */
  lemma RefusalIsRecorded(env: Env, db: Db, org: OrgId, user: UserId, id: Id, approve: bool, now: int)
    requires Spec.DecideApproval(env, db, org, user, id, approve, now).1.Err?
    ensures var db' := Spec.DecideApproval(env, db, org, user, id, approve, now).0;
      if id !in db.approvals || org != db.approvals[id].approverOrg || db.approvals[id].status != Pending then db' == db
      else
        && OnlyRecord(db.approvals, db'.approvals, id) && db'.(approvals := db.approvals) == db
        && db'.approvals[id].(status := Pending) == db.approvals[id]
        && db'.approvals[id].status ==
             if db.approvals[id].expiresAt < now then Expired
             else if Find(db.participants, db.approvals[id].requestedBy).None? then Pending else Invalidated
  {
  }

  /** Rejecting says only that; approving first lets the body go as it was held, on behalf of the one who asked, addressed to
      the other participant, and then names that event. */
  lemma DecisionIsAnnounced(env: Env, db: Db, org: OrgId, user: UserId, id: Id, approve: bool, now: int)
    requires Spec.DecideApproval(env, db, org, user, id, approve, now).1.Ok?
    ensures var a, n, later := db.approvals[id], |db.events|, Spec.DecideApproval(env, db, org, user, id, approve, now).0.events;
      && db.events <= later
      && (!approve ==> |later| == n + 1 && later[n].sender.None? && later[n].content == FromPlatform(ActionRejected(id, ActionOf(a.body))))
      && (approve ==>
            && n + 2 <= |later| <= n + 3 && later[n].id == db.nextId
            && later[n].sender == Some(a.requestedBy) && later[n].content == FromAgent(a.body)
            && later[n].recipient == Peer(db.participants, a.requestedBy)
            && later[n].classification == env.scan(a.body, None).classification
            && later[n + 1].sender.None? && later[n + 1].content == FromPlatform(ActionAuthorized(id, ActionOf(a.body), later[n].id))
            && (|later| == n + 3 ==> later[n + 2].sender.None? && later[n + 2].content == FromPlatform(CompletionRejected)))
  {
    var a := db.approvals[id];
    if approve {
      var released := Spec.Released(Spec.Decided(db, id, Approved, user, now), a.requestedBy, a.body, env.scan(a.body, None).classification);
      var e := Race.SideEffectsArePlain(Spec.Noted(released, ActionAuthorized(id, ActionOf(a.body), db.nextId)), a.requestedBy, a.body);
    }
  }

  // ---------------------------------------------------------------------------------------------
  // Statuses and outcomes over every interleaving
  // ---------------------------------------------------------------------------------------------

  predicate IsRejection(c: Content, id: Id) { c.FromPlatform? && c.notice.ActionRejected? && c.notice.approvalId == id }

  predicate RejectionSaid(s: Race.Sys, id: Id) { exists k :: 0 <= k < |s.db.events| && IsRejection(s.db.events[k].content, id) }

  predicate RejectionOwed(s: Race.Sys, id: Id) { exists i :: 0 <= i < |s.procs| && s.procs[i].Rejecting? && s.procs[i].id == id }

  predicate WasReleased(s: Race.Sys, id: Id) { exists k :: 0 <= k < |s.releases| && s.releases[k].approval == id }

  predicate ReleaseOwed(s: Race.Sys, id: Id) { exists i :: 0 <= i < |s.procs| && s.procs[i].Releasing? && s.procs[i].id == id }

  /** The status and what was made of it agree, both ways; a stale write may have overwritten either. */
  predicate RecordOk(s: Race.Sys, id: Id)
    requires id in s.db.approvals
  {
    var status := s.db.approvals[id].status;
    && (status == Approved ==> WasReleased(s, id) || ReleaseOwed(s, id))
    && (status == Rejected ==> RejectionSaid(s, id) || RejectionOwed(s, id))
    && (WasReleased(s, id) || ReleaseOwed(s, id) ==> status == Approved || status == Expired || status == Invalidated)
    && (RejectionSaid(s, id) || RejectionOwed(s, id) ==> status == Rejected || status == Expired || status == Invalidated)
  }

  predicate RecordsOk(s: Race.Sys) { forall id :: id in s.db.approvals ==> RecordOk(s, id) }

  // ---------------------------------------------------------------------------------------------
  // One step
  // ---------------------------------------------------------------------------------------------

  predicate Rejects(p: Race.Proc, id: Id) { p.Rejecting? && p.id == id }

  predicate Releases(p: Race.Proc, id: Id) { p.Releasing? && p.id == id }

  predicate Moved(s: Race.Sys, s': Race.Sys, i: nat) { i < |s.procs| == |s'.procs| && s'.procs == s.procs[i := s'.procs[i]] }

  lemma OwedAfter(s: Race.Sys, s': Race.Sys, i: nat, id: Id)
    requires Moved(s, s', i)
    ensures RejectionOwed(s', id) ==> RejectionOwed(s, id) || Rejects(s'.procs[i], id)
    ensures RejectionOwed(s, id) ==> RejectionOwed(s', id) || Rejects(s.procs[i], id)
    ensures ReleaseOwed(s', id) ==> ReleaseOwed(s, id) || Releases(s'.procs[i], id)
    ensures ReleaseOwed(s, id) ==> ReleaseOwed(s', id) || Releases(s.procs[i], id)
    ensures Rejects(s'.procs[i], id) ==> RejectionOwed(s', id)
    ensures Releases(s'.procs[i], id) ==> ReleaseOwed(s', id)
  {
    if RejectionOwed(s, id) && !Rejects(s.procs[i], id) {
      var j :| 0 <= j < |s.procs| && Rejects(s.procs[j], id);
      assert Rejects(s'.procs[j], id);
    }
    if ReleaseOwed(s, id) && !Releases(s.procs[i], id) {
      var j :| 0 <= j < |s.procs| && Releases(s.procs[j], id);
      assert Releases(s'.procs[j], id);
    }
  }

  lemma SaidAfter(s: Race.Sys, s': Race.Sys, e: Option<Event>, id: Id)
    requires s'.db.events == if e.Some? then s.db.events + [e.value] else s.db.events
    ensures RejectionSaid(s', id) <==> RejectionSaid(s, id) || (e.Some? && IsRejection(e.value.content, id))
  {
    if RejectionSaid(s, id) {
      var k :| 0 <= k < |s.db.events| && IsRejection(s.db.events[k].content, id);
      assert IsRejection(s'.db.events[k].content, id);
    }
    if e.Some? && IsRejection(e.value.content, id) { assert IsRejection(s'.db.events[|s.db.events|].content, id); }
  }

  lemma ReleasedAfter(s: Race.Sys, s': Race.Sys, r: Option<Race.Release>, id: Id)
    requires s'.releases == if r.Some? then s.releases + [r.value] else s.releases
    ensures WasReleased(s', id) <==> WasReleased(s, id) || (r.Some? && r.value.approval == id)
  {
    if WasReleased(s, id) {
      var k :| 0 <= k < |s.releases| && s.releases[k].approval == id;
      assert s'.releases[k].approval == id;
    }
    if r.Some? && r.value.approval == id { assert s'.releases[|s.releases|].approval == id; }
  }

  /** Statuses stay, or become EXPIRED or INVALIDATED. */
  predicate OnlyVoided(s: Race.Sys, s': Race.Sys) {
    forall id :: id in s'.db.approvals ==>
      id in s.db.approvals && (s'.db.approvals[id].status == s.db.approvals[id].status
                               || s'.db.approvals[id].status == Expired || s'.db.approvals[id].status == Invalidated)
  }

  predicate HasOutcome(p: Race.Proc) { p.Rejecting? || p.Releasing? }

  /** A step of a call that neither takes on nor delivers an outcome. */
  lemma CalmRecords(s: Race.Sys, s': Race.Sys, i: nat, e: Option<Event>)
    requires RecordsOk(s) && Moved(s, s', i) && OnlyVoided(s, s') && s'.releases == s.releases
    requires !HasOutcome(s.procs[i]) && !HasOutcome(s'.procs[i])
    requires s'.db.events == if e.Some? then s.db.events + [e.value] else s.db.events
    requires e.Some? ==> e.value.content.FromPlatform? && !e.value.content.notice.ActionRejected?
    ensures RecordsOk(s')
  {
    forall id | id in s'.db.approvals ensures RecordOk(s', id) {
      assert RecordOk(s, id);
      OwedAfter(s, s', i, id);
      SaidAfter(s, s', e, id);
      ReleasedAfter(s, s', None, id);
    }
  }

  /** A call wins its claim and takes on the outcome. */
  lemma WinningRecords(s: Race.Sys, s': Race.Sys, i: nat, id: Id)
    requires RecordsOk(s) && Moved(s, s', i) && s'.db.events == s.db.events && s'.releases == s.releases
    requires !HasOutcome(s.procs[i]) && HasOutcome(s'.procs[i]) && s'.procs[i].id == id
    requires OnlyRecord(s.db.approvals, s'.db.approvals, id) && s.db.approvals[id].status == Pending
    requires s'.db.approvals[id].status == if s'.procs[i].Rejecting? then Rejected else Approved
    ensures RecordsOk(s')
  {
    forall k | k in s'.db.approvals ensures RecordOk(s', k) {
      assert RecordOk(s, k);
      OwedAfter(s, s', i, k);
      SaidAfter(s, s', None, k);
      ReleasedAfter(s, s', None, k);
    }
  }

  /** A call delivers the outcome that it took on. */
  lemma DeliveringRecords(s: Race.Sys, s': Race.Sys, i: nat, e: Event)
    requires RecordsOk(s) && Moved(s, s', i) && s'.db.approvals == s.db.approvals && s'.db.events == s.db.events + [e]
    requires HasOutcome(s.procs[i]) && !HasOutcome(s'.procs[i])
    requires s.procs[i].Rejecting? ==> s'.releases == s.releases && e.content.FromPlatform? && e.content.notice.ActionRejected?
                                       && e.content.notice.approvalId == s.procs[i].id
    requires s.procs[i].Releasing? ==> s'.releases == s.releases + [Race.Release(s.procs[i].id, e.id)] && e.content.FromAgent?
    ensures RecordsOk(s')
  {
    var r := if s.procs[i].Releasing? then Some(Race.Release(s.procs[i].id, e.id)) else None;
    forall id | id in s'.db.approvals ensures RecordOk(s', id) {
      assert RecordOk(s, id);
      assert Rejects(s.procs[i], id) ==> RejectionOwed(s, id);
      assert Releases(s.procs[i], id) ==> ReleaseOwed(s, id);
      OwedAfter(s, s', i, id);
      SaidAfter(s, s', Some(e), id);
      ReleasedAfter(s, s', r, id);
    }
  }

  predicate TakesOn(env: Env, s: Race.Sys, i: nat, wait: nat)
    requires i < |s.procs|
  {
    HasOutcome(Race.Next(env, s, Race.Act(i, wait)).procs[i])
  }

  lemma QuietMoves(env: Env, s: Race.Sys, i: nat, wait: nat)
    requires Race.Inv(env, s) && RecordsOk(s) && i < |s.procs| && !HasOutcome(s.procs[i]) && !TakesOn(env, s, i, wait)
    ensures RecordsOk(Race.Next(env, s, Race.Act(i, wait)))
  {
    var s', p := Race.Next(env, s, Race.Act(i, wait)), s.procs[i];
    assert Race.ProcOk(env, s, p);
    if p.Finishing? {
      var e := Race.SideEffectsArePlain(s.db, p.stale.requestedBy, p.stale.body);
      CalmRecords(s, s', i, e);
    } else if p.Authorizing? {
      CalmRecords(s, s', i, Some(s'.db.events[|s.db.events|]));
    } else {
      VoidsOnly(env, s, i, wait);
      CalmRecords(s, s', i, None);
    }
  }

  lemma VoidsOnly(env: Env, s: Race.Sys, i: nat, wait: nat)
    requires Race.Inv(env, s) && i < |s.procs| && !HasOutcome(s.procs[i]) && !TakesOn(env, s, i, wait)
    requires !s.procs[i].Finishing? && !s.procs[i].Authorizing?
    ensures var s' := Race.Next(env, s, Race.Act(i, wait)); OnlyVoided(s, s') && s'.db.events == s.db.events
  {
    assert Race.ProcOk(env, s, s.procs[i]);
    if s.procs[i].Voiding? && s.procs[i].todo != [] { assert s.procs[i].todo[0] in s.procs[i].todo; }
  }

  lemma WinningMoves(env: Env, s: Race.Sys, i: nat, wait: nat)
    requires Race.Inv(env, s) && RecordsOk(s) && i < |s.procs| && !HasOutcome(s.procs[i]) && TakesOn(env, s, i, wait)
    ensures RecordsOk(Race.Next(env, s, Race.Act(i, wait)))
  {
    WinningRecords(s, Race.Next(env, s, Race.Act(i, wait)), i, s.procs[i].id);
  }

  lemma DeliveringMoves(env: Env, s: Race.Sys, i: nat, wait: nat)
    requires RecordsOk(s) && i < |s.procs| && HasOutcome(s.procs[i])
    ensures RecordsOk(Race.Next(env, s, Race.Act(i, wait)))
  {
    var s' := Race.Next(env, s, Race.Act(i, wait));
    DeliveringRecords(s, s', i, s'.db.events[|s.db.events|]);
  }

  /** Steps that are not those of a call: nothing of any outcome changes. */
  lemma OthersKeepOutcomes(env: Env, s: Race.Sys, act: Race.Action, id: Id)
    requires !act.Act?
    ensures var s' := Race.Next(env, s, act);
      && (RejectionOwed(s', id) <==> RejectionOwed(s, id)) && (ReleaseOwed(s', id) <==> ReleaseOwed(s, id))
      && (RejectionSaid(s', id) <==> RejectionSaid(s, id)) && (WasReleased(s', id) <==> WasReleased(s, id))
  {
    var s' := Race.Next(env, s, act);
    var e := if |s'.db.events| > |s.db.events| then Some(s'.db.events[|s.db.events|]) else None;
    SaidAfter(s, s', e, id);
    ReleasedAfter(s, s', None, id);
    if RejectionOwed(s, id) {
      var j :| 0 <= j < |s.procs| && Rejects(s.procs[j], id);
      assert Rejects(s'.procs[j], id);
    }
    if ReleaseOwed(s, id) {
      var j :| 0 <= j < |s.procs| && Releases(s.procs[j], id);
      assert Releases(s'.procs[j], id);
    }
  }

  /** Nothing has been made of an approval that does not exist yet. */
  lemma NothingOfUnknown(env: Env, s: Race.Sys, id: Id)
    requires Race.Inv(env, s) && id !in s.db.approvals
    ensures !RejectionOwed(s, id) && !ReleaseOwed(s, id) && !RejectionSaid(s, id) && !WasReleased(s, id)
  {
    forall i | 0 <= i < |s.procs| ensures !Rejects(s.procs[i], id) && !Releases(s.procs[i], id) { assert Race.ProcOk(env, s, s.procs[i]); }
    forall k | 0 <= k < |s.db.events| ensures !IsRejection(s.db.events[k].content, id) { assert Race.OutcomeOk(s, s.db.events[k].content); }
    forall k | 0 <= k < |s.releases| ensures s.releases[k].approval != id {
      assert s.releases[k] in s.releases;
      assert Race.ReleaseOk(env, s, s.releases[k]);
    }
  }

  lemma OtherRecords(env: Env, s: Race.Sys, act: Race.Action)
    requires Race.Inv(env, s) && RecordsOk(s) && !act.Act?
    ensures RecordsOk(Race.Next(env, s, act))
  {
    var s' := Race.Next(env, s, act);
    forall id | id in s'.db.approvals ensures RecordOk(s', id) {
      OthersKeepOutcomes(env, s, act, id);
      if id in s.db.approvals {
        assert RecordOk(s, id);
        if act.Create? { assert id < s.db.nextId; }
      } else {
        NothingOfUnknown(env, s, id);
      }
    }
  }

  lemma StepKeepsRecords(env: Env, s: Race.Sys, act: Race.Action)
    requires Race.Inv(env, s) && RecordsOk(s)
    ensures RecordsOk(Race.Next(env, s, act))
  {
    if !act.Act? { OtherRecords(env, s, act); }
    else if act.i < |s.procs| {
      if HasOutcome(s.procs[act.i]) { DeliveringMoves(env, s, act.i, act.wait); }
      else if TakesOn(env, s, act.i, act.wait) { WinningMoves(env, s, act.i, act.wait); }
      else { QuietMoves(env, s, act.i, act.wait); }
    }
  }

  lemma {:induction false} RunKeepsRecords(env: Env, s: Race.Sys, acts: seq<Race.Action>)
    requires Race.Inv(env, s) && RecordsOk(s)
    ensures RecordsOk(Race.Run(env, s, acts))
    decreases |acts|
  {
    if acts != [] {
      Race.StepIsKept(env, s, acts[0]);
      StepKeepsRecords(env, s, acts[0]);
      RunKeepsRecords(env, Race.Next(env, s, acts[0]), acts[1..]);
    }
  }

  // ---------------------------------------------------------------------------------------------
  // Main results
  // ---------------------------------------------------------------------------------------------

  /** Over every interleaving: an APPROVED approval has been released, or a running call has won its claim and still owes the
      release; a REJECTED one has been announced as rejected, or a running call still owes that. */
  lemma StatusHasOutcome(env: Env, s0: Race.Sys, acts: seq<Race.Action>, id: Id)
    requires Race.Initial(s0) && id in Race.Run(env, s0, acts).db.approvals
    ensures var s := Race.Run(env, s0, acts);
      && (s.db.approvals[id].status == Approved ==>
            (exists r :: r in s.releases && r.approval == id) || (exists p :: p in s.procs && p.Releasing? && p.id == id))
      && (s.db.approvals[id].status == Rejected ==>
            (exists e :: e in s.db.events && IsRejection(e.content, id)) || (exists p :: p in s.procs && p.Rejecting? && p.id == id))
  {
    Race.InitialIsInv(env, s0);
    RunKeepsRecords(env, s0, acts);
    var s := Race.Run(env, s0, acts);
    assert RecordOk(s, id);
    if k :| 0 <= k < |s.releases| && s.releases[k].approval == id { assert s.releases[k] in s.releases; }
    if k :| 0 <= k < |s.db.events| && IsRejection(s.db.events[k].content, id) { assert s.db.events[k] in s.db.events; }
    if i :| 0 <= i < |s.procs| && Rejects(s.procs[i], id) { assert s.procs[i] in s.procs; }
    if i :| 0 <= i < |s.procs| && Releases(s.procs[i], id) { assert s.procs[i] in s.procs; }
  }

  /** Over every interleaving: an approval that was announced as rejected is REJECTED, EXPIRED or INVALIDATED, never APPROVED;
      one whose event was released is APPROVED, EXPIRED or INVALIDATED, never REJECTED. */
  lemma OutcomeHasStatus(env: Env, s0: Race.Sys, acts: seq<Race.Action>, id: Id)
    requires Race.Initial(s0)
    ensures var s := Race.Run(env, s0, acts);
      && ((exists e :: e in s.db.events && IsRejection(e.content, id)) ==>
            id in s.db.approvals && s.db.approvals[id].status in {Rejected, Expired, Invalidated})
      && ((exists r :: r in s.releases && r.approval == id) ==>
            id in s.db.approvals && s.db.approvals[id].status in {Approved, Expired, Invalidated})
  {
    Race.InitialIsInv(env, s0);
    Race.RunIsKept(env, s0, acts);
    RunKeepsRecords(env, s0, acts);
    var s := Race.Run(env, s0, acts);
    if id in s.db.approvals { assert RecordOk(s, id); } else { NothingOfUnknown(env, s, id); }
    if e :| e in s.db.events && IsRejection(e.content, id) {
      var k :| 0 <= k < |s.db.events| && s.db.events[k] == e;
      assert RejectionSaid(s, id);
    }
    if r :| r in s.releases && r.approval == id {
      var k :| 0 <= k < |s.releases| && s.releases[k] == r;
      assert WasReleased(s, id);
    }
  }
}
