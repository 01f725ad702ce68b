/** What can still happen to a room and its approvals while calls overlap: exactly when an agent event can still appear, and
    exactly when a decided approval can still change its status. */
module LateWrites {
  import opened Events
  import opened Policy
  import opened RoomData
  import opened ApprovalRace
  import Spec = RoomSpec

  // ---------------------------------------------------------------------------------------------
  // Which step appends an agent event
  // ---------------------------------------------------------------------------------------------

  /** Some event of `later` after those of `earlier` was sent by an agent. */
  predicate Speaks(earlier: seq<Event>, later: seq<Event>) {
    exists k :: |earlier| <= k < |later| && later[k].sender.Some?
  }

  lemma MoveSpeaks(env: Env, db: Db, p: Proc, now: int)
    ensures var db' := Move(env, db, p, now).0; db.events <= db'.events && (Speaks(db.events, db'.events) <==> p.Releasing?)
  {
    var db' := Move(env, db, p, now).0;
    if p.Releasing? {
      assert db'.events[|db.events|].sender.Some?;
    } else if p.Finishing? {
      var e := SideEffectsArePlain(db, p.stale.requestedBy, p.stale.body);
    }
  }

  /** Neither holds a new approval nor lets an agent speak directly. */
  predicate IsSilent(act: Action) { !act.Create? && !act.Say? }

  predicate Silent(acts: seq<Action>) { forall act :: act in acts ==> IsSilent(act) }

  predicate MovesReleasing(s: Sys, act: Action) { act.Act? && act.i < |s.procs| && s.procs[act.i].Releasing? }

  /** Of the steps of decisions and closings, exactly that of a call that has won its claim and comes to release appends an
      agent event, in whatever state the room is. */
  lemma AgentEventIff(env: Env, s: Sys, act: Action)
    requires IsSilent(act)
    ensures s.db.events <= Next(env, s, act).db.events
    ensures Speaks(s.db.events, Next(env, s, act).db.events) <==> MovesReleasing(s, act)
  {
    if act.Act? && act.i < |s.procs| { MoveSpeaks(env, s.db, s.procs[act.i], s.clock + act.wait); }
  }

  // ---------------------------------------------------------------------------------------------
  // Pending approvals
  // ---------------------------------------------------------------------------------------------

  predicate IsPending(db: Db, id: Id) { id in db.approvals && db.approvals[id].status == Pending }

  predicate NonePending(db: Db) { forall id :: id in db.approvals ==> !IsPending(db, id) }

  /** A pending approval of `db'` was already pending, and is the same. */
  predicate NoNewPending(db: Db, db': Db) {
    forall id :: id in db'.approvals && IsPending(db', id) ==> IsPending(db, id) && db'.approvals[id] == db.approvals[id]
  }

  lemma MovePending(env: Env, db: Db, p: Proc, now: int)
    requires p.Claiming? ==> p.to != Pending
    ensures NoNewPending(db, Move(env, db, p, now).0)
  {
    if p.Finishing? { var e := SideEffectsArePlain(db, p.stale.requestedBy, p.stale.body); }
  }

  lemma ActMoves(env: Env, s: Sys, i: nat, wait: nat)
    requires i < |s.procs|
    ensures Next(env, s, Act(i, wait)).db == Move(env, s.db, s.procs[i], s.clock + wait).0
    ensures Next(env, s, Act(i, wait)).procs == s.procs[i := Move(env, s.db, s.procs[i], s.clock + wait).1]
  {
  }

  lemma ActPending(env: Env, s: Sys, i: nat, wait: nat)
    requires i < |s.procs| && ProcOk(env, s, s.procs[i])
    ensures NoNewPending(s.db, Next(env, s, Act(i, wait)).db)
  {
    ActMoves(env, s, i, wait);
    MovePending(env, s.db, s.procs[i], s.clock + wait);
  }

  lemma StepPending(env: Env, s: Sys, act: Action)
    requires Inv(env, s) && !act.Create?
    ensures NoNewPending(s.db, Next(env, s, act).db)
  {
    if act.Act? && act.i < |s.procs| {
      ActPending(env, s, act.i, act.wait);
    } else {
      assert Next(env, s, act).db.approvals == s.db.approvals;
    }
  }

  // ---------------------------------------------------------------------------------------------
  // When nothing is pending any more
  // ---------------------------------------------------------------------------------------------

  /** With nothing pending no call comes to release, and those that do have one step to make. */
  lemma NoNewReleasing(env: Env, s: Sys, act: Action)
    requires NonePending(s.db) && IsSilent(act)
    ensures var s' := Next(env, s, act);
      && |s.procs| <= |s'.procs|
      && (forall i :: 0 <= i < |s.procs| && !MovesReleasing(s, act) ==> (s'.procs[i].Releasing? <==> s.procs[i].Releasing?))
      && (forall i :: |s.procs| <= i < |s'.procs| ==> !s'.procs[i].Releasing?)
  {
  }

  predicate ReleasesIn(s: Sys, acts: seq<Action>) { exists j :: 0 <= j < |acts| && MovesReleasing(s, acts[j]) }

  lemma SameReleasesLater(s: Sys, s': Sys, acts: seq<Action>)
    requires acts != [] && |s.procs| <= |s'.procs| && !MovesReleasing(s, acts[0])
    requires forall i :: 0 <= i < |s.procs| ==> (s'.procs[i].Releasing? <==> s.procs[i].Releasing?)
    requires forall i :: |s.procs| <= i < |s'.procs| ==> !s'.procs[i].Releasing?
    ensures ReleasesIn(s, acts) <==> ReleasesIn(s', acts[1..])
  {
    if ReleasesIn(s, acts) {
      var j :| 0 <= j < |acts| && MovesReleasing(s, acts[j]);
      assert acts[1..][j - 1] == acts[j] && MovesReleasing(s', acts[1..][j - 1]);
    }
    if ReleasesIn(s', acts[1..]) {
      var j :| 0 <= j < |acts[1..]| && MovesReleasing(s', acts[1..][j]);
      assert MovesReleasing(s, acts[j + 1]);
    }
  }

  lemma SpeaksOnceMore(a: seq<Event>, b: seq<Event>, c: seq<Event>)
    requires a <= b <= c
    ensures Speaks(a, c) <==> Speaks(a, b) || Speaks(b, c)
  {
    if Speaks(a, b) {
      var k :| |a| <= k < |b| && b[k].sender.Some?;
      assert c[k].sender.Some?;
    }
  }

  /** Once nothing is pending and nothing new is held: over every continuation of decisions and closings, an agent event is
      appended exactly if a call that has already come to release makes its step. */
  lemma {:induction false} LateReleasesIff(env: Env, s: Sys, acts: seq<Action>)
    requires Inv(env, s) && NonePending(s.db) && Silent(acts)
    ensures Speaks(s.db.events, Run(env, s, acts).db.events) <==> ReleasesIn(s, acts)
    decreases |acts|
  {
    if acts != [] {
      var s' := Next(env, s, acts[0]);
      StepIsKept(env, s, acts[0]);
      AgentEventIff(env, s, acts[0]);
      RunIsKept(env, s', acts[1..]);
      SpeaksOnceMore(s.db.events, s'.db.events, Run(env, s', acts[1..]).db.events);
      if !MovesReleasing(s, acts[0]) {
        NoNewReleasing(env, s, acts[0]);
        StepPending(env, s, acts[0]);
        LateReleasesIff(env, s', acts[1..]);
        SameReleasesLater(s, s', acts);
      }
    }
  }

  // ---------------------------------------------------------------------------------------------
  // Closing leaves nothing pending
  // ---------------------------------------------------------------------------------------------

  /** A closing call that has yet to list, still has all that is pending to void, or has left nothing. */
  predicate OnCourse(s: Sys, i: nat) {
    && i < |s.procs|
    && match s.procs[i]
       case Listing => true
       case Voiding(todo) => forall id :: id in s.db.approvals && IsPending(s.db, id) ==> exists x :: x in todo && x.0 == id
       case Done => NonePending(s.db)
       case _ => false
  }

  lemma ClosingMoves(env: Env, s: Sys, i: nat, wait: nat)
    requires Inv(env, s) && OnCourse(s, i)
    ensures OnCourse(Next(env, s, Act(i, wait)), i)
  {
    var s' := Next(env, s, Act(i, wait));
    match s.procs[i]
    case Listing =>
      forall id | id in s'.db.approvals && IsPending(s'.db, id) ensures exists x :: x in s'.procs[i].todo && x.0 == id {
        assert (id, s.db.approvals[id]) in s'.procs[i].todo;
      }
    case Voiding(todo) =>
      if todo != [] {
        forall id | id in s'.db.approvals && IsPending(s'.db, id) ensures exists x :: x in todo[1..] && x.0 == id {
          assert id != todo[0].0 && IsPending(s.db, id);
          var x :| x in todo && x.0 == id;
          assert x in todo[1..];
        }
      }
    case Done =>
  }

  lemma ClosingStays(env: Env, s: Sys, i: nat, act: Action)
    requires Inv(env, s) && OnCourse(s, i) && !act.Create?
    ensures OnCourse(Next(env, s, act), i)
  {
    if act.Act? && act.i == i { ClosingMoves(env, s, i, act.wait); } else { StepPending(env, s, act); }
  }

  /** A closing call that runs from its list to its end leaves nothing pending, unless something new is held meanwhile. */
  lemma {:induction false} ClosingSettles(env: Env, s: Sys, i: nat, acts: seq<Action>)
    requires Inv(env, s) && OnCourse(s, i) && forall act :: act in acts ==> !act.Create?
    ensures OnCourse(Run(env, s, acts), i)
    ensures HasEnded(Run(env, s, acts), i) ==> NonePending(Run(env, s, acts).db)
    decreases |acts|
  {
    if acts != [] {
      StepIsKept(env, s, acts[0]);
      ClosingStays(env, s, i, acts[0]);
      ClosingSettles(env, Next(env, s, acts[0]), i, acts[1..]);
    }
  }

  predicate HasEnded(s: Sys, i: nat) { i < |s.procs| && s.procs[i].Done? }

  /** A room that is being closed: after the closing call has ended, with nothing new held, an agent event is appended
      exactly if a call that had come to release by then makes its step. */
  lemma AfterClosingIff(env: Env, s: Sys, i: nat, acts: seq<Action>, more: seq<Action>)
    requires Inv(env, s) && i < |s.procs| && s.procs[i].Listing? && forall act :: act in acts ==> !act.Create?
    requires HasEnded(Run(env, s, acts), i) && Silent(more)
    ensures var closed := Run(env, s, acts);
      Speaks(closed.db.events, Run(env, closed, more).db.events) <==> ReleasesIn(closed, more)
  {
    RunIsKept(env, s, acts);
    ClosingSettles(env, s, i, acts);
    LateReleasesIff(env, Run(env, s, acts), more);
  }

  // ---------------------------------------------------------------------------------------------
  // When an agent event can still appear
  // ---------------------------------------------------------------------------------------------

  /** A decision to approve that has passed its checks, and whose claim would still be won. */
  predicate IsWinning(s: Sys, p: Proc) { p.Claiming? && p.to == Approved && IsPending(s.db, p.id) }

  /** A call has come to release, or will win its claim, or a human can still approve. */
  predicate CanRelease(env: Env, s: Sys) {
    || (exists i :: 0 <= i < |s.procs| && (s.procs[i].Releasing? || IsWinning(s, s.procs[i])))
    || (exists id :: id in s.db.approvals && CanBeApproved(env, s, id))
  }

  /** Coming to release takes a claim that is won. */
  lemma ReleasingIsNew(env: Env, s: Sys, act: Action, i: nat)
    requires IsSilent(act) && i < |Next(env, s, act).procs| && Next(env, s, act).procs[i].Releasing?
    ensures CanRelease(env, s)
  {
    assert i < |s.procs| && (s.procs[i].Releasing? || IsWinning(s, s.procs[i]));
  }

  /** Passing the checks takes an approval that can be approved. */
  lemma WinningIsNew(env: Env, s: Sys, act: Action, i: nat)
    requires Inv(env, s) && IsSilent(act)
    requires i < |Next(env, s, act).procs| && IsWinning(Next(env, s, act), Next(env, s, act).procs[i])
    ensures CanRelease(env, s)
  {
    StepPending(env, s, act);
    if s.procs[i].Checking? {
      var id := s.procs[i].id;
      assert ProcOk(env, s, s.procs[i]) && KnownCopy(s, id, s.db.approvals[id]);
      assert CanBeApproved(env, s, id);
    } else {
      assert IsWinning(s, s.procs[i]);
    }
  }

  lemma ApprovableIsOld(env: Env, s: Sys, act: Action, id: Id)
    requires Inv(env, s) && IsSilent(act) && CanBeApproved(env, Next(env, s, act), id)
    ensures CanBeApproved(env, s, id)
  {
    StepIsKept(env, s, act);
    StepPending(env, s, act);
  }

  /** Whatever can be released after a step could be before. */
  lemma CouldReleaseBefore(env: Env, s: Sys, act: Action)
    requires Inv(env, s) && IsSilent(act) && (CanRelease(env, Next(env, s, act)) || MovesReleasing(s, act))
    ensures CanRelease(env, s)
  {
    var s' := Next(env, s, act);
    if MovesReleasing(s, act) {
    } else if i :| 0 <= i < |s'.procs| && (s'.procs[i].Releasing? || IsWinning(s', s'.procs[i])) {
      if s'.procs[i].Releasing? { ReleasingIsNew(env, s, act, i); } else { WinningIsNew(env, s, act, i); }
    } else {
      var id :| id in s'.db.approvals && CanBeApproved(env, s', id);
      ApprovableIsOld(env, s, act, id);
    }
  }

  lemma {:induction false} SilenceStays(env: Env, s: Sys, acts: seq<Action>)
    requires Inv(env, s) && Silent(acts) && !CanRelease(env, s)
    ensures !Speaks(s.db.events, Run(env, s, acts).db.events)
    decreases |acts|
  {
    if acts != [] {
      var s' := Next(env, s, acts[0]);
      StepIsKept(env, s, acts[0]);
      if CanRelease(env, s') || MovesReleasing(s, acts[0]) { CouldReleaseBefore(env, s, acts[0]); }
      AgentEventIff(env, s, acts[0]);
      RunIsKept(env, s', acts[1..]);
      SilenceStays(env, s', acts[1..]);
      SpeaksOnceMore(s.db.events, s'.db.events, Run(env, s', acts[1..]).db.events);
    }
  }

  /** One more step of call `n`, after a wait. */
  lemma CallMoves(env: Env, s: Sys, sofar: seq<Action>, before: Sys, n: nat, wait: nat) returns (acts: seq<Action>, after: Sys)
    requires before == Run(env, s, sofar) && n < |before.procs| && Silent(sofar)
    ensures after == Run(env, s, acts) && Silent(acts) && acts == sofar + [Act(n, wait)] && after.clock == before.clock + wait
    ensures |after.procs| == |before.procs| && after.procs[n] == Move(env, before.db, before.procs[n], after.clock).1
    ensures after.db == Move(env, before.db, before.procs[n], after.clock).0
    ensures forall j :: 0 <= j < |before.procs| && j != n ==> after.procs[j] == before.procs[j]
    ensures before.procs[n].Releasing? ==> after.releases == before.releases + [Release(before.procs[n].id, before.db.nextId)]
  {
    acts, after := Extend(env, s, sofar, before, Act(n, wait));
    assert acts == sofar + [Act(n, wait)];
  }

  lemma ApprovalComes(env: Env, s: Sys, id: Id, user: UserId) returns (acts: seq<Action>, n: nat)
    requires CanBeApproved(env, s, id)
    ensures Silent(acts) && n == |s.procs|
    ensures var after := Run(env, s, acts);
      && |after.procs| == n + 1 && after.procs[n] == Releasing(id, s.db.approvals[id])
      && after.db == Spec.Decided(s.db, id, Approved, user, s.clock)
      && forall j :: 0 <= j < n ==> after.procs[j] == s.procs[j]
  {
    var a, now := s.db.approvals[id], s;
    n := |s.procs|;
    acts, now := Extend(env, s, [], s, Spawn(Start(id, true, user)));
    assert acts == [Spawn(Start(id, true, user))];
    acts, now := CallMoves(env, s, acts, now, n, 0);
    assert now.procs[n] == Checking(id, a, true, user) && now.db == s.db;
    acts, now := CallMoves(env, s, acts, now, n, 0);
    assert now.procs[n] == Claiming(id, a, Approved, user) && now.db == s.db;
    acts, now := CallMoves(env, s, acts, now, n, 0);
  }

  /** Some call comes to release. */
  lemma ReleaseComes(env: Env, s: Sys) returns (acts: seq<Action>, n: nat)
    requires CanRelease(env, s)
    ensures Silent(acts) && n < |Run(env, s, acts).procs| && Run(env, s, acts).procs[n].Releasing?
    ensures s.db.events <= Run(env, s, acts).db.events
  {
    if i: nat :| i < |s.procs| && (s.procs[i].Releasing? || IsWinning(s, s.procs[i])) {
      acts, n := [], i;
      if IsWinning(s, s.procs[i]) {
        var after := s;
        acts, after := CallMoves(env, s, acts, s, n, 0);
      }
    } else {
      var id :| id in s.db.approvals && CanBeApproved(env, s, id);
      acts, n := ApprovalComes(env, s, id, "");
    }
  }

  lemma ReleaseFollows(env: Env, s: Sys) returns (acts: seq<Action>)
    requires CanRelease(env, s)
    ensures Silent(acts) && Speaks(s.db.events, Run(env, s, acts).db.events)
  {
    var n: nat;
    acts, n := ReleaseComes(env, s);
    var before, after := Run(env, s, acts), s;
    acts, after := CallMoves(env, s, acts, before, n, 0);
    MoveSpeaks(env, before.db, before.procs[n], after.clock);
    SpeaksOnceMore(s.db.events, before.db.events, after.db.events);
  }

  /** From any reachable state, CLOSED or not: some continuation of decisions and closings appends an agent event exactly if
      a call has come to release, or has passed its checks on an approval that is still pending, or an approval is pending
      and not past its expiry that a human can approve. */
  lemma AgentEventPossibleIff(env: Env, s: Sys)
    requires Inv(env, s)
    ensures (exists acts :: Silent(acts) && Speaks(s.db.events, Run(env, s, acts).db.events)) <==> CanRelease(env, s)
  {
    forall acts | !CanRelease(env, s) && Silent(acts) ensures !Speaks(s.db.events, Run(env, s, acts).db.events) {
      SilenceStays(env, s, acts);
    }
    if CanRelease(env, s) { var acts := ReleaseFollows(env, s); }
  }

  // ---------------------------------------------------------------------------------------------
  // When a decided approval changes its status
  // ---------------------------------------------------------------------------------------------

  function StatusOf(s: Sys, id: Id): Status
    requires id in s.db.approvals
  {
    s.db.approvals[id].status
  }

  /** The next step of the call stores another status over a decided one: EXPIRED, or INVALIDATED when closing. */
  predicate Overwrites(p: Proc, id: Id, status: Status) {
    || (p.Expiring? && p.id == id && status != Expired)
    || (p.Voiding? && p.todo != [] && p.todo[0].0 == id && status != Invalidated)
  }

  predicate WritesApprovals(p: Proc) { p.Expiring? || p.Voiding? || p.Claiming? }

  lemma OthersLeaveApprovals(env: Env, db: Db, p: Proc, now: int)
    requires !WritesApprovals(p)
    ensures Move(env, db, p, now).0.approvals == db.approvals
  {
    if p.Finishing? { var e := SideEffectsArePlain(db, p.stale.requestedBy, p.stale.body); }
  }

  /** The status of an approval after a step of the call. */
  predicate StatusAfter(db: Db, db': Db, p: Proc, id: Id)
    requires id in db.approvals
  {
    && id in db'.approvals
    && (db'.approvals[id].status != db.approvals[id].status <==> Overwrites(p, id, db.approvals[id].status))
    && (Overwrites(p, id, db.approvals[id].status) ==> db'.approvals[id].status == if p.Expiring? then Expired else Invalidated)
  }

  lemma StaleWriteOverwrites(env: Env, db: Db, p: Proc, now: int, id: Id)
    requires id in db.approvals && (p.Expiring? || p.Voiding?)
    ensures StatusAfter(db, Move(env, db, p, now).0, p, id)
  {
  }

  lemma ClaimLeavesDecided(env: Env, db: Db, p: Proc, now: int, id: Id)
    requires id in db.approvals && db.approvals[id].status != Pending && p.Claiming?
    ensures var db' := Move(env, db, p, now).0; id in db'.approvals && db'.approvals[id] == db.approvals[id]
  {
  }

  lemma MoveOverwrites(env: Env, db: Db, p: Proc, now: int, id: Id)
    requires id in db.approvals && db.approvals[id].status != Pending
    ensures StatusAfter(db, Move(env, db, p, now).0, p, id)
  {
    if !WritesApprovals(p) { OthersLeaveApprovals(env, db, p, now); }
    else if p.Claiming? { ClaimLeavesDecided(env, db, p, now, id); }
    else { StaleWriteOverwrites(env, db, p, now, id); }
  }

  predicate StepOverwrites(s: Sys, act: Action, id: Id)
    requires id in s.db.approvals
  {
    act.Act? && act.i < |s.procs| && Overwrites(s.procs[act.i], id, StatusOf(s, id))
  }

  lemma ActOverwrites(env: Env, s: Sys, i: nat, wait: nat, id: Id)
    requires i < |s.procs| && Settled(s, id)
    ensures StatusAfter(s.db, Next(env, s, Act(i, wait)).db, s.procs[i], id)
  {
    ActMoves(env, s, i, wait);
    MoveOverwrites(env, s.db, s.procs[i], s.clock + wait, id);
  }

  lemma OthersKeepStatus(env: Env, s: Sys, act: Action, id: Id)
    requires ApprovalsOk(s) && Settled(s, id) && (!act.Act? || act.i >= |s.procs|)
    ensures id in Next(env, s, act).db.approvals && StatusOf(Next(env, s, act), id) == StatusOf(s, id)
  {
  }

  /** A step changes the status of a decided approval exactly if it is the stale write of a call that found its copy expired,
      or of a closing call that had listed it as pending. */
  lemma StatusChangesIff(env: Env, s: Sys, act: Action, id: Id)
    requires Inv(env, s) && Settled(s, id)
    ensures Settled(Next(env, s, act), id)
    ensures StatusOf(Next(env, s, act), id) != StatusOf(s, id) <==> StepOverwrites(s, act, id)
    ensures StepOverwrites(s, act, id) ==> StatusOf(Next(env, s, act), id) == Expired || StatusOf(Next(env, s, act), id) == Invalidated
  {
    if act.Act? && act.i < |s.procs| { ActOverwrites(env, s, act.i, act.wait, id); } else { OthersKeepStatus(env, s, act, id); }
  }

  /** Over every run a decided approval keeps its status or ends EXPIRED or INVALIDATED. */
  lemma {:induction false} DecidedEndsAs(env: Env, s: Sys, acts: seq<Action>, id: Id)
    requires Inv(env, s) && Settled(s, id)
    ensures Settled(Run(env, s, acts), id)
    ensures StatusOf(Run(env, s, acts), id) == StatusOf(s, id)
      || StatusOf(Run(env, s, acts), id) == Expired || StatusOf(Run(env, s, acts), id) == Invalidated
    decreases |acts|
  {
    if acts != [] {
      StepIsKept(env, s, acts[0]);
      StatusChangesIff(env, s, acts[0], id);
      DecidedEndsAs(env, Next(env, s, acts[0]), acts[1..], id);
    }
  }

  // ---------------------------------------------------------------------------------------------
  // When it can still change
  // ---------------------------------------------------------------------------------------------

  /** A call that may store EXPIRED over the approval: it holds a copy of when it was pending. */
  predicate MayExpire(p: Proc, id: Id) {
    (p.Expiring? && p.id == id) || (p.Checking? && p.id == id && p.stale.status == Pending)
  }

  /** A closing call that has the approval on its list. */
  predicate MayVoid(p: Proc, id: Id) { p.Voiding? && exists x :: x in p.todo && x.0 == id }

  predicate MayChange(p: Proc, id: Id, status: Status) {
    (MayExpire(p, id) && status != Expired) || (MayVoid(p, id) && status != Invalidated)
  }

  predicate CanChange(s: Sys, id: Id)
    requires id in s.db.approvals
  {
    exists i :: 0 <= i < |s.procs| && MayChange(s.procs[i], id, StatusOf(s, id))
  }

  /** No call takes up a pending copy of an approval that is decided. */
  lemma MayChangeIsOld(env: Env, db: Db, p: Proc, now: int, id: Id, status: Status)
    requires id in db.approvals && db.approvals[id].status != Pending && MayChange(Move(env, db, p, now).1, id, status)
    ensures MayChange(p, id, status)
  {
    var p' := Move(env, db, p, now).1;
    if MayVoid(p', id) {
      var x :| x in p'.todo && x.0 == id;
      if p.Voiding? { assert x in p.todo; }
    }
  }

  lemma CallMayChangeBefore(env: Env, s: Sys, act: Action, id: Id, i: nat)
    requires Settled(s, id) && i < |Next(env, s, act).procs| && MayChange(Next(env, s, act).procs[i], id, StatusOf(s, id))
    ensures i < |s.procs| && MayChange(s.procs[i], id, StatusOf(s, id))
  {
    if act.Act? && act.i < |s.procs| {
      ActMoves(env, s, act.i, act.wait);
      if act.i == i { MayChangeIsOld(env, s.db, s.procs[i], s.clock + act.wait, id, StatusOf(s, id)); }
    }
  }

  lemma CouldChangeBefore(env: Env, s: Sys, act: Action, id: Id)
    requires Settled(s, id) && Settled(Next(env, s, act), id)
    requires StatusOf(Next(env, s, act), id) == StatusOf(s, id) && CanChange(Next(env, s, act), id)
    ensures CanChange(s, id)
  {
    var i: nat :| i < |Next(env, s, act).procs| && MayChange(Next(env, s, act).procs[i], id, StatusOf(s, id));
    CallMayChangeBefore(env, s, act, id, i);
  }

  lemma OverwriterMayChange(s: Sys, act: Action, id: Id)
    requires id in s.db.approvals && StepOverwrites(s, act, id)
    ensures CanChange(s, id)
  {
    var p := s.procs[act.i];
    if p.Voiding? { assert p.todo[0] in p.todo; }
    assert MayChange(p, id, StatusOf(s, id));
  }

  lemma {:induction false} StatusStays(env: Env, s: Sys, acts: seq<Action>, id: Id)
    requires Inv(env, s) && Settled(s, id) && !CanChange(s, id)
    ensures Settled(Run(env, s, acts), id) && StatusOf(Run(env, s, acts), id) == StatusOf(s, id)
    decreases |acts|
  {
    if acts != [] {
      var s' := Next(env, s, acts[0]);
      StepIsKept(env, s, acts[0]);
      StatusChangesIff(env, s, acts[0], id);
      if StepOverwrites(s, acts[0], id) { OverwriterMayChange(s, acts[0], id); }
      if CanChange(s', id) { CouldChangeBefore(env, s, acts[0], id); }
      StatusStays(env, s', acts[1..], id);
    }
  }

  /** A copy of when the approval was pending can still be written as EXPIRED. */
  lemma ExpiryFollows(env: Env, s: Sys, id: Id, i: nat) returns (acts: seq<Action>)
    requires Inv(env, s) && Settled(s, id) && i < |s.procs| && MayExpire(s.procs[i], id)
    ensures HasStatus(Run(env, s, acts), id, Expired)
  {
    var now := s;
    acts := [];
    if s.procs[i].Checking? {
      var late := s.procs[i].stale.expiresAt + 1 - s.clock;
      acts, now := CallMoves(env, s, acts, now, i, if late > 0 then late else 0);
      assert now.procs[i] == Expiring(id, s.procs[i].stale);
    }
    acts, now := CallMoves(env, s, acts, now, i, 0);
  }

  /** An approval on the list of a closing call can still be written as INVALIDATED. */
  lemma {:induction false} VoidingFollows(env: Env, s: Sys, id: Id, i: nat) returns (acts: seq<Action>)
    requires Inv(env, s) && Settled(s, id) && i < |s.procs| && MayVoid(s.procs[i], id)
    ensures HasStatus(Run(env, s, acts), id, Invalidated)
    decreases if i < |s.procs| && s.procs[i].Voiding? then |s.procs[i].todo| else 0
  {
    var todo := s.procs[i].todo;
    var step := Act(i, 0);
    var s' := Next(env, s, step);
    if todo[0].0 == id {
      acts := [step];
      assert acts[1..] == [];
      assert Run(env, s, acts) == Run(env, s', []);
    } else {
      var x :| x in todo && x.0 == id;
      assert x in todo[1..];
      StepIsKept(env, s, step);
      var more := VoidingFollows(env, s', id, i);
      acts := [step] + more;
      assert acts[1..] == more;
    }
  }

  lemma ChangeFollows(env: Env, s: Sys, id: Id) returns (acts: seq<Action>)
    requires Inv(env, s) && Settled(s, id) && CanChange(s, id)
    ensures id in Run(env, s, acts).db.approvals && StatusOf(Run(env, s, acts), id) != StatusOf(s, id)
  {
    var i: nat :| i < |s.procs| && MayChange(s.procs[i], id, StatusOf(s, id));
    if MayExpire(s.procs[i], id) && StatusOf(s, id) != Expired {
      acts := ExpiryFollows(env, s, id, i);
    } else {
      acts := VoidingFollows(env, s, id, i);
    }
  }

  predicate ChangesTo(s: Sys, s': Sys, id: Id) {
    id in s.db.approvals && id in s'.db.approvals && s'.db.approvals[id].status != s.db.approvals[id].status
  }

  /** From any reachable state: some continuation changes the status of a decided approval exactly if a running decision still
      holds a copy of when it was pending, or a running closing call still has it on its list, and would store another
      status. */
  lemma StatusCanChangeIff(env: Env, s: Sys, id: Id)
    requires Inv(env, s) && Settled(s, id)
    ensures (exists acts :: ChangesTo(s, Run(env, s, acts), id)) <==> CanChange(s, id)
  {
    forall acts | !CanChange(s, id) ensures !ChangesTo(s, Run(env, s, acts), id) { StatusStays(env, s, acts, id); }
    if CanChange(s, id) { var acts := ChangeFollows(env, s, id); }
  }

  // ---------------------------------------------------------------------------------------------
  // The other overlap
  // ---------------------------------------------------------------------------------------------

  lemma CloserStarts(env: Env, s: Sys) returns (acts: seq<Action>, now: Sys)
    requires s.procs == []
    ensures Silent(acts) && now == Run(env, s, acts) && now.procs == [Canceling] && now.db == s.db && now.clock == s.clock
  {
    acts, now := Extend(env, s, [], s, Spawn(Canceling));
    assert acts == [Spawn(Canceling)];
  }

  lemma CloserComes(env: Env, s: Sys) returns (acts: seq<Action>, now: Sys)
    requires s.procs == []
    requires Spec.ClosesDirectly(s.db.room.state) || CanTransition(s.db.room.state, Canceled)
    ensures Silent(acts) && now == Run(env, s, acts) && now.procs == [Listing] && now.clock == s.clock
    ensures now.db.approvals == s.db.approvals && now.db.participants == s.db.participants
  {
    acts, now := CloserStarts(env, s);
    acts, now := CallMoves(env, s, acts, now, 0, 0);
    acts, now := CallMoves(env, s, acts, now, 0, 0);
  }

  /** The room is being closed: the approval is on the list, and still pending. */
  lemma ListedWhilePending(env: Env, s: Sys, id: Id) returns (acts: seq<Action>, now: Sys)
    requires Inv(env, s) && s.procs == [] && IsPending(s.db, id)
    requires Spec.ClosesDirectly(s.db.room.state) || CanTransition(s.db.room.state, Canceled)
    ensures Silent(acts) && now == Run(env, s, acts) && |now.procs| == 1 && MayVoid(now.procs[0], id)
    ensures now.clock == s.clock
    ensures now.db.approvals == s.db.approvals && now.db.participants == s.db.participants
  {
    acts, now := CloserComes(env, s);
    RunIsKept(env, s, acts);
    assert (id, s.db.approvals[id]) in PendingOf(now.db.approvals, now.db.nextId);
    acts, now := CallMoves(env, s, acts, now, 0, 0);
  }

  /** The second way in which an approved and released approval changes: while a closing call has it on its list, a human
      approves it and its event is released, and then the closing call marks it INVALIDATED. */
  lemma ApprovedBecomesInvalidated(env: Env, s: Sys, id: Id, user: UserId)
    returns (closing: seq<Action>, approving: seq<Action>, voiding: seq<Action>)
    requires Inv(env, s) && s.procs == [] && CanBeApproved(env, s, id)
    requires Spec.ClosesDirectly(s.db.room.state) || CanTransition(s.db.room.state, Canceled)
    ensures var approved := Run(env, Run(env, s, closing), approving);
      && HasStatus(approved, id, Approved) && (exists r :: r in approved.releases && r.approval == id)
      && HasStatus(Run(env, approved, voiding), id, Invalidated)
  {
    var listed, n, approved := s, 0, s;
    closing, listed := ListedWhilePending(env, s, id);
    approving, n := ApprovalComes(env, listed, id, user);
    var won := Run(env, listed, approving);
    approving, approved := CallMoves(env, listed, approving, won, n, 0);
    assert HasStatus(approved, id, Approved) && Release(id, won.db.nextId) in approved.releases;
    RunIsKept(env, s, closing);
    RunIsKept(env, listed, approving);
    voiding := VoidingFollows(env, approved, id, 0);
  }
}
