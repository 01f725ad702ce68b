/** Any number of approval decisions and of closings of the room, beside ordinary traffic, interleaved between single
    store calls (packages/core/src/approvals.ts, packages/core/src/rooms.ts, packages/database/src/memory.ts). */
module ApprovalRace {
  import opened Wrappers
  import opened Policy
  import opened Events
  import opened RoomData
  import opened RoomSpec

  /** What a running call does next. `stale` is the copy of the approval that it read at its start. */
  datatype Proc =
    | Start(id: Id, approve: bool, user: UserId)
    | Checking(id: Id, stale: Approval, approve: bool, user: UserId)
    | Expiring(id: Id, stale: Approval)
    | Claiming(id: Id, stale: Approval, to: Status, user: UserId)
    | Rejecting(id: Id, stale: Approval)
    | Releasing(id: Id, stale: Approval)
    | Authorizing(id: Id, stale: Approval, eventId: Id)
    | Finishing(stale: Approval)
    | Canceling
    | Closing
    | Listing
    | Voiding(todo: seq<(Id, Approval)>)
    | Done

  /** The pending ones of all approvals, in some order: what `closeRoom` is going to overwrite. */
  function PendingOf(approvals: map<Id, Approval>, upTo: Id): (r: seq<(Id, Approval)>)
    ensures forall x :: x in r <==> x.0 in approvals && x.0 < upTo && x.1 == approvals[x.0] && x.1.status == Pending
  {
    if upTo == 0 then []
    else
      var rest := PendingOf(approvals, upTo - 1);
      if upTo - 1 in approvals && approvals[upTo - 1].status == Pending then rest + [(upTo - 1, approvals[upTo - 1])] else rest
  }

  /** One store call of a running call, with the computation up to the next one. */
  function Move(env: Env, db: Db, p: Proc, now: int): (Db, Proc) {
    match p
    case Start(id, approve, user) => (db, if id in db.approvals then Checking(id, db.approvals[id], approve, user) else Done)
    case Checking(id, stale, approve, user) =>
      if stale.status != Pending then (db, Done)
      else if stale.expiresAt < now then (db, Expiring(id, stale))
      else if Find(db.participants, stale.requestedBy).None? then (db, Done)
      else if !approve then (db, Claiming(id, stale, Rejected, user))
      else if env.hash(stale.body) != stale.parametersHash || |env.scan(stale.body, None).secretFindings| > 0 then
        (db, Claiming(id, stale, Invalidated, user))
      else (db, Claiming(id, stale, Approved, user))
    case Expiring(id, stale) => (db.(approvals := db.approvals[id := stale.(status := Expired)]), Done)
    case Claiming(id, stale, to, user) =>
      if id !in db.approvals || db.approvals[id].status != Pending then (db, Done)
      else if to == Rejected then (Decided(db, id, Rejected, user, now), Rejecting(id, stale))
      else if to == Approved then (Decided(db, id, Approved, user, now), Releasing(id, stale))
      else (StoreStatus(db, id, to), Done)
    case Rejecting(id, stale) => (Noted(db, ActionRejected(id, ActionOf(stale.body))), Done)
    case Releasing(id, stale) =>
      (Released(db, stale.requestedBy, stale.body, env.scan(stale.body, None).classification), Authorizing(id, stale, db.nextId))
    case Authorizing(id, stale, eventId) => (Noted(db, ActionAuthorized(id, ActionOf(stale.body), eventId)), Finishing(stale))
    case Finishing(stale) => (SideEffects(db, stale.requestedBy, stale.body), Done)
    case Canceling =>
      if ClosesDirectly(db.room.state) then (db, Closing)
      else if CanTransition(db.room.state, Canceled) then (Moved(db, Canceled), Closing)
      else (db, Done)
    case Closing => (Moved(db, Closed), Listing)
    case Listing => (db, Voiding(PendingOf(db.approvals, db.nextId)))
    case Voiding(todo) =>
      if todo == [] then (db, Done)
      else (db.(approvals := db.approvals[todo[0].0 := todo[0].1.(status := Invalidated)]), Voiding(todo[1..]))
    case Done => (db, Done)
  }

  datatype Release = Release(approval: Id, event: Id)

  /** `originals` keeps every approval as it was created, `releases` lists which event was released for which approval, and
      `clock` is the time, which never goes back. */
  datatype Sys = Sys(db: Db, procs: seq<Proc>, originals: map<Id, Approval>, releases: seq<Release>, clock: int)

  /** A call starts, an approval is held, something else is said, or call `i` makes its step after a wait. */
  datatype Action =
    | Spawn(p: Proc)
    | Create(a: Approval)
    | Say(sender: Option<Id>, content: Content, labels: Classification)
    | Act(i: nat, wait: nat)

  /** The approval whose outcome the event announces. */
  function OutcomeOf(c: Content): Option<Id> {
    if c.FromPlatform? && (c.notice.ActionAuthorized? || c.notice.ActionRejected?) then Some(c.notice.approvalId) else None
  }

  function Next(env: Env, s: Sys, act: Action): Sys {
    match act
    case Spawn(p) => if p.Start? || p.Canceling? then s.(procs := s.procs + [p]) else s
    case Create(a) =>
      if a.status != Pending then s
      else
        var id := s.db.nextId;
        s.(db := s.db.(approvals := s.db.approvals[id := a], nextId := id + 1), originals := s.originals[id := a])
    case Say(sender, content, labels) => if OutcomeOf(content).None? then s.(db := Appended(s.db, sender, None, content, labels)) else s
    case Act(i, wait) =>
      if i >= |s.procs| then s
      else
        var now := s.clock + wait;
        var (db, p) := Move(env, s.db, s.procs[i], now);
        Sys(db, s.procs[i := p], s.originals,
            if s.procs[i].Releasing? then s.releases + [Release(s.procs[i].id, s.db.nextId)] else s.releases,
            now)
  }

  function Run(env: Env, s: Sys, acts: seq<Action>): Sys
    decreases |acts|
  {
    if acts == [] then s else Run(env, Next(env, s, acts[0]), acts[1..])
  }

  /** A room without approvals, in which nothing has been decided. */
  predicate Initial(s: Sys) {
    && s.db.approvals == map[] && s.procs == [] && s.originals == map[] && s.releases == []
    && forall e :: e in s.db.events ==> OutcomeOf(e.content).None?
  }

  // ---------------------------------------------------------------------------------------------
  // The invariant
  // ---------------------------------------------------------------------------------------------

  predicate KnownCopy(s: Sys, id: Id, a: Approval) {
    id in s.db.approvals && id in s.originals && SameRequest(a, s.originals[id])
  }

  predicate Settled(s: Sys, id: Id) { id in s.db.approvals && s.db.approvals[id].status != Pending }

  /** The approval for which the call has won the claim and still owes the stream the outcome. */
  function HeldBy(p: Proc): Option<Id> {
    if p.Rejecting? || p.Releasing? || p.Authorizing? then Some(p.id) else None
  }

  predicate Cleared(env: Env, a: Approval) {
    env.hash(a.body) == a.parametersHash && env.scan(a.body, None).secretFindings == []
  }

  predicate ProcOk(env: Env, s: Sys, p: Proc) {
    match p
    case Checking(id, stale, _, _) => KnownCopy(s, id, stale)
    case Expiring(id, stale) => KnownCopy(s, id, stale)
    case Claiming(id, stale, to, _) =>
      && KnownCopy(s, id, stale) && to != Pending
      && (to == Approved ==> Cleared(env, stale) && Find(s.db.participants, stale.requestedBy).Some?)
    case Rejecting(id, stale) => KnownCopy(s, id, stale) && Settled(s, id)
    case Releasing(id, stale) => KnownCopy(s, id, stale) && Settled(s, id) && Cleared(env, stale)
    case Authorizing(id, stale, eventId) => KnownCopy(s, id, stale) && Settled(s, id) && Release(id, eventId) in s.releases
    case Voiding(todo) => forall x :: x in todo ==> KnownCopy(s, x.0, x.1)
    case _ => true
  }

  predicate ApprovalsOk(s: Sys) {
    && (forall id :: id in s.db.approvals ==> id < s.db.nextId && KnownCopy(s, id, s.db.approvals[id]))
    && (forall id :: id in s.originals ==> id in s.db.approvals)
  }

  predicate ProcsOk(env: Env, s: Sys) { forall i :: 0 <= i < |s.procs| ==> ProcOk(env, s, s.procs[i]) }

  /** At most one claim holder or announced outcome per approval. */
  predicate Exclusive(procs: seq<Proc>, events: seq<Event>) {
    && (forall i, j :: 0 <= i < j < |procs| && HeldBy(procs[i]).Some? ==> HeldBy(procs[j]) != HeldBy(procs[i]))
    && (forall i, k :: 0 <= i < |procs| && 0 <= k < |events| && HeldBy(procs[i]).Some? ==> OutcomeOf(events[k].content) != HeldBy(procs[i]))
    && (forall k, l :: 0 <= k < l < |events| && OutcomeOf(events[k].content).Some? ==>
          OutcomeOf(events[l].content) != OutcomeOf(events[k].content))
  }

  /** An announced outcome is settled, and an authorization names the event released for it. */
  predicate OutcomeOk(s: Sys, c: Content) {
    && (OutcomeOf(c).Some? ==> Settled(s, OutcomeOf(c).value))
    && (c.FromPlatform? && c.notice.ActionAuthorized? ==> Release(c.notice.approvalId, c.notice.releasedEventId) in s.releases)
  }

  predicate OutcomesOk(s: Sys) { forall k :: 0 <= k < |s.db.events| ==> OutcomeOk(s, s.db.events[k].content) }

  /** The event carries the approval's body as it was held at creation, on behalf of the one who asked. */
  predicate Carries(e: Event, id: Id, original: Approval) {
    e.id == id && e.sender == Some(original.requestedBy) && e.content == FromAgent(original.body)
  }

  predicate ReleaseOk(env: Env, s: Sys, r: Release) {
    && Settled(s, r.approval) && r.approval in s.originals && Cleared(env, s.originals[r.approval])
    && exists k :: 0 <= k < |s.db.events| && Carries(s.db.events[k], r.event, s.originals[r.approval])
  }

  /** One release per approval, and none is still to come. */
  predicate ReleasesOk(env: Env, s: Sys) {
    && (forall r :: r in s.releases ==> ReleaseOk(env, s, r))
    && (forall i, j :: 0 <= i < j < |s.releases| ==> s.releases[i].approval != s.releases[j].approval)
    && (forall i, r :: 0 <= i < |s.procs| && s.procs[i].Releasing? && r in s.releases ==> r.approval != s.procs[i].id)
  }

  predicate Announces(c: Content, r: Release) {
    c.FromPlatform? && c.notice.ActionAuthorized? && c.notice.approvalId == r.approval && c.notice.releasedEventId == r.event
  }

  predicate Owes(p: Proc, r: Release) { p.Authorizing? && p.id == r.approval && p.eventId == r.event }

  /** Every release has been announced, or some call still owes the announcement. */
  predicate Accounted(s: Sys, r: Release) {
    || (exists k :: 0 <= k < |s.db.events| && Announces(s.db.events[k].content, r))
    || (exists i :: 0 <= i < |s.procs| && Owes(s.procs[i], r))
  }

  predicate AllAccounted(s: Sys) { forall r :: r in s.releases ==> Accounted(s, r) }

  predicate Inv(env: Env, s: Sys) {
    && ApprovalsOk(s) && ProcsOk(env, s) && Exclusive(s.procs, s.db.events) && OutcomesOk(s) && ReleasesOk(env, s)
    && AllAccounted(s)
  }

  // ---------------------------------------------------------------------------------------------
  // What only grows
  // ---------------------------------------------------------------------------------------------

  /** Approvals are never removed, re-requested or made pending again; participants, originals, events and releases stay,
      and time goes on. */
  predicate Grows(s: Sys, s': Sys) {
    && s.clock <= s'.clock && s.db.nextId <= s'.db.nextId && s'.db.participants == s.db.participants
    && s.db.events <= s'.db.events && s.releases <= s'.releases
    && (forall id :: id in s.db.approvals ==> id in s'.db.approvals)
    && (forall id :: id in s.db.approvals && Settled(s, id) ==> Settled(s', id))
    && (forall id :: id in s.originals ==> id in s'.originals && s'.originals[id] == s.originals[id])
  }

  lemma ProcStays(env: Env, s: Sys, s': Sys, p: Proc)
    requires Grows(s, s') && ProcOk(env, s, p)
    ensures ProcOk(env, s', p)
  {
  }

  lemma ProcsStay(env: Env, s: Sys, s': Sys, i: nat)
    requires Grows(s, s') && ProcsOk(env, s) && i < |s.procs|
    requires |s'.procs| == |s.procs| && s'.procs == s.procs[i := s'.procs[i]] && ProcOk(env, s', s'.procs[i])
    ensures ProcsOk(env, s')
  {
    forall j | 0 <= j < |s'.procs| ensures ProcOk(env, s', s'.procs[j]) {
      if j != i { ProcStays(env, s, s', s.procs[j]); }
    }
  }

  lemma OutcomesStay(s: Sys, s': Sys)
    requires Grows(s, s') && OutcomesOk(s)
    requires forall k :: |s.db.events| <= k < |s'.db.events| ==> OutcomeOk(s', s'.db.events[k].content)
    ensures OutcomesOk(s')
  {
    forall k | 0 <= k < |s'.db.events| ensures OutcomeOk(s', s'.db.events[k].content) {
      if k < |s.db.events| { assert OutcomeOk(s, s.db.events[k].content); }
    }
  }

  lemma ReleaseStays(env: Env, s: Sys, s': Sys, r: Release)
    requires Grows(s, s') && ReleaseOk(env, s, r)
    ensures ReleaseOk(env, s', r)
  {
    var k :| 0 <= k < |s.db.events| && Carries(s.db.events[k], r.event, s.originals[r.approval]);
    assert Carries(s'.db.events[k], r.event, s'.originals[r.approval]);
  }

  /** Without a new release, and without a new call about to release something released. */
  lemma ReleasesStay(env: Env, s: Sys, s': Sys)
    requires Grows(s, s') && ReleasesOk(env, s) && s'.releases == s.releases
    requires forall i, r :: 0 <= i < |s'.procs| && s'.procs[i].Releasing? && r in s.releases ==> r.approval != s'.procs[i].id
    ensures ReleasesOk(env, s')
  {
    forall r | r in s'.releases ensures ReleaseOk(env, s', r) { ReleaseStays(env, s, s', r); }
  }

  /** A call that owes nothing may move on, and one that owes may pay or keep owing. */
  lemma AccountStays(s: Sys, s': Sys, r: Release)
    requires Grows(s, s') && Accounted(s, r) && |s.procs| <= |s'.procs|
    requires forall i :: 0 <= i < |s.procs| && Owes(s.procs[i], r) ==>
      Owes(s'.procs[i], r) || exists k :: 0 <= k < |s'.db.events| && Announces(s'.db.events[k].content, r)
    ensures Accounted(s', r)
  {
    if k :| 0 <= k < |s.db.events| && Announces(s.db.events[k].content, r) {
      assert Announces(s'.db.events[k].content, r);
    }
  }

  lemma AccountsStay(s: Sys, s': Sys)
    requires Grows(s, s') && AllAccounted(s) && |s.procs| <= |s'.procs| && s'.releases == s.releases
    requires forall i :: 0 <= i < |s.procs| && s.procs[i].Authorizing? ==> s'.procs[i] == s.procs[i]
    ensures AllAccounted(s')
  {
    forall r | r in s'.releases ensures Accounted(s', r) { AccountStays(s, s', r); }
  }

  // ---------------------------------------------------------------------------------------------
  // Exclusion
  // ---------------------------------------------------------------------------------------------

  lemma HolderMoves(procs: seq<Proc>, events: seq<Event>, i: nat, p: Proc)
    requires Exclusive(procs, events) && i < |procs| && (HeldBy(p).None? || HeldBy(p) == HeldBy(procs[i]))
    ensures Exclusive(procs[i := p], events)
  {
  }

  lemma PlainEvent(procs: seq<Proc>, events: seq<Event>, e: Event)
    requires Exclusive(procs, events) && OutcomeOf(e.content).None?
    ensures Exclusive(procs, events + [e])
  {
  }

  /** Winning a claim that nobody holds and whose outcome is open. */
  lemma HolderWins(procs: seq<Proc>, events: seq<Event>, i: nat, p: Proc)
    requires Exclusive(procs, events) && i < |procs| && HeldBy(procs[i]).None? && HeldBy(p).Some?
    requires forall j :: 0 <= j < |procs| ==> HeldBy(procs[j]) != HeldBy(p)
    requires forall k :: 0 <= k < |events| ==> OutcomeOf(events[k].content) != HeldBy(p)
    ensures Exclusive(procs[i := p], events)
  {
  }

  /** The holder announces the outcome and lets go. */
  lemma HolderAnnounces(procs: seq<Proc>, events: seq<Event>, i: nat, p: Proc, e: Event)
    requires Exclusive(procs, events) && i < |procs| && HeldBy(procs[i]).Some?
    requires HeldBy(p).None? && OutcomeOf(e.content) == HeldBy(procs[i])
    ensures Exclusive(procs[i := p], events + [e])
  {
    var ps, es := procs[i := p], events + [e];
    forall j, k | 0 <= j < |ps| && 0 <= k < |es| && HeldBy(ps[j]).Some? ensures OutcomeOf(es[k].content) != HeldBy(ps[j]) {
      assert j != i;
      if k == |events| { assert HeldBy(procs[j]) != HeldBy(procs[i]); }
    }
  }

  // ---------------------------------------------------------------------------------------------
  // One step
  // ---------------------------------------------------------------------------------------------

  predicate Kept(env: Env, s: Sys, s': Sys) { Grows(s, s') && Inv(env, s') }

  predicate Replaces(s: Sys, s': Sys, i: nat) { i < |s.procs| == |s'.procs| && s'.procs == s.procs[i := s'.procs[i]] }

  /** Steps that add no event and leave the call without a claim. */
  lemma CalmIsKept(env: Env, s: Sys, s': Sys, i: nat)
    requires Inv(env, s) && Grows(s, s') && ApprovalsOk(s') && Replaces(s, s', i)
    requires s'.db.events == s.db.events && s'.releases == s.releases
    requires !s.procs[i].Authorizing? && HeldBy(s'.procs[i]).None? && ProcOk(env, s', s'.procs[i])
    ensures Kept(env, s, s')
  {
    ProcsStay(env, s, s', i);
    AccountsStay(s, s');
    HolderMoves(s.procs, s.db.events, i, s'.procs[i]);
    OutcomesStay(s, s');
    ReleasesStay(env, s, s');
  }

  /** Storing a settled copy of a known approval. */
  lemma SettlingGrows(s: Sys, s': Sys, id: Id, a: Approval)
    requires ApprovalsOk(s) && KnownCopy(s, id, a) && a.status != Pending
    requires s'.db == s.db.(approvals := s.db.approvals[id := a]) && s'.originals == s.originals && s'.releases == s.releases
    requires s.clock <= s'.clock
    ensures Grows(s, s') && ApprovalsOk(s') && Settled(s', id)
  {
    forall k | k in s'.db.approvals ensures k < s'.db.nextId && KnownCopy(s', k, s'.db.approvals[k]) {
      if k != id { assert KnownCopy(s, k, s.db.approvals[k]); }
    }
  }

  /** Leaving approvals, originals and releases alone, and adding at most events. */
  lemma AppendingGrows(s: Sys, s': Sys)
    requires ApprovalsOk(s) && s'.db.approvals == s.db.approvals && s.db.nextId <= s'.db.nextId
    requires s'.db.participants == s.db.participants
    requires s'.originals == s.originals && s.releases <= s'.releases && s.db.events <= s'.db.events && s.clock <= s'.clock
    ensures Grows(s, s') && ApprovalsOk(s')
  {
    forall id | id in s'.db.approvals ensures id < s'.db.nextId && KnownCopy(s', id, s'.db.approvals[id]) {
      assert KnownCopy(s, id, s.db.approvals[id]);
    }
  }

  predicate Reads(p: Proc) { p.Start? || p.Checking? || p.Listing? || p.Done? }

  lemma ReadIsOk(env: Env, s: Sys, p: Proc, now: int)
    requires ApprovalsOk(s) && ProcOk(env, s, p) && Reads(p)
    ensures Move(env, s.db, p, now).0 == s.db
    ensures HeldBy(Move(env, s.db, p, now).1).None? && ProcOk(env, s, Move(env, s.db, p, now).1)
  {
  }

  lemma ReadingIsKept(env: Env, s: Sys, i: nat, wait: nat)
    requires Inv(env, s) && i < |s.procs| && Reads(s.procs[i])
    ensures Kept(env, s, Next(env, s, Act(i, wait)))
  {
    var s' := Next(env, s, Act(i, wait));
    assert ProcOk(env, s, s.procs[i]);
    ReadIsOk(env, s, s.procs[i], s.clock + wait);
    AppendingGrows(s, s');
    ProcStays(env, s, s', s'.procs[i]);
    CalmIsKept(env, s, s', i);
  }

  /** `closeRoom` up to its last room write. */
  lemma ClosingIsKept(env: Env, s: Sys, i: nat, wait: nat)
    requires Inv(env, s) && i < |s.procs| && (s.procs[i].Canceling? || s.procs[i].Closing?)
    ensures Kept(env, s, Next(env, s, Act(i, wait)))
  {
    var s' := Next(env, s, Act(i, wait));
    AppendingGrows(s, s');
    CalmIsKept(env, s, s', i);
  }

  lemma ExpiringIsKept(env: Env, s: Sys, i: nat, wait: nat)
    requires Inv(env, s) && i < |s.procs| && s.procs[i].Expiring?
    ensures Kept(env, s, Next(env, s, Act(i, wait)))
  {
    var s' := Next(env, s, Act(i, wait));
    assert ProcOk(env, s, s.procs[i]);
    SettlingGrows(s, s', s.procs[i].id, s.procs[i].stale.(status := Expired));
    CalmIsKept(env, s, s', i);
  }

  lemma VoidSettles(env: Env, s: Sys, i: nat, wait: nat)
    requires Inv(env, s) && i < |s.procs| && s.procs[i].Voiding? && s.procs[i].todo != []
    ensures var s' := Next(env, s, Act(i, wait)); Grows(s, s') && ApprovalsOk(s') && ProcOk(env, s', s'.procs[i])
  {
    var s' := Next(env, s, Act(i, wait));
    var next := s.procs[i].todo[0];
    assert ProcOk(env, s, s.procs[i]);
    SettlingGrows(s, s', next.0, next.1.(status := Invalidated));
    ProcStays(env, s, s', s'.procs[i]);
  }

  lemma VoidingIsKept(env: Env, s: Sys, i: nat, wait: nat)
    requires Inv(env, s) && i < |s.procs| && s.procs[i].Voiding?
    ensures Kept(env, s, Next(env, s, Act(i, wait)))
  {
    var s' := Next(env, s, Act(i, wait));
    if s.procs[i].todo == [] { AppendingGrows(s, s'); } else { VoidSettles(env, s, i, wait); }
    CalmIsKept(env, s, s', i);
  }

  lemma ClaimFails(env: Env, s: Sys, i: nat, wait: nat)
    requires Inv(env, s) && i < |s.procs| && s.procs[i].Claiming?
    requires s.procs[i].id !in s.db.approvals || s.db.approvals[s.procs[i].id].status != Pending
    ensures Kept(env, s, Next(env, s, Act(i, wait)))
  {
    AppendingGrows(s, Next(env, s, Act(i, wait)));
    CalmIsKept(env, s, Next(env, s, Act(i, wait)), i);
  }

  /** A successful claim stores a settled copy of the current record. */
  lemma ClaimStores(env: Env, db: Db, p: Proc, now: int)
    requires p.Claiming? && p.to != Pending && p.id in db.approvals && db.approvals[p.id].status == Pending
    ensures var (db', p') := Move(env, db, p, now);
      && p.id in db'.approvals && db'.approvals[p.id].status != Pending && SameRequest(db'.approvals[p.id], db.approvals[p.id])
      && db' == db.(approvals := db.approvals[p.id := db'.approvals[p.id]])
      && (p'.Done? || (p'.Rejecting? && p'.id == p.id && p'.stale == p.stale)
          || (p'.Releasing? && p.to == Approved && p'.id == p.id && p'.stale == p.stale))
  {
  }

  lemma ClaimSettles(env: Env, s: Sys, i: nat, wait: nat)
    requires Inv(env, s) && i < |s.procs| && s.procs[i].Claiming?
    requires s.procs[i].id in s.db.approvals && s.db.approvals[s.procs[i].id].status == Pending
    ensures var s' := Next(env, s, Act(i, wait));
      && Grows(s, s') && ApprovalsOk(s') && ProcOk(env, s', s'.procs[i]) && !s'.procs[i].Authorizing?
      && (HeldBy(s'.procs[i]).None? || HeldBy(s'.procs[i]) == Some(s.procs[i].id))
      && s'.db.events == s.db.events && s'.releases == s.releases && Replaces(s, s', i)
  {
    var s' := Next(env, s, Act(i, wait));
    var p := s.procs[i];
    assert ProcOk(env, s, p) && KnownCopy(s, p.id, s.db.approvals[p.id]);
    ClaimStores(env, s.db, p, s.clock + wait);
    SettlingGrows(s, s', p.id, s'.db.approvals[p.id]);
  }

  lemma ClaimingIsKept(env: Env, s: Sys, i: nat, wait: nat)
    requires Inv(env, s) && i < |s.procs| && s.procs[i].Claiming?
    ensures Kept(env, s, Next(env, s, Act(i, wait)))
  {
    var s' := Next(env, s, Act(i, wait));
    var p := s.procs[i];
    if p.id in s.db.approvals && s.db.approvals[p.id].status == Pending {
      ClaimSettles(env, s, i, wait);
      if HeldBy(s'.procs[i]).Some? { WinningIsKept(env, s, s', i); } else { CalmIsKept(env, s, s', i); }
    } else {
      ClaimFails(env, s, i, wait);
    }
  }

  /** A claim is won only while nobody holds the approval and its outcome is open. */
  lemma WinningIsKept(env: Env, s: Sys, s': Sys, i: nat)
    requires Inv(env, s) && Grows(s, s') && ApprovalsOk(s') && Replaces(s, s', i)
    requires s'.db.events == s.db.events && s'.releases == s.releases
    requires HeldBy(s.procs[i]).None? && HeldBy(s'.procs[i]).Some? && ProcOk(env, s', s'.procs[i])
    requires HeldBy(s'.procs[i]).value in s.db.approvals && !Settled(s, HeldBy(s'.procs[i]).value)
    ensures Kept(env, s, s')
  {
    ProcsStay(env, s, s', i);
    forall j | 0 <= j < |s.procs| ensures HeldBy(s.procs[j]) != HeldBy(s'.procs[i]) { assert ProcOk(env, s, s.procs[j]); }
    forall k | 0 <= k < |s.db.events| ensures OutcomeOf(s.db.events[k].content) != HeldBy(s'.procs[i]) {
      assert OutcomeOk(s, s.db.events[k].content);
    }
    HolderWins(s.procs, s.db.events, i, s'.procs[i]);
    AccountsStay(s, s');
    OutcomesStay(s, s');
    forall r | r in s.releases ensures r.approval != HeldBy(s'.procs[i]).value { assert ReleaseOk(env, s, r); }
    ReleasesStay(env, s, s');
  }

  /** Announcing a rejection, or an authorization of what was released. */
  lemma AnnouncingIsKept(env: Env, s: Sys, i: nat, wait: nat)
    requires Inv(env, s) && i < |s.procs| && (s.procs[i].Rejecting? || s.procs[i].Authorizing?)
    ensures Kept(env, s, Next(env, s, Act(i, wait)))
  {
    var s' := Next(env, s, Act(i, wait));
    var e := s'.db.events[|s.db.events|];
    assert ProcOk(env, s, s.procs[i]);
    AppendingGrows(s, s');
    AnnouncementPays(s, s', i, e);
    AnnouncementIsKept(env, s, s', i, e);
  }

  lemma AnnouncementPays(s: Sys, s': Sys, i: nat, e: Event)
    requires Grows(s, s') && AllAccounted(s) && Replaces(s, s', i) && s'.releases == s.releases && s'.db.events == s.db.events + [e]
    requires forall r :: Owes(s.procs[i], r) ==> Announces(e.content, r)
    ensures AllAccounted(s')
  {
    forall r | r in s'.releases ensures Accounted(s', r) {
      if Owes(s.procs[i], r) { assert Announces(s'.db.events[|s.db.events|].content, r); } else { AccountStays(s, s', r); }
    }
  }

  lemma AnnouncementIsKept(env: Env, s: Sys, s': Sys, i: nat, e: Event)
    requires Inv(env, s) && Grows(s, s') && ApprovalsOk(s') && Replaces(s, s', i) && s'.releases == s.releases
    requires s'.db.events == s.db.events + [e] && OutcomeOk(s', e.content) && AllAccounted(s')
    requires HeldBy(s.procs[i]).Some? && OutcomeOf(e.content) == HeldBy(s.procs[i]) && (s'.procs[i].Done? || s'.procs[i].Finishing?)
    ensures Kept(env, s, s')
  {
    ProcsStay(env, s, s', i);
    HolderAnnounces(s.procs, s.db.events, i, s'.procs[i], e);
    OutcomesStay(s, s');
    ReleasesStay(env, s, s');
  }

  lemma ReleasingIsKept(env: Env, s: Sys, i: nat, wait: nat)
    requires Inv(env, s) && i < |s.procs| && s.procs[i].Releasing?
    ensures Kept(env, s, Next(env, s, Act(i, wait)))
  {
    var s' := Next(env, s, Act(i, wait));
    var p, e := s.procs[i], s'.db.events[|s.db.events|];
    assert ProcOk(env, s, p);
    ProcsStay(env, s, s', i);
    PlainEvent(s.procs, s.db.events, e);
    HolderMoves(s.procs, s'.db.events, i, s'.procs[i]);
    OutcomesStay(s, s');
    ReleaseIsNew(env, s, s', i, e);
    ReleaseIsOwed(s, s', i);
  }

  lemma ReleaseIsOwed(s: Sys, s': Sys, i: nat)
    requires Grows(s, s') && AllAccounted(s) && Replaces(s, s', i) && !s.procs[i].Authorizing? && s'.procs[i].Authorizing?
    requires s'.releases == s.releases + [Release(s'.procs[i].id, s'.procs[i].eventId)]
    ensures AllAccounted(s')
  {
    forall r | r in s'.releases ensures Accounted(s', r) {
      if r in s.releases { AccountStays(s, s', r); } else { assert Owes(s'.procs[i], r); }
    }
  }

  lemma ReleaseIsNew(env: Env, s: Sys, s': Sys, i: nat, e: Event)
    requires Inv(env, s) && Grows(s, s') && Replaces(s, s', i) && s.procs[i].Releasing? && !s'.procs[i].Releasing?
    requires s'.db.events == s.db.events + [e] && s'.releases == s.releases + [Release(s.procs[i].id, e.id)]
    requires s.procs[i].id in s.originals && Carries(e, e.id, s.originals[s.procs[i].id]) && Cleared(env, s.originals[s.procs[i].id])
    ensures ReleasesOk(env, s')
  {
    assert ProcOk(env, s, s.procs[i]);
    forall r | r in s'.releases ensures ReleaseOk(env, s', r) {
      if r in s.releases { ReleaseStays(env, s, s', r); } else { assert Carries(s'.db.events[|s.db.events|], r.event, s'.originals[r.approval]); }
    }
    forall j, r | 0 <= j < |s'.procs| && s'.procs[j].Releasing? && r in s'.releases ensures r.approval != s'.procs[j].id {
      if r !in s.releases { assert HeldBy(s.procs[j]) != HeldBy(s.procs[i]); }
    }
  }

  lemma SideEffectsArePlain(db: Db, sender: Id, body: Body) returns (e: Option<Event>)
    ensures var db' := SideEffects(db, sender, body);
      && db'.approvals == db.approvals && db.nextId <= db'.nextId && db'.participants == db.participants
      && (e.None? ==> db'.events == db.events)
      && (e.Some? ==> db'.events == db.events + [e.value] && e.value.content == FromPlatform(CompletionRejected) && e.value.sender.None?)
  {
    if body.CompletionProposal? && !Satisfied(db) { return Some(Noted(db, CompletionRejected).events[|db.events|]); }
    return None;
  }

  lemma FinishingIsKept(env: Env, s: Sys, i: nat, wait: nat)
    requires Inv(env, s) && i < |s.procs| && s.procs[i].Finishing?
    ensures Kept(env, s, Next(env, s, Act(i, wait)))
  {
    var s' := Next(env, s, Act(i, wait));
    var e := SideEffectsArePlain(s.db, s.procs[i].stale.requestedBy, s.procs[i].stale.body);
    if e.Some? { PlainEvent(s.procs, s.db.events, e.value); }
    HolderMoves(s.procs, s'.db.events, i, s'.procs[i]);
    ProcsStay(env, s, s', i);
    OutcomesStay(s, s');
    AccountsStay(s, s');
    ReleasesStay(env, s, s');
  }

  lemma CreatingGrows(env: Env, s: Sys, a: Approval)
    requires ApprovalsOk(s) && a.status == Pending
    ensures Grows(s, Next(env, s, Create(a))) && ApprovalsOk(Next(env, s, Create(a)))
  {
    var s' := Next(env, s, Create(a));
    assert s.db.nextId !in s.db.approvals && s.db.nextId !in s.originals;
    forall id | id in s'.db.approvals ensures id < s'.db.nextId && KnownCopy(s', id, s'.db.approvals[id]) {
      if id != s.db.nextId { assert KnownCopy(s, id, s.db.approvals[id]); }
    }
  }

  lemma CreatingIsKept(env: Env, s: Sys, a: Approval)
    requires Inv(env, s) && a.status == Pending
    ensures Kept(env, s, Next(env, s, Create(a)))
  {
    var s' := Next(env, s, Create(a));
    CreatingGrows(env, s, a);
    forall j | 0 <= j < |s.procs| ensures ProcOk(env, s', s.procs[j]) { ProcStays(env, s, s', s.procs[j]); }
    OutcomesStay(s, s');
    AccountsStay(s, s');
    ReleasesStay(env, s, s');
  }

  lemma NewcomerHoldsNothing(procs: seq<Proc>, events: seq<Event>, p: Proc)
    requires Exclusive(procs, events) && HeldBy(p).None?
    ensures Exclusive(procs + [p], events)
  {
  }

  lemma SpawningIsKept(env: Env, s: Sys, p: Proc)
    requires Inv(env, s) && (p.Start? || p.Canceling?)
    ensures Kept(env, s, Next(env, s, Spawn(p)))
  {
    var s' := Next(env, s, Spawn(p));
    AppendingGrows(s, s');
    NewcomerHoldsNothing(s.procs, s.db.events, p);
    forall j | 0 <= j < |s'.procs| ensures ProcOk(env, s', s'.procs[j]) {
      if j < |s.procs| { ProcStays(env, s, s', s.procs[j]); }
    }
    OutcomesStay(s, s');
    AccountsStay(s, s');
    ReleasesStay(env, s, s');
  }

  lemma SayingIsKept(env: Env, s: Sys, sender: Option<Id>, content: Content, labels: Classification)
    requires Inv(env, s) && OutcomeOf(content).None?
    ensures Kept(env, s, Next(env, s, Say(sender, content, labels)))
  {
    var s' := Next(env, s, Say(sender, content, labels));
    AppendingGrows(s, s');
    PlainEvent(s.procs, s.db.events, s'.db.events[|s.db.events|]);
    forall j | 0 <= j < |s'.procs| ensures ProcOk(env, s', s'.procs[j]) { ProcStays(env, s, s', s.procs[j]); }
    OutcomesStay(s, s');
    AccountsStay(s, s');
    ReleasesStay(env, s, s');
  }

  lemma StepIsKept(env: Env, s: Sys, act: Action)
    requires Inv(env, s)
    ensures Kept(env, s, Next(env, s, act))
  {
    match act
    case Create(a) => if a.status == Pending { CreatingIsKept(env, s, a); }
    case Act(i, wait) =>
      if i < |s.procs| {
        match s.procs[i]
        case Expiring(_, _) => ExpiringIsKept(env, s, i, wait);
        case Claiming(_, _, _, _) => ClaimingIsKept(env, s, i, wait);
        case Rejecting(_, _) => AnnouncingIsKept(env, s, i, wait);
        case Authorizing(_, _, _) => AnnouncingIsKept(env, s, i, wait);
        case Releasing(_, _) => ReleasingIsKept(env, s, i, wait);
        case Finishing(_) => FinishingIsKept(env, s, i, wait);
        case Voiding(_) => VoidingIsKept(env, s, i, wait);
        case Canceling => ClosingIsKept(env, s, i, wait);
        case Closing => ClosingIsKept(env, s, i, wait);
        case _ => ReadingIsKept(env, s, i, wait);
      }
    case Spawn(p) => if p.Start? || p.Canceling? { SpawningIsKept(env, s, p); }
    case Say(sender, content, labels) => if OutcomeOf(content).None? { SayingIsKept(env, s, sender, content, labels); }
  }

  lemma {:induction false} RunIsKept(env: Env, s: Sys, acts: seq<Action>)
    requires Inv(env, s)
    ensures Kept(env, s, Run(env, s, acts))
    decreases |acts|
  {
    if acts != [] {
      StepIsKept(env, s, acts[0]);
      RunIsKept(env, Next(env, s, acts[0]), acts[1..]);
    }
  }

  lemma InitialIsInv(env: Env, s: Sys)
    requires Initial(s)
    ensures Inv(env, s)
  {
    assert forall k :: 0 <= k < |s.db.events| ==> s.db.events[k] in s.db.events;
  }

  // ---------------------------------------------------------------------------------------------
  // Main results
  // ---------------------------------------------------------------------------------------------

  /** Whatever is interleaved, an approval that has left PENDING never returns to it. */
  lemma NeverPendingAgain(env: Env, s0: Sys, acts: seq<Action>, more: seq<Action>, id: Id)
    requires Initial(s0) && Settled(Run(env, s0, acts), id)
    ensures Settled(Run(env, Run(env, s0, acts), more), id)
  {
    InitialIsInv(env, s0);
    RunIsKept(env, s0, acts);
    RunIsKept(env, Run(env, s0, acts), more);
  }

  /** Whatever is interleaved, at most one authorization or rejection is announced for an approval, and at most one event
      is released for it. */
  lemma DecidedAtMostOnce(env: Env, s0: Sys, acts: seq<Action>)
    requires Initial(s0)
    ensures var s := Run(env, s0, acts);
      && (forall k, l :: 0 <= k < l < |s.db.events| && OutcomeOf(s.db.events[k].content).Some? ==>
            OutcomeOf(s.db.events[l].content) != OutcomeOf(s.db.events[k].content))
      && (forall i, j :: 0 <= i < j < |s.releases| ==> s.releases[i].approval != s.releases[j].approval)
  {
    InitialIsInv(env, s0);
    RunIsKept(env, s0, acts);
  }

  /** A released event is in the stream, on behalf of the participant who asked, with the body held at creation; that body
      hashes to the hash stored then, and no secret is found in it. */
  lemma ReleasedIsOriginal(env: Env, s0: Sys, acts: seq<Action>, r: Release)
    requires Initial(s0) && r in Run(env, s0, acts).releases
    ensures var s := Run(env, s0, acts);
      && r.approval in s.originals
      && env.hash(s.originals[r.approval].body) == s.originals[r.approval].parametersHash
      && env.scan(s.originals[r.approval].body, None).secretFindings == []
      && exists e :: e in s.db.events && Carries(e, r.event, s.originals[r.approval])
  {
    InitialIsInv(env, s0);
    RunIsKept(env, s0, acts);
    var s := Run(env, s0, acts);
    assert ReleaseOk(env, s, r);
    var k :| 0 <= k < |s.db.events| && Carries(s.db.events[k], r.event, s.originals[r.approval]);
    assert s.db.events[k] in s.db.events;
  }

  /** A rejected approval is never released. */
  lemma RejectedIsNeverReleased(env: Env, s0: Sys, acts: seq<Action>, e: Event, r: Release)
    requires Initial(s0) && e in Run(env, s0, acts).db.events && r in Run(env, s0, acts).releases
    ensures e.content.FromPlatform? && e.content.notice.ActionRejected? ==> e.content.notice.approvalId != r.approval
  {
    InitialIsInv(env, s0);
    RunIsKept(env, s0, acts);
    if e.content.FromPlatform? && e.content.notice.ActionRejected? { RejectedIsNotReleased(env, Run(env, s0, acts), e, r); }
  }

  predicate Quiet(s: Sys) { forall p :: p in s.procs ==> p.Done? }

  /** When no call is running, the announced authorizations and the released events correspond exactly. */
  lemma ReleasesMatchAuthorizations(env: Env, s0: Sys, acts: seq<Action>, r: Release)
    requires Initial(s0) && Quiet(Run(env, s0, acts))
    ensures var s := Run(env, s0, acts);
      r in s.releases <==> exists e :: e in s.db.events && Announces(e.content, r)
  {
    InitialIsInv(env, s0);
    RunIsKept(env, s0, acts);
    MatchedWhenQuiet(env, Run(env, s0, acts), r);
  }

  lemma MatchedWhenQuiet(env: Env, s: Sys, r: Release)
    requires Inv(env, s) && Quiet(s)
    ensures r in s.releases <==> exists e :: e in s.db.events && Announces(e.content, r)
  {
    if r in s.releases {
      assert Accounted(s, r);
      assert forall i :: 0 <= i < |s.procs| ==> !Owes(s.procs[i], r) by { assert forall i :: 0 <= i < |s.procs| ==> s.procs[i] in s.procs; }
      var k :| 0 <= k < |s.db.events| && Announces(s.db.events[k].content, r);
      assert s.db.events[k] in s.db.events;
    }
    if e :| e in s.db.events && Announces(e.content, r) {
      var k :| 0 <= k < |s.db.events| && s.db.events[k] == e;
      assert OutcomeOk(s, s.db.events[k].content);
    }
  }

  lemma RejectedIsNotReleased(env: Env, s: Sys, e: Event, r: Release)
    requires Inv(env, s) && e in s.db.events && r in s.releases && e.content.FromPlatform? && e.content.notice.ActionRejected?
    ensures e.content.notice.approvalId != r.approval
  {
    assert Accounted(s, r);
    var k :| 0 <= k < |s.db.events| && s.db.events[k] == e;
    if l :| 0 <= l < |s.db.events| && Announces(s.db.events[l].content, r) {
      assert k != l;
    } else {
      var i :| 0 <= i < |s.procs| && Owes(s.procs[i], r);
    }
  }

  // ---------------------------------------------------------------------------------------------
  // One call by itself, and two that overlap
  // ---------------------------------------------------------------------------------------------

  function Moves(env: Env, db: Db, p: Proc, now: int, n: nat): (Db, Proc)
    decreases n
  {
    if n == 0 then (db, p) else var (db', p') := Move(env, db, p, now); Moves(env, db', p', now, n - 1)
  }

  lemma OneMove(env: Env, db: Db, p: Proc, now: int, n: nat) returns (db': Db, p': Proc)
    requires n > 0
    ensures (db', p') == Move(env, db, p, now) && Moves(env, db, p, now, n) == Moves(env, db', p', now, n - 1)
  {
    db', p' := Move(env, db, p, now).0, Move(env, db, p, now).1;
  }

  lemma {:induction false} DoneStays(env: Env, db: Db, now: int, n: nat)
    ensures Moves(env, db, Done, now, n) == (db, Done)
  {
    if n > 0 { DoneStays(env, db, now, n - 1); }
  }

  lemma ApprovedClaimFinishes(env: Env, db: Db, a: Approval, id: Id, user: UserId, now: int)
    requires id in db.approvals && db.approvals[id] == a && a.status == Pending
    ensures Moves(env, db, Claiming(id, a, Approved, user), now, 4) == (Authorize(env, db, id, user, now), Done)
  {
    var db1, p1 := OneMove(env, db, Claiming(id, a, Approved, user), now, 4);
    var db2, p2 := OneMove(env, db1, p1, now, 3);
    var db3, p3 := OneMove(env, db2, p2, now, 2);
    var db4, p4 := OneMove(env, db3, p3, now, 1);
  }

  lemma RejectedClaimFinishes(env: Env, db: Db, a: Approval, id: Id, user: UserId, now: int)
    requires id in db.approvals && db.approvals[id] == a && a.status == Pending
    ensures Moves(env, db, Claiming(id, a, Rejected, user), now, 4) ==
      (Noted(Decided(db, id, Rejected, user, now), ActionRejected(id, ActionOf(a.body))), Done)
  {
    var db1, p1 := OneMove(env, db, Claiming(id, a, Rejected, user), now, 4);
    var db2, p2 := OneMove(env, db1, p1, now, 3);
    DoneStays(env, db2, now, 2);
  }

  lemma InvalidatedClaimFinishes(env: Env, db: Db, a: Approval, id: Id, user: UserId, now: int)
    requires id in db.approvals && db.approvals[id] == a && a.status == Pending
    ensures Moves(env, db, Claiming(id, a, Invalidated, user), now, 4) == (StoreStatus(db, id, Invalidated), Done)
  {
    var db1, p1 := OneMove(env, db, Claiming(id, a, Invalidated, user), now, 4);
    DoneStays(env, db1, now, 3);
  }

  /** A decision that nothing interrupts does exactly what the atomic call does. */
  lemma UninterruptedIsAtomic(env: Env, db: Db, id: Id, approve: bool, user: UserId, now: int)
    requires id in db.approvals
    ensures Moves(env, db, Start(id, approve, user), now, 6) ==
      (DecideApproval(env, db, db.approvals[id].approverOrg, user, id, approve, now).0, Done)
  {
    var a := db.approvals[id];
    var db1, p1 := OneMove(env, db, Start(id, approve, user), now, 6);
    var db2, p2 := OneMove(env, db1, p1, now, 5);
    if p2.Done? {
      DoneStays(env, db, now, 4);
    } else if p2.Expiring? {
      var db3, p3 := OneMove(env, db, p2, now, 4);
      DoneStays(env, db3, now, 3);
    } else {
      ApprovedClaimFinishes(env, db, a, id, user, now);
      RejectedClaimFinishes(env, db, a, id, user, now);
      InvalidatedClaimFinishes(env, db, a, id, user, now);
    }
  }

  lemma {:induction false} RunThen(env: Env, s: Sys, acts: seq<Action>, act: Action)
    ensures Run(env, s, acts + [act]) == Next(env, Run(env, s, acts), act)
    decreases |acts|
  {
    if acts == [] {
      assert [] + [act] == [act] && [act][1..] == [];
      assert Run(env, s, [act]) == Run(env, Next(env, s, act), []);
    } else {
      assert (acts + [act])[1..] == acts[1..] + [act];
      RunThen(env, Next(env, s, acts[0]), acts[1..], act);
    }
  }

  lemma Extend(env: Env, s: Sys, acts: seq<Action>, now: Sys, act: Action) returns (acts': seq<Action>, now': Sys)
    requires now == Run(env, s, acts)
    ensures now' == Next(env, now, act) == Run(env, s, acts')
    ensures acts' == acts + [act]
  {
    RunThen(env, s, acts, act);
    acts', now' := acts + [act], Next(env, now, act);
  }

  predicate HasStatus(s: Sys, id: Id, status: Status) { id in s.db.approvals && s.db.approvals[id].status == status }

  /** A human can still let its body go: pending, not past its expiry, cleared, and asked for by a participant. */
  predicate CanBeApproved(env: Env, s: Sys, id: Id) {
    && HasStatus(s, id, Pending) && s.clock <= s.db.approvals[id].expiresAt
    && Cleared(env, s.db.approvals[id]) && Find(s.db.participants, s.db.approvals[id].requestedBy).Some?
  }

  /** Both have read the approval while it was pending; the late one finds it expired. */
  lemma BothHaveRead(env: Env, s: Sys, id: Id, user: UserId) returns (acts: seq<Action>, now: Sys)
    requires s.procs == [] && CanBeApproved(env, s, id)
    ensures now == Run(env, s, acts) && now.db == s.db
    ensures now.procs == [Claiming(id, s.db.approvals[id], Approved, user), Expiring(id, s.db.approvals[id])]
  {
    var a := s.db.approvals[id];
    acts, now := Extend(env, s, [], s, Spawn(Start(id, true, user)));
    acts, now := Extend(env, s, acts, now, Spawn(Start(id, true, user)));
    acts, now := Extend(env, s, acts, now, Act(0, a.expiresAt - s.clock));
    assert now.procs == [Checking(id, a, true, user), Start(id, true, user)] && now.db == s.db && now.clock == a.expiresAt;
    acts, now := Extend(env, s, acts, now, Act(0, 0));
    acts, now := Extend(env, s, acts, now, Act(1, 0));
    assert now.procs == [Claiming(id, a, Approved, user), Checking(id, a, true, user)] && now.db == s.db;
    acts, now := Extend(env, s, acts, now, Act(1, 1));
  }

  /** A settled status may still be overwritten by another: of two approvers, the late one read the approval while it was
      pending but finds it expired, and its stale write marks as EXPIRED what the other has approved and released. */
  lemma ApprovedBecomesExpired(env: Env, s: Sys, id: Id, user: UserId) returns (acts: seq<Action>)
    requires s.procs == [] && CanBeApproved(env, s, id)
    ensures HasStatus(Run(env, s, acts), id, Approved) && Release(id, s.db.nextId) in Run(env, s, acts).releases
    ensures HasStatus(Next(env, Run(env, s, acts), Act(1, 0)), id, Expired)
  {
    var now: Sys;
    acts, now := BothHaveRead(env, s, id, user);
    acts, now := Extend(env, s, acts, now, Act(0, 0));
    assert now.procs == [Releasing(id, s.db.approvals[id]), Expiring(id, s.db.approvals[id])] && now.db.nextId == s.db.nextId;
    acts, now := Extend(env, s, acts, now, Act(0, 0));
    assert now.procs[1] == Expiring(id, s.db.approvals[id]);
  }

  /** An approver that wins its claim, as soon as it can. */
  lemma ClaimedBeforeClosing(env: Env, s: Sys, id: Id, user: UserId) returns (acts: seq<Action>, now: Sys)
    requires s.procs == [] && CanBeApproved(env, s, id)
    ensures now == Run(env, s, acts) && now.procs == [Releasing(id, s.db.approvals[id])]
    ensures now.db == Decided(s.db, id, Approved, user, s.clock)
  {
    var a := s.db.approvals[id];
    acts, now := Extend(env, s, [], s, Spawn(Start(id, true, user)));
    acts, now := Extend(env, s, acts, now, Act(0, 0));
    assert now.procs == [Checking(id, a, true, user)] && now.db == s.db;
    acts, now := Extend(env, s, acts, now, Act(0, 0));
    assert now.procs == [Claiming(id, a, Approved, user)] && now.db == s.db;
    acts, now := Extend(env, s, acts, now, Act(0, 0));
  }

  lemma {:induction false} NothingPending(approvals: map<Id, Approval>, upTo: Id)
    requires forall k :: k in approvals ==> approvals[k].status != Pending
    ensures PendingOf(approvals, upTo) == []
  {
    if upTo > 0 { NothingPending(approvals, upTo - 1); }
  }

  lemma SecondMoves(env: Env, s: Sys, sofar: seq<Action>, before: Sys, holder: Proc, p: Proc) returns (acts: seq<Action>, now: Sys)
    requires before == Run(env, s, sofar) && before.procs == [holder, p]
    ensures now == Run(env, s, acts) && now.procs == [holder, Move(env, before.db, p, before.clock).1] && now.db == Move(env, before.db, p, before.clock).0
  {
    acts, now := Extend(env, s, sofar, before, Act(1, 0));
  }

  lemma Spawned(env: Env, s: Sys, sofar: seq<Action>, before: Sys, holder: Proc) returns (acts: seq<Action>, now: Sys)
    requires before == Run(env, s, sofar) && before.procs == [holder]
    ensures now == Run(env, s, acts) && now.procs == [holder, Canceling] && now.db == before.db
  {
    acts, now := Extend(env, s, sofar, before, Spawn(Canceling));
  }

  lemma ClosesRoom(env: Env, s: Sys, sofar: seq<Action>, before: Sys, holder: Proc) returns (acts: seq<Action>, now: Sys)
    requires before == Run(env, s, sofar) && before.procs == [holder, Canceling]
    requires ClosesDirectly(before.db.room.state) || CanTransition(before.db.room.state, Canceled)
    ensures now == Run(env, s, acts) && now.procs == [holder, Listing]
    ensures now.db.room.state == Closed && now.db.approvals == before.db.approvals
  {
    acts, now := SecondMoves(env, s, sofar, before, holder, Canceling);
    acts, now := SecondMoves(env, s, acts, now, holder, Closing);
  }

  lemma NothingToVoid(env: Env, s: Sys, sofar: seq<Action>, before: Sys, holder: Proc) returns (acts: seq<Action>, now: Sys)
    requires before == Run(env, s, sofar) && before.procs == [holder, Listing]
    requires forall k :: k in before.db.approvals ==> before.db.approvals[k].status != Pending
    ensures now == Run(env, s, acts) && now.procs == [holder, Done] && now.db == before.db
  {
    NothingPending(before.db.approvals, before.db.nextId);
    acts, now := SecondMoves(env, s, sofar, before, holder, Listing);
    acts, now := SecondMoves(env, s, acts, now, holder, Voiding([]));
  }

  /** `closeRoom` from start to end beside another call, with nothing left to void. */
  lemma ClosesBeside(env: Env, s: Sys, sofar: seq<Action>, before: Sys, holder: Proc) returns (acts: seq<Action>, now: Sys)
    requires before == Run(env, s, sofar) && before.procs == [holder]
    requires forall k :: k in before.db.approvals ==> before.db.approvals[k].status != Pending
    requires ClosesDirectly(before.db.room.state) || CanTransition(before.db.room.state, Canceled)
    ensures now == Run(env, s, acts) && now.procs == [holder, Done] && now.db.room.state == Closed
  {
    acts, now := Spawned(env, s, sofar, before, holder);
    acts, now := ClosesRoom(env, s, acts, now, holder);
    acts, now := NothingToVoid(env, s, acts, now, holder);
  }

  /** Between single store calls, "no agent event once CLOSED" does not hold: an approver that has won its claim still
      releases its event after `closeRoom` has run to its end. */
  lemma ReleasedIntoClosedRoom(env: Env, s: Sys, id: Id, user: UserId) returns (acts: seq<Action>, closed: Sys)
    requires s.procs == [] && CanBeApproved(env, s, id) && (forall k :: k in s.db.approvals && s.db.approvals[k].status == Pending ==> k == id)
    requires ClosesDirectly(s.db.room.state) || CanTransition(s.db.room.state, Canceled)
    ensures closed == Run(env, s, acts) && closed.db.room.state == Closed && closed.procs == [Releasing(id, s.db.approvals[id]), Done]
    ensures var after := Next(env, closed, Act(0, 0)).db;
      && after.room.state == Closed && |after.events| == |closed.db.events| + 1
      && after.events[|closed.db.events|].sender == Some(s.db.approvals[id].requestedBy)
  {
    acts, closed := ClaimedBeforeClosing(env, s, id, user);
    acts, closed := ClosesBeside(env, s, acts, closed, Releasing(id, s.db.approvals[id]));
  }
}
