/** Where every event of an agent and every held approval comes from: what a submission leaves behind, and over every run that
    nothing reaches the stream but what the policy let pass or a human approved (packages/core/src/pipeline.ts,
    packages/core/src/approvals.ts). */
module Provenance {
  import opened Wrappers
  import opened Policy
  import opened Events
  import opened RoomData
  import opened RoomSpec
  import DecisionRecords
  import Dlp
  import Lifecycle = RoomLifecycle
  import Race = ApprovalRace
  import Stream = RoomStream
  import opened Verdicts

  // ---------------------------------------------------------------------------------------------
  // What is said, and how it is judged
  // ---------------------------------------------------------------------------------------------

  /** `said` is what may be said of `body`: all of it, or of a data response the entries that a peer's request names. */
  ghost predicate IsRestricted(events: seq<Event>, sender: Id, body: Body, said: Body) {
    if !body.DataResponse? then said == body
    else
      && said.DataResponse? && said.requestId == body.requestId
      && exists e :: e in events && IsRequestFor(e, body.requestId, sender)
           && forall f :: f in said.data <==> f in body.data && f.key in e.content.body.requestedFields
  }

  /** A data request under that id from somebody else. */
  predicate IsRequestFor(e: Event, requestId: Id, sender: Id) {
    e.id == requestId && e.content.FromAgent? && e.content.body.DataRequest? && e.sender != Some(sender)
  }

  /** What the policy decision point is asked about a body. */
  function Asked(db: Db, body: Body, r: Dlp.Report): Input {
    Input(db.room.state, TypeOf(body), r.classification.sensitivity, r.classification.categories,
          if body.ActionProposal? then Some(body.action) else None, |r.secretFindings|)
  }

  predicate HasTerms(db: Db, p: Participant) { p.policy.Some? && db.contracts != [] }

  predicate Passes(db: Db, p: Participant, body: Body, r: Dlp.Report) {
    HasTerms(db, p) && MayPass(Asked(db, body, r), p.policy.value, Latest(db.contracts).contract)
  }

  predicate NeedsApproval(db: Db, p: Participant, body: Body, r: Dlp.Report) {
    HasTerms(db, p) && MustBeHeld(Asked(db, body, r), p.policy.value, Latest(db.contracts).contract)
  }

  // ---------------------------------------------------------------------------------------------
  // What one submission leaves
  // ---------------------------------------------------------------------------------------------

  /** The body stands in the stream at once, in the sender's name and addressed to the other participant; nothing is held. */
  predicate IsSaid(db: Db, db': Db, p: Participant, body: Body, labels: Classification) {
    && db.events < db'.events && |db'.events| <= |db.events| + 2
    && db'.events[|db.events|] ==
         Event(db.nextId, |db.events| + 1, Some(p.id), Peer(db.participants, p.id), FromAgent(body), labels)
    && (|db'.events| == |db.events| + 2 ==>
          db'.events[|db.events| + 1].sender.None? && db'.events[|db.events| + 1].content == FromPlatform(CompletionRejected))
    && db'.approvals == db.approvals
  }

  /** Exactly one approval is pending in addition, for a day, with the body and its hash, for the sender's organization to
      decide; the stream tells of it, and nothing else has changed. */
  predicate IsHeld(env: Env, db: Db, db': Db, p: Participant, body: Body, now: int) {
    && db' == db.(approvals := db'.approvals, events := db'.events, nextId := db.nextId + 2)
    && db'.approvals ==
         db.approvals[db.nextId := Approval(p.id, body, env.hash(body), Pending, None, None, p.org, now + 86_400_000, None)]
    && |db'.events| == |db.events| + 1 && db.events <= db'.events && db'.events[|db.events|].sender.None?
    && db'.events[|db.events|].content == FromPlatform(ApprovalRequested(db.nextId, p.id, TypeOf(body), ActionOf(body)))
  }

  /** The stream tells of the block, without its content; at most the room is quarantined in addition. */
  predicate IsBlocked(db: Db, db': Db, p: Participant, body: Body, rule: Rule) {
    && (db'.(events := db.events, nextId := db.nextId) == db || db'.room == db.room.(state := Quarantined))
    && db'.approvals == db.approvals && db'.participants == db.participants && db'.contracts == db.contracts
    && |db'.events| == |db.events| + 1 && db.events <= db'.events && db'.events[|db.events|].sender.None?
    && db'.events[|db.events|].content == FromPlatform(PolicyBlock(TypeOf(body), p.id, rule))
  }

  lemma SaidBody(db: Db, sender: Id, body: Body) returns (said: Option<Body>)
    ensures said == Restricted(db, sender, body)
    ensures said.Some? ==> IsRestricted(db.events, sender, body, said.value)
    ensures said.None? ==> body.DataResponse? && forall e :: e in db.events ==> !IsRequestFor(e, body.requestId, sender)
  {
    said := Restricted(db, sender, body);
    if body.DataResponse? && said.Some? {
      var e := FindRequest(db.events, body.requestId, sender).value;
      assert IsRequestFor(e, body.requestId, sender);
    }
  }

  /** A submission of a known sender, whatever it says: without a peer's request for it, a policy or a contract it leaves
      nothing; what may pass is said at once; what must be held is held and not said; anything else is blocked. */
  lemma SubmissionLeaves(env: Env, db: Db, p: Participant, candidate: Candidate, now: int) returns (said: Option<Body>)
    requires Find(db.participants, p.id) == Some(p)
    ensures said.Some? ==> IsRestricted(db.events, p.id, candidate.body, said.value)
    ensures said.None? ==> candidate.body.DataResponse? && forall e :: e in db.events ==> !IsRequestFor(e, candidate.body.requestId, p.id)
    ensures var (db', reply) := Submit(env, db, p.id, Some(candidate), now);
      if said.None? || !HasTerms(db, p) then reply.Dropped? && db' == db
      else
        var r := env.scan(said.value, candidate.declared);
        if Passes(db, p, said.value, r) then reply == Allowed(db.nextId) && IsSaid(db, db', p, said.value, r.classification)
        else if NeedsApproval(db, p, said.value, r) then reply == Held(db.nextId) && IsHeld(env, db, db', p, said.value, now)
        else reply.Blocked? && IsBlocked(db, db', p, said.value, reply.rule)
  {
    said := SaidBody(db, p.id, candidate.body);
    if said.Some? && HasTerms(db, p) { JudgementIs(env, db, p, said.value, candidate.declared, now); }
  }

  lemma JudgementIs(env: Env, db: Db, p: Participant, body: Body, declared: Option<Classification>, now: int)
    requires HasTerms(db, p)
    ensures var (db', reply), r := Judge(env, db, p, body, declared, now), env.scan(body, declared);
      if Passes(db, p, body, r) then reply == Allowed(db.nextId) && IsSaid(db, db', p, body, r.classification)
      else if NeedsApproval(db, p, body, r) then reply == Held(db.nextId) && IsHeld(env, db, db', p, body, now)
      else reply.Blocked? && IsBlocked(db, db', p, body, reply.rule)
  {
    var r := env.scan(body, declared);
    assert Asked(db, body, r) == PolicyInput(db, body, r);
    VerdictIs(Asked(db, body, r), p.policy.value, Latest(db.contracts).contract);
    match Decide(Asked(db, body, r), p.policy.value, Latest(db.contracts).contract)
    case Allow => ReleaseSays(db, p, body, r.classification);
    case RequireApproval(_) =>
    case Deny(rule) => BlockTells(db, p, body, rule, |r.secretFindings| > 0);
  }

  lemma ReleaseSays(db: Db, p: Participant, body: Body, labels: Classification)
    ensures IsSaid(db, SideEffects(Released(db, p.id, body, labels), p.id, body), p, body, labels)
  {
    var e := Race.SideEffectsArePlain(Released(db, p.id, body, labels), p.id, body);
  }

  lemma BlockTells(db: Db, p: Participant, body: Body, rule: Rule, secret: bool)
    ensures IsBlocked(db, Block(db, p.id, body, rule, secret), p, body, rule)
  {
  }

  // ---------------------------------------------------------------------------------------------
  // One step
  // ---------------------------------------------------------------------------------------------

  /** The call is a submission whose body the policy let pass, and this is its event. */
  ghost predicate SaysAtOnce(env: Env, db: Db, op: Op, e: Event) {
    && op.OpSubmit? && op.candidate.Some? && e.content.FromAgent? && e.id == db.nextId
    && exists p :: p in db.participants && p.id == op.sender && e.sender == Some(p.id)
         && IsRestricted(db.events, p.id, op.candidate.value.body, e.content.body)
         && Passes(db, p, e.content.body, env.scan(e.content.body, op.candidate.value.declared))
         && e.classification == env.scan(e.content.body, op.candidate.value.declared).classification
  }

  /** The call is a human's approval, in time and for the right organization, of a pending body, and this is its event. */
  predicate LetsGo(db: Db, op: Op, e: Event) {
    && op.OpDecide? && op.approve && op.approvalId in db.approvals
    && var a := db.approvals[op.approvalId];
    && a.status == Pending && op.now <= a.expiresAt && op.org == a.approverOrg
    && e.sender == Some(a.requestedBy) && e.content == FromAgent(a.body)
  }

  /** The call is a submission whose body had to be held, and this is its approval. */
  ghost predicate Holds(env: Env, db: Db, op: Op, id: Id, a: Approval) {
    && op.OpSubmit? && op.candidate.Some? && id == db.nextId && a.parametersHash == env.hash(a.body)
    && a.expiresAt == op.now + 86_400_000
    && exists p :: p in db.participants && p.id == op.sender == a.requestedBy && p.org == a.approverOrg
         && IsRestricted(db.events, p.id, op.candidate.value.body, a.body)
         && NeedsApproval(db, p, a.body, env.scan(a.body, op.candidate.value.declared))
  }

  predicate Names(e: Event, id: Id) { e.content.FromPlatform? && e.content.notice.ActionAuthorized? && e.content.notice.releasedEventId == id }

  /** Of the events that the call adds, those of agents were let pass or let go, and the latter are named. */
  ghost predicate EventsExplained(env: Env, db: Db, op: Op, db': Db) {
    forall e :: e in db'.events && e !in db.events && e.sender.Some? ==>
      SaysAtOnce(env, db, op, e) || (LetsGo(db, op, e) && exists x :: x in db'.events && Names(x, e.id))
  }

  /** Approvals are the old ones, with the same request, or the call holds them. */
  ghost predicate ApprovalsExplained(env: Env, db: Db, op: Op, db': Db) {
    forall id :: id in db'.approvals ==>
      || (id in db.approvals && SameRequest(db.approvals[id], db'.approvals[id]))
      || (id !in db.approvals && Holds(env, db, op, id, db'.approvals[id]) && id < db'.nextId)
  }

  lemma PlaceOf(events: seq<Event>, later: seq<Event>, e: Event) returns (i: nat)
    requires events <= later && e in later && e !in events
    ensures |events| <= i < |later| && later[i] == e
  {
    assert forall k :: 0 <= k < |events| ==> later[k] in events;
    i :| i < |later| && later[i] == e;
  }

  lemma NothingSaid(env: Env, db: Db, op: Op, db': Db)
    requires db.events <= db'.events && forall i :: |db.events| <= i < |db'.events| ==> db'.events[i].sender.None?
    ensures EventsExplained(env, db, op, db')
  {
    forall e | e in db'.events && e !in db.events ensures e.sender.None? { var i := PlaceOf(db.events, db'.events, e); }
  }

  /** Whatever the submission did with the body that may be said. */
  lemma SubmissionIsExplained(env: Env, db: Db, op: Op)
    requires op.OpSubmit? && forall id :: id in db.approvals ==> id < db.nextId
    ensures EventsExplained(env, db, op, Exec(env, db, op)) && ApprovalsExplained(env, db, op, Exec(env, db, op))
  {
    var p := Find(db.participants, op.sender);
    if p.Some? && op.candidate.Some? {
      var said := SubmissionLeaves(env, db, p.value, op.candidate.value, op.now);
      if said.Some? && HasTerms(db, p.value) { BodyIsExplained(env, db, op, Exec(env, db, op), p.value, said.value); }
    }
  }

  lemma BodyIsExplained(env: Env, db: Db, op: Op, db': Db, p: Participant, body: Body)
    requires op.OpSubmit? && op.candidate.Some? && p in db.participants && p.id == op.sender && db.nextId !in db.approvals
    requires IsRestricted(db.events, p.id, op.candidate.value.body, body) && HasTerms(db, p)
    requires var r := env.scan(body, op.candidate.value.declared);
      if Passes(db, p, body, r) then IsSaid(db, db', p, body, r.classification)
      else if NeedsApproval(db, p, body, r) then IsHeld(env, db, db', p, body, op.now)
      else exists rule :: IsBlocked(db, db', p, body, rule)
    ensures EventsExplained(env, db, op, db') && ApprovalsExplained(env, db, op, db')
  {
    var r := env.scan(body, op.candidate.value.declared);
    if Passes(db, p, body, r) {
      SaidIsExplained(env, db, op, db', p, body);
    } else if NeedsApproval(db, p, body, r) {
      HeldIsExplained(env, db, op, db', p, body);
    } else {
      NothingSaid(env, db, op, db');
    }
  }

  lemma SaidIsExplained(env: Env, db: Db, op: Op, db': Db, p: Participant, body: Body)
    requires op.OpSubmit? && op.candidate.Some? && p in db.participants && p.id == op.sender
    requires IsRestricted(db.events, p.id, op.candidate.value.body, body)
    requires Passes(db, p, body, env.scan(body, op.candidate.value.declared))
    requires IsSaid(db, db', p, body, env.scan(body, op.candidate.value.declared).classification)
    ensures EventsExplained(env, db, op, db')
  {
    forall e | e in db'.events && e !in db.events && e.sender.Some? ensures SaysAtOnce(env, db, op, e) {
      var i := PlaceOf(db.events, db'.events, e);
      assert i == |db.events|;
    }
  }

  lemma HeldIsExplained(env: Env, db: Db, op: Op, db': Db, p: Participant, body: Body)
    requires op.OpSubmit? && op.candidate.Some? && p in db.participants && p.id == op.sender && db.nextId !in db.approvals
    requires IsRestricted(db.events, p.id, op.candidate.value.body, body)
    requires NeedsApproval(db, p, body, env.scan(body, op.candidate.value.declared))
    requires IsHeld(env, db, db', p, body, op.now)
    ensures EventsExplained(env, db, op, db') && ApprovalsExplained(env, db, op, db')
  {
    NothingSaid(env, db, op, db');
    assert Holds(env, db, op, db.nextId, db'.approvals[db.nextId]);
  }

  lemma DecisionIsExplained(env: Env, db: Db, op: Op)
    requires op.OpDecide?
    ensures EventsExplained(env, db, op, Exec(env, db, op))
  {
    if DecideApproval(env, db, op.org, op.user, op.approvalId, op.approve, op.now).1.Err? {
      RefusalIsExplained(env, db, op);
    } else {
      SuccessIsExplained(env, db, op);
    }
  }

  lemma RefusalIsExplained(env: Env, db: Db, op: Op)
    requires op.OpDecide? && DecideApproval(env, db, op.org, op.user, op.approvalId, op.approve, op.now).1.Err?
    ensures EventsExplained(env, db, op, Exec(env, db, op))
  {
    DecisionRecords.RefusalIsRecorded(env, db, op.org, op.user, op.approvalId, op.approve, op.now);
    NothingSaid(env, db, op, Exec(env, db, op));
  }

  lemma SuccessIsExplained(env: Env, db: Db, op: Op)
    requires op.OpDecide? && DecideApproval(env, db, op.org, op.user, op.approvalId, op.approve, op.now).1.Ok?
    ensures EventsExplained(env, db, op, Exec(env, db, op))
  {
    DecisionRecords.DecisionIsRecorded(env, db, op.org, op.user, op.approvalId, op.approve, op.now);
    DecisionRecords.DecisionIsAnnounced(env, db, op.org, op.user, op.approvalId, op.approve, op.now);
    AnnouncedIsExplained(env, db, op, DecideApproval(env, db, op.org, op.user, op.approvalId, op.approve, op.now).0);
  }

  lemma AnnouncedIsExplained(env: Env, db: Db, op: Op, db': Db)
    requires op.OpDecide? && op.approvalId in db.approvals
    requires var a, n := db.approvals[op.approvalId], |db.events|;
      && a.status == Pending && op.now <= a.expiresAt && op.org == a.approverOrg
      && db.events <= db'.events
      && (!op.approve ==> |db'.events| == n + 1 && db'.events[n].sender.None?)
      && (op.approve ==>
            && n + 2 <= |db'.events| <= n + 3
            && db'.events[n].sender == Some(a.requestedBy) && db'.events[n].content == FromAgent(a.body)
            && db'.events[n + 1].sender.None?
            && db'.events[n + 1].content == FromPlatform(ActionAuthorized(op.approvalId, ActionOf(a.body), db'.events[n].id))
            && (|db'.events| == n + 3 ==> db'.events[n + 2].sender.None?))
    ensures EventsExplained(env, db, op, db')
  {
    if op.approve { ApprovalIsExplained(env, db, op, db'); } else { NothingSaid(env, db, op, db'); }
  }

  lemma ApprovalIsExplained(env: Env, db: Db, op: Op, db': Db)
    requires op.OpDecide? && op.approve && op.approvalId in db.approvals
    requires var a, n := db.approvals[op.approvalId], |db.events|;
      && a.status == Pending && op.now <= a.expiresAt && op.org == a.approverOrg
      && db.events <= db'.events && |db'.events| >= n + 2
      && db'.events[n].sender == Some(a.requestedBy) && db'.events[n].content == FromAgent(a.body)
      && Names(db'.events[n + 1], db'.events[n].id)
      && forall i :: n + 1 <= i < |db'.events| ==> db'.events[i].sender.None?
    ensures EventsExplained(env, db, op, db')
  {
    var n := |db.events|;
    assert db'.events[n + 1] in db'.events;
    forall e | e in db'.events && e !in db.events && e.sender.Some? ensures e == db'.events[n] {
      var i := PlaceOf(db.events, db'.events, e);
    }
  }

  lemma OthersSayNothing(env: Env, db: Db, op: Op)
    requires !op.OpSubmit? && !op.OpDecide?
    ensures EventsExplained(env, db, op, Exec(env, db, op))
  {
    if Works(op) { PlatformSaysNothing(env, db, op); }
    else {
      if !op.OpPropose? { Stream.OtherIsFramed(env, db, op); }
      NothingSaid(env, db, op, Exec(env, db, op));
    }
  }

  lemma PlatformSaysNothing(env: Env, db: Db, op: Op)
    requires Works(op) && !op.OpSubmit? && !op.OpDecide?
    ensures EventsExplained(env, db, op, Exec(env, db, op))
  {
    NothingSaid(env, db, op, Exec(env, db, op));
  }

  lemma PlatformHoldsNothing(env: Env, db: Db, op: Op)
    requires !op.OpSubmit? && !op.OpDecide? && !Stream.Frames(op)
    ensures ApprovalsExplained(env, db, op, Exec(env, db, op))
  {
    assert Exec(env, db, op).approvals == db.approvals;
  }

  lemma FramedHoldsNothing(env: Env, db: Db, op: Op)
    requires Stream.Frames(op)
    ensures ApprovalsExplained(env, db, op, Exec(env, db, op))
  {
    Stream.OtherIsFramed(env, db, op);
  }

  lemma OthersHoldNothing(env: Env, db: Db, op: Op)
    requires !op.OpSubmit?
    ensures ApprovalsExplained(env, db, op, Exec(env, db, op))
  {
    if op.OpDecide? { DecisionHoldsNothing(env, db, op); }
    else if Stream.Frames(op) { FramedHoldsNothing(env, db, op); }
    else { PlatformHoldsNothing(env, db, op); }
  }

  lemma DecisionHoldsNothing(env: Env, db: Db, op: Op)
    requires op.OpDecide?
    ensures ApprovalsExplained(env, db, op, Exec(env, db, op))
  {
    if DecideApproval(env, db, op.org, op.user, op.approvalId, op.approve, op.now).1.Ok? {
      DecisionRecords.DecisionIsRecorded(env, db, op.org, op.user, op.approvalId, op.approve, op.now);
    } else {
      DecisionRecords.RefusalIsRecorded(env, db, op.org, op.user, op.approvalId, op.approve, op.now);
    }
  }

  lemma StepIsExplained(env: Env, db: Db, op: Op)
    requires forall id :: id in db.approvals ==> id < db.nextId
    ensures EventsExplained(env, db, op, Exec(env, db, op)) && ApprovalsExplained(env, db, op, Exec(env, db, op))
  {
    if op.OpSubmit? {
      SubmissionIsExplained(env, db, op);
    } else {
      OthersHoldNothing(env, db, op);
      if op.OpDecide? { DecisionIsExplained(env, db, op); } else { OthersSayNothing(env, db, op); }
    }
  }

  // ---------------------------------------------------------------------------------------------
  // Runs
  // ---------------------------------------------------------------------------------------------

  predicate IdsBelow(db: Db) { forall id :: id in db.approvals ==> id < db.nextId }

  lemma CounterGrows(env: Env, db: Db, op: Op)
    requires env.Valid()
    ensures db.nextId <= Exec(env, db, op).nextId
  {
    if Works(op) { Lifecycle.WorkStepIsQuiet(env, db, op); } else if Stream.Frames(op) { Stream.OtherIsFramed(env, db, op); }
  }

  lemma StepKeepsIds(env: Env, db: Db, op: Op)
    requires env.Valid() && IdsBelow(db)
    ensures IdsBelow(Exec(env, db, op))
  {
    CounterGrows(env, db, op);
    StepIsExplained(env, db, op);
  }

  lemma {:induction false} RunKeepsIds(env: Env, db: Db, ops: seq<Op>)
    requires env.Valid() && IdsBelow(db)
    ensures IdsBelow(Run(env, db, ops))
    decreases |ops|
  {
    if ops != [] {
      StepKeepsIds(env, db, ops[0]);
      RunKeepsIds(env, Exec(env, db, ops[0]), ops[1..]);
    }
  }

  lemma {:induction false} RunThen(env: Env, db: Db, ops: seq<Op>)
    requires ops != []
    ensures var n := |ops| - 1; Run(env, db, ops) == Exec(env, Run(env, db, ops[..n]), ops[n])
    decreases |ops|
  {
    var n := |ops| - 1;
    if n == 0 {
      assert ops[..0] == [] && ops[1..] == [];
      assert Run(env, db, ops) == Run(env, Exec(env, db, ops[0]), []);
    } else {
      RunThen(env, Exec(env, db, ops[0]), ops[1..]);
      assert ops[1..][..n - 1] == ops[..n][1..];
    }
  }

  /** The j-th call said it at once. */
  ghost predicate SaidBy(env: Env, db: Db, ops: seq<Op>, j: nat, e: Event) {
    j < |ops| && SaysAtOnce(env, Run(env, db, ops[..j]), ops[j], e)
  }

  /** The j-th call was a human's approval of it. */
  ghost predicate LetGoBy(env: Env, db: Db, ops: seq<Op>, j: nat, e: Event) {
    j < |ops| && LetsGo(Run(env, db, ops[..j]), ops[j], e)
  }

  /** The i-th call held it. */
  ghost predicate HeldBy(env: Env, db: Db, ops: seq<Op>, i: nat, id: Id, a: Approval) {
    i < |ops| && Holds(env, Run(env, db, ops[..i]), ops[i], id, a)
  }

  lemma SameBefore(ops: seq<Op>, n: nat, j: nat)
    requires j < n <= |ops|
    ensures ops[..n][j] == ops[j] && ops[..n][..j] == ops[..j]
  {
  }

  lemma HeldLater(env: Env, db: Db, ops: seq<Op>, n: nat, id: Id, a: Approval, b: Approval)
    requires n <= |ops| && SameRequest(a, b) && exists i: nat :: HeldBy(env, db, ops[..n], i, id, a)
    ensures exists i: nat :: HeldBy(env, db, ops, i, id, b)
  {
    var i: nat :| HeldBy(env, db, ops[..n], i, id, a);
    SameBefore(ops, n, i);
    HoldsSame(env, Run(env, db, ops[..i]), ops[i], id, a, b);
    assert HeldBy(env, db, ops, i, id, b);
  }

  lemma HoldsSame(env: Env, db: Db, op: Op, id: Id, a: Approval, b: Approval)
    requires SameRequest(a, b) && Holds(env, db, op, id, a)
    ensures Holds(env, db, op, id, b)
  {
  }

  /** Over every run each approval was held by a submission: of the organization that is to decide it, of a body that had to
      be held by the policy and the contract of that moment, under its hash and for a day. */
  lemma {:induction false} ApprovalsWereHeld(env: Env, org: OrgId, budget: Budget, ops: seq<Op>, id: Id)
    requires env.Valid() && id in Run(env, CreateRoom(org, budget), ops).approvals
    ensures exists i: nat :: HeldBy(env, CreateRoom(org, budget), ops, i, id, Run(env, CreateRoom(org, budget), ops).approvals[id])
    decreases |ops|
  {
    var db0 := CreateRoom(org, budget);
    if ops != [] {
      var n := |ops| - 1;
      var before, after := Run(env, db0, ops[..n]), Run(env, db0, ops);
      RunThen(env, db0, ops);
      RunKeepsIds(env, db0, ops[..n]);
      StepIsExplained(env, before, ops[n]);
      if id in before.approvals {
        ApprovalsWereHeld(env, org, budget, ops[..n], id);
        HeldLater(env, db0, ops, n, id, before.approvals[id], after.approvals[id]);
      } else {
        assert HeldBy(env, db0, ops, n, id, after.approvals[id]);
      }
    }
  }

  ghost predicate Justified(env: Env, db: Db, ops: seq<Op>, e: Event, later: seq<Event>) {
    || (exists j: nat :: SaidBy(env, db, ops, j, e))
    || ((exists j: nat :: LetGoBy(env, db, ops, j, e)) && exists x :: x in later && Names(x, e.id))
  }

  lemma JustifiedLater(env: Env, db: Db, ops: seq<Op>, n: nat, e: Event, before: seq<Event>, later: seq<Event>)
    requires n <= |ops| && before <= later && Justified(env, db, ops[..n], e, before)
    ensures Justified(env, db, ops, e, later)
  {
    if j: nat :| SaidBy(env, db, ops[..n], j, e) {
      SameBefore(ops, n, j);
      assert SaidBy(env, db, ops, j, e);
    } else {
      var j: nat :| LetGoBy(env, db, ops[..n], j, e);
      SameBefore(ops, n, j);
      assert LetGoBy(env, db, ops, j, e);
      var x :| x in before && Names(x, e.id);
      assert x in later;
    }
  }

  /** Over every run each event of an agent was either said at once, by a submission that the policy and the contract of that
      moment let pass, or is the body of an approval that a human of the right organization approved while it was pending and
      not past its expiry; then an authorization in the stream names it. */
  lemma {:induction false} EventsAreJustified(env: Env, org: OrgId, budget: Budget, ops: seq<Op>, e: Event)
    requires env.Valid() && e in Run(env, CreateRoom(org, budget), ops).events && e.sender.Some?
    ensures Justified(env, CreateRoom(org, budget), ops, e, Run(env, CreateRoom(org, budget), ops).events)
    decreases |ops|
  {
    var db0 := CreateRoom(org, budget);
    if ops != [] {
      var n := |ops| - 1;
      var before, after := Run(env, db0, ops[..n]), Run(env, db0, ops);
      RunThen(env, db0, ops);
      RunKeepsIds(env, db0, ops[..n]);
      StepIsExplained(env, before, ops[n]);
      Stream.StepAppends(env, before, ops[n]);
      if e in before.events {
        EventsAreJustified(env, org, budget, ops[..n], e);
        JustifiedLater(env, db0, ops, n, e, before.events, after.events);
      } else if SaysAtOnce(env, before, ops[n], e) {
        assert SaidBy(env, db0, ops, n, e);
      } else {
        assert LetGoBy(env, db0, ops, n, e);
      }
    }
  }

  /** What a human let go had been held before: nothing that needs an approval is ever said without one, and nothing else
      waits for one. */
  lemma WhatIsLetGoWasHeld(env: Env, org: OrgId, budget: Budget, ops: seq<Op>, j: nat, e: Event)
    returns (i: nat, a: Approval)
    requires env.Valid() && LetGoBy(env, CreateRoom(org, budget), ops, j, e)
    ensures i < j && e.sender == Some(a.requestedBy) && e.content == FromAgent(a.body)
    ensures HeldBy(env, CreateRoom(org, budget), ops, i, ops[j].approvalId, a)
  {
    var db0 := CreateRoom(org, budget);
    var id := ops[j].approvalId;
    a := Run(env, db0, ops[..j]).approvals[id];
    ApprovalsWereHeld(env, org, budget, ops[..j], id);
    i :| HeldBy(env, db0, ops[..j], i, id, a);
    SameBefore(ops, j, i);
  }
}
